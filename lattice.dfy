/** The integer skeleton of `Noise2`, `Noise3` and `Noise4` in simplex.go:
    given the integer cell `(i, j, ...)` a sample falls in and its offsets
    `(x0, y0, ...)` inside that cell, the lattice corners of its simplex and
    the gradient each corner hashes to. The floating-point part (skewing,
    falloff, dot products, scaling) is not modelled. */
module Lattice {
  import opened Permutation
  import opened Hash
  import opened Corners

  /** 2D gradient index of the corner at offset `c` from cell `(i, j)`:
      the cell is masked to 0..255 first, then hashed by two nested lookups. */
  function GradIndex2(s: Simplex, i: int, j: int, c: Offset2): (gi: int)
    requires s.Valid()
    ensures 0 <= gi < |Grad3Table|
  {
    var ii := i % TableSize;
    var jj := j % TableSize;
    GetPermMod12(s, ii + c.i + GetPerm(s, jj + c.j))
  }

  /** 3D gradient index: three nested lookups on the raw cell coordinates. */
  function GradIndex3(s: Simplex, i: int, j: int, k: int, c: Offset3): (gi: int)
    requires s.Valid()
    ensures 0 <= gi < |Grad3Table|
  {
    GetPermMod12(s, i + c.i + GetPerm(s, j + c.j + GetPerm(s, k + c.k)))
  }

  /** 4D gradient index: four nested lookups on the raw cell coordinates,
      reduced modulo 32. */
  function GradIndex4(s: Simplex, i: int, j: int, k: int, l: int, c: Offset4): (gi: int)
    requires s.Valid()
    ensures 0 <= gi < |Grad4Table|
  {
    GetPerm(s, i + c.i + GetPerm(s, j + c.j + GetPerm(s, k + c.k + GetPerm(s, l + c.l)))) % 32
  }

  /** Masking a coordinate before adding a small offset does not change the
      remainder modulo 256. */
  lemma MaskThenAdd(i: int, a: int)
    ensures (i % TableSize + a) % TableSize == (i + a) % TableSize
  {
    ModShift(i % TableSize + a, i / TableSize);
  }

  /** The masking `Noise2` does is redundant: hashing the raw coordinates, as
      `Noise3` and `Noise4` do, selects the same gradient. */
  lemma GradIndex2Unmasked(s: Simplex, i: int, j: int, c: Offset2)
    requires s.Valid()
    ensures GradIndex2(s, i, j, c) == GetPermMod12(s, i + c.i + GetPerm(s, j + c.j))
  {
    MaskThenAdd(j, c.j);
    MaskThenAdd(i, c.i + GetPerm(s, j + c.j));
  }

  /** Gradient selection repeats every 256 cells along each axis (2D). */
  lemma GradIndex2Periodic(s: Simplex, i: int, j: int, c: Offset2, di: int, dj: int)
    requires s.Valid()
    ensures GradIndex2(s, i + TableSize * di, j + TableSize * dj, c) == GradIndex2(s, i, j, c)
  {
    ModShift(i, di);
    ModShift(j, dj);
  }

  /** Gradient selection repeats every 256 cells along each axis (3D). */
  lemma GradIndex3Periodic(s: Simplex, i: int, j: int, k: int, c: Offset3, di: int, dj: int, dk: int)
    requires s.Valid()
    ensures GradIndex3(s, i + TableSize * di, j + TableSize * dj, k + TableSize * dk, c)
         == GradIndex3(s, i, j, k, c)
  {
    var pk := GetPerm(s, k + c.k);
    GetPermPeriodic(s, k + c.k, dk);
    assert k + TableSize * dk + c.k == k + c.k + TableSize * dk;
    var pj := GetPerm(s, j + c.j + pk);
    GetPermPeriodic(s, j + c.j + pk, dj);
    assert j + TableSize * dj + c.j + pk == j + c.j + pk + TableSize * dj;
    GetPermPeriodic(s, i + c.i + pj, di);
    assert i + TableSize * di + c.i + pj == i + c.i + pj + TableSize * di;
  }

  /** Gradient selection repeats every 256 cells along each axis (4D). */
  lemma GradIndex4Periodic(s: Simplex, i: int, j: int, k: int, l: int, c: Offset4,
                           di: int, dj: int, dk: int, dl: int)
    requires s.Valid()
    ensures GradIndex4(s, i + TableSize * di, j + TableSize * dj, k + TableSize * dk, l + TableSize * dl, c)
         == GradIndex4(s, i, j, k, l, c)
  {
    var pl := GetPerm(s, l + c.l);
    GetPermPeriodic(s, l + c.l, dl);
    assert l + TableSize * dl + c.l == l + c.l + TableSize * dl;
    var pk := GetPerm(s, k + c.k + pl);
    GetPermPeriodic(s, k + c.k + pl, dk);
    assert k + TableSize * dk + c.k + pl == k + c.k + pl + TableSize * dk;
    var pj := GetPerm(s, j + c.j + pk);
    GetPermPeriodic(s, j + c.j + pk, dj);
    assert j + TableSize * dj + c.j + pk == j + c.j + pk + TableSize * dj;
    GetPermPeriodic(s, i + c.i + pj, di);
    assert i + TableSize * di + c.i + pj == i + c.i + pj + TableSize * di;
  }

  /** The simplex a 2D sample falls in: its corners, in visiting order, and
      the gradient of each. */
  datatype Cell2 = Cell2(corners: seq<Offset2>, gradients: seq<Grad3>)

  datatype Cell3 = Cell3(corners: seq<Offset3>, gradients: seq<Grad3>)

  datatype Cell4 = Cell4(corners: seq<Offset4>, gradients: seq<Grad4>)

  /** The `g3` entry each 2D corner hashes to: always an edge midpoint of
      the cube, two of whose components are ±1. */
  function Gradients2(s: Simplex, i: int, j: int, corners: seq<Offset2>): (g: seq<Grad3>)
    requires s.Valid()
    ensures |g| == |corners|
    ensures forall n :: 0 <= n < |g| ==> IsEdge3(g[n], 2)
    ensures forall n :: 0 <= n < |corners| ==> g[n] == Grad3Table[GradIndex2(s, i, j, corners[n])]
  {
    var g := seq(|corners|, n requires 0 <= n < |corners| => Grad3Table[GradIndex2(s, i, j, corners[n])]);
    assert forall n :: 0 <= n < |g| ==> IsEdge3(g[n], 2) by {
      forall n | 0 <= n < |g| ensures IsEdge3(g[n], 2) {
        Grad3Shape(GradIndex2(s, i, j, corners[n]));
      }
    }
    g
  }

  /** The `g3` entry each 3D corner hashes to: always an edge midpoint of
      the cube. */
  function Gradients3(s: Simplex, i: int, j: int, k: int, corners: seq<Offset3>): (g: seq<Grad3>)
    requires s.Valid()
    ensures |g| == |corners|
    ensures forall n :: 0 <= n < |g| ==> IsEdge3(g[n], 2)
    ensures forall n :: 0 <= n < |corners| ==> g[n] == Grad3Table[GradIndex3(s, i, j, k, corners[n])]
  {
    var g := seq(|corners|, n requires 0 <= n < |corners| => Grad3Table[GradIndex3(s, i, j, k, corners[n])]);
    assert forall n :: 0 <= n < |g| ==> IsEdge3(g[n], 2) by {
      forall n | 0 <= n < |g| ensures IsEdge3(g[n], 2) {
        Grad3Shape(GradIndex3(s, i, j, k, corners[n]));
      }
    }
    g
  }

  /** The `g4` entry each 4D corner hashes to: always an edge midpoint of
      the tesseract, three of whose components are ±1. */
  function Gradients4(s: Simplex, i: int, j: int, k: int, l: int, corners: seq<Offset4>): (g: seq<Grad4>)
    requires s.Valid()
    ensures |g| == |corners|
    ensures forall n :: 0 <= n < |g| ==> IsEdge4(g[n], 3)
    ensures forall n :: 0 <= n < |corners| ==> g[n] == Grad4Table[GradIndex4(s, i, j, k, l, corners[n])]
  {
    var g := seq(|corners|, n requires 0 <= n < |corners| => Grad4Table[GradIndex4(s, i, j, k, l, corners[n])]);
    assert forall n :: 0 <= n < |g| ==> IsEdge4(g[n], 3) by {
      forall n | 0 <= n < |g| ensures IsEdge4(g[n], 3) {
        Grad4Shape(GradIndex4(s, i, j, k, l, corners[n]));
      }
    }
    g
  }

  /** The corners and gradients `Noise2` evaluates: a walk of three corners
      from the cell origin to the opposite corner, each reading `g3` inside
      its bounds. */
  function Noise2Cell(s: Simplex, i: int, j: int, x0: real, y0: real): (cell: Cell2)
    requires s.Valid()
    ensures IsWalk2(cell.corners)
    ensures |cell.gradients| == 3
    ensures forall n :: 0 <= n < 3 ==> IsEdge3(cell.gradients[n], 2)
    ensures forall n :: 0 <= n < 3 ==>
      cell.gradients[n] == Grad3Table[GradIndex2(s, i, j, cell.corners[n])]
  {
    var c1 := Corner2(x0, y0);
    Walk2(c1);
    var corners := [Offset2(0, 0), c1, Offset2(1, 1)];
    Cell2(corners, Gradients2(s, i, j, corners))
  }

  /** The corners and gradients `Noise3` evaluates: a walk of four corners,
      each reading `g3` inside its bounds. */
  function Noise3Cell(s: Simplex, i: int, j: int, k: int, x0: real, y0: real, z0: real): (cell: Cell3)
    requires s.Valid()
    ensures IsWalk3(cell.corners)
    ensures |cell.gradients| == 4
    ensures forall n :: 0 <= n < 4 ==> IsEdge3(cell.gradients[n], 2)
    ensures forall n :: 0 <= n < 4 ==>
      cell.gradients[n] == Grad3Table[GradIndex3(s, i, j, k, cell.corners[n])]
  {
    var (c1, c2) := Corners3(x0, y0, z0);
    Walk3(c1, c2);
    var corners := [Offset3(0, 0, 0), c1, c2, Offset3(1, 1, 1)];
    Cell3(corners, Gradients3(s, i, j, k, corners))
  }

  /** The corners and gradients `Noise4` evaluates: a walk of five corners,
      each reading `g4` inside its bounds. */
  function Noise4Cell(s: Simplex, i: int, j: int, k: int, l: int, x0: real, y0: real, z0: real, w0: real)
    : (cell: Cell4)
    requires s.Valid()
    ensures IsWalk4(cell.corners)
    ensures |cell.gradients| == 5
    ensures forall n :: 0 <= n < 5 ==> IsEdge4(cell.gradients[n], 3)
    ensures forall n :: 0 <= n < 5 ==>
      cell.gradients[n] == Grad4Table[GradIndex4(s, i, j, k, l, cell.corners[n])]
  {
    var (c1, c2, c3) := Corners4(x0, y0, z0, w0);
    Walk4(c1, c2, c3);
    var corners := [Offset4(0, 0, 0, 0), c1, c2, c3, Offset4(1, 1, 1, 1)];
    Cell4(corners, Gradients4(s, i, j, k, l, corners))
  }

  /** Shifting the cell by multiples of 256 selects the same 2D gradients. */
  lemma Gradients2Periodic(s: Simplex, i: int, j: int, corners: seq<Offset2>, di: int, dj: int)
    requires s.Valid()
    ensures Gradients2(s, i + TableSize * di, j + TableSize * dj, corners) == Gradients2(s, i, j, corners)
  {
    forall n | 0 <= n < |corners|
      ensures Gradients2(s, i + TableSize * di, j + TableSize * dj, corners)[n] == Gradients2(s, i, j, corners)[n]
    {
      GradIndex2Periodic(s, i, j, corners[n], di, dj);
    }
  }

  /** Shifting the cell by multiples of 256 selects the same 3D gradients. */
  lemma Gradients3Periodic(s: Simplex, i: int, j: int, k: int, corners: seq<Offset3>, di: int, dj: int, dk: int)
    requires s.Valid()
    ensures Gradients3(s, i + TableSize * di, j + TableSize * dj, k + TableSize * dk, corners)
         == Gradients3(s, i, j, k, corners)
  {
    forall n | 0 <= n < |corners|
      ensures Gradients3(s, i + TableSize * di, j + TableSize * dj, k + TableSize * dk, corners)[n]
           == Gradients3(s, i, j, k, corners)[n]
    {
      GradIndex3Periodic(s, i, j, k, corners[n], di, dj, dk);
    }
  }

  /** Shifting the cell by multiples of 256 selects the same 4D gradients. */
  lemma Gradients4Periodic(s: Simplex, i: int, j: int, k: int, l: int, corners: seq<Offset4>,
                           di: int, dj: int, dk: int, dl: int)
    requires s.Valid()
    ensures Gradients4(s, i + TableSize * di, j + TableSize * dj, k + TableSize * dk, l + TableSize * dl, corners)
         == Gradients4(s, i, j, k, l, corners)
  {
    forall n | 0 <= n < |corners|
      ensures Gradients4(s, i + TableSize * di, j + TableSize * dj, k + TableSize * dk, l + TableSize * dl, corners)[n]
           == Gradients4(s, i, j, k, l, corners)[n]
    {
      GradIndex4Periodic(s, i, j, k, l, corners[n], di, dj, dk, dl);
    }
  }

  /** A 2D sample's simplex and its gradients repeat every 256 cells along
      each axis. */
  lemma Noise2CellPeriodic(s: Simplex, i: int, j: int, x0: real, y0: real, di: int, dj: int)
    requires s.Valid()
    ensures Noise2Cell(s, i + TableSize * di, j + TableSize * dj, x0, y0) == Noise2Cell(s, i, j, x0, y0)
  {
    Gradients2Periodic(s, i, j, [Offset2(0, 0), Corner2(x0, y0), Offset2(1, 1)], di, dj);
  }

  /** A 3D sample's simplex and its gradients repeat every 256 cells along
      each axis. */
  lemma Noise3CellPeriodic(s: Simplex, i: int, j: int, k: int, x0: real, y0: real, z0: real,
                           di: int, dj: int, dk: int)
    requires s.Valid()
    ensures Noise3Cell(s, i + TableSize * di, j + TableSize * dj, k + TableSize * dk, x0, y0, z0)
         == Noise3Cell(s, i, j, k, x0, y0, z0)
  {
    var c := Corners3(x0, y0, z0);
    Gradients3Periodic(s, i, j, k, [Offset3(0, 0, 0), c.0, c.1, Offset3(1, 1, 1)], di, dj, dk);
  }

  /** A 4D sample's simplex and its gradients repeat every 256 cells along
      each axis. */
  lemma Noise4CellPeriodic(s: Simplex, i: int, j: int, k: int, l: int, x0: real, y0: real, z0: real, w0: real,
                           di: int, dj: int, dk: int, dl: int)
    requires s.Valid()
    ensures Noise4Cell(s, i + TableSize * di, j + TableSize * dj, k + TableSize * dk, l + TableSize * dl, x0, y0, z0, w0)
         == Noise4Cell(s, i, j, k, l, x0, y0, z0, w0)
  {
    var c := Corners4(x0, y0, z0, w0);
    Gradients4Periodic(s, i, j, k, l, [Offset4(0, 0, 0, 0), c.0, c.1, c.2, Offset4(1, 1, 1, 1)], di, dj, dk, dl);
  }
}
