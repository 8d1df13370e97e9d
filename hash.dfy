/** Hashing lattice coordinates through the permutation table, and the
    constant gradient tables the hashes index (simplex.go `getPerm`,
    `getPermMod12`, `g3`, `g4`). */
module Hash {
  import opened Permutation

  /** A gradient for 2D and 3D evaluation; 2D reads only `dx` and `dy`. */
  datatype Grad3 = Grad3(dx: int, dy: int, dz: int)

  /** A gradient for 4D evaluation. */
  datatype Grad4 = Grad4(dx: int, dy: int, dz: int, dw: int)

  /** The twelve edge midpoints of a cube: `g3`. */
  const Grad3Table: seq<Grad3> := [
    Grad3(1, 1, 0), Grad3(-1, 1, 0), Grad3(1, -1, 0), Grad3(-1, -1, 0),
    Grad3(1, 0, 1), Grad3(-1, 0, 1), Grad3(1, 0, -1), Grad3(-1, 0, -1),
    Grad3(0, 1, 1), Grad3(0, -1, 1), Grad3(0, 1, -1), Grad3(0, -1, -1)
  ]

  /** The thirty-two edge midpoints of a tesseract: `g4`. */
  const Grad4Table: seq<Grad4> := [
    Grad4(0, 1, 1, 1), Grad4(0, 1, 1, -1), Grad4(0, 1, -1, 1), Grad4(0, 1, -1, -1),
    Grad4(0, -1, 1, 1), Grad4(0, -1, 1, -1), Grad4(0, -1, -1, 1), Grad4(0, -1, -1, -1),
    Grad4(1, 0, 1, 1), Grad4(1, 0, 1, -1), Grad4(1, 0, -1, 1), Grad4(1, 0, -1, -1),
    Grad4(-1, 0, 1, 1), Grad4(-1, 0, 1, -1), Grad4(-1, 0, -1, 1), Grad4(-1, 0, -1, -1),
    Grad4(1, 1, 0, 1), Grad4(1, 1, 0, -1), Grad4(1, -1, 0, 1), Grad4(1, -1, 0, -1),
    Grad4(-1, 1, 0, 1), Grad4(-1, 1, 0, -1), Grad4(-1, -1, 0, 1), Grad4(-1, -1, 0, -1),
    Grad4(1, 1, 1, 0), Grad4(1, 1, -1, 0), Grad4(1, -1, 1, 0), Grad4(1, -1, -1, 0),
    Grad4(-1, 1, 1, 0), Grad4(-1, 1, -1, 0), Grad4(-1, -1, 1, 0), Grad4(-1, -1, -1, 0)
  ]

  /** Number of non-zero components of a gradient. */
  function NonZero3(g: Grad3): nat
  {
    (if g.dx != 0 then 1 else 0) + (if g.dy != 0 then 1 else 0) + (if g.dz != 0 then 1 else 0)
  }

  function NonZero4(g: Grad4): nat
  {
    (if g.dx != 0 then 1 else 0) + (if g.dy != 0 then 1 else 0)
    + (if g.dz != 0 then 1 else 0) + (if g.dw != 0 then 1 else 0)
  }

  /** A gradient whose components are all -1, 0 or 1 and of which exactly
      `n` are non-zero. */
  predicate IsEdge3(g: Grad3, n: nat)
  {
    -1 <= g.dx <= 1 && -1 <= g.dy <= 1 && -1 <= g.dz <= 1 && NonZero3(g) == n
  }

  predicate IsEdge4(g: Grad4, n: nat)
  {
    -1 <= g.dx <= 1 && -1 <= g.dy <= 1 && -1 <= g.dz <= 1 && -1 <= g.dw <= 1 && NonZero4(g) == n
  }

  /** Every 3D gradient has two unit components and one zero. */
  lemma Grad3Shape(n: int)
    requires 0 <= n < |Grad3Table|
    ensures |Grad3Table| == 12 && IsEdge3(Grad3Table[n], 2)
  {
  }

  /** Every 4D gradient has three unit components and one zero. */
  lemma Grad4Shape(n: int)
    requires 0 <= n < |Grad4Table|
    ensures |Grad4Table| == 32 && IsEdge4(Grad4Table[n], 3)
  {
  }

  /** `getPerm`: the table entry at `k & 0xff`. The mask is the Euclidean
      remainder modulo 256, so negative cell coordinates wrap around. */
  function GetPerm(s: Simplex, k: int): (r: int)
    requires s.Valid()
    ensures 0 <= r < TableSize
  {
    s.mix[k % TableSize] as int
  }

  /** `getPermMod12`: always a valid index into the 3D gradient table. */
  function GetPermMod12(s: Simplex, k: int): (r: int)
    requires s.Valid()
    ensures 0 <= r < |Grad3Table|
  {
    GetPerm(s, k) % 12
  }

  /** Adding a multiple of 256 does not change a remainder modulo 256. */
  lemma {:induction false} ModShift(k: int, d: int)
    ensures (k + TableSize * d) % TableSize == k % TableSize
    decreases if d < 0 then -d else d
  {
    if d > 0 {
      ModShift(k, d - 1);
      assert k + TableSize * d == (k + TableSize * (d - 1)) + TableSize;
    } else if d < 0 {
      ModShift(k, d + 1);
      assert k + TableSize * d == (k + TableSize * (d + 1)) - TableSize;
    }
  }

  /** The hash depends on its argument only modulo 256. */
  lemma GetPermPeriodic(s: Simplex, k: int, d: int)
    requires s.Valid()
    ensures GetPerm(s, k + TableSize * d) == GetPerm(s, k)
  {
    ModShift(k, d);
  }

  /** On a shuffled table two arguments collide exactly when they are
      congruent modulo 256. */
  lemma GetPermCollision(s: Simplex, a: int, b: int)
    requires s.Valid() && IsPermutation(s.mix)
    ensures GetPerm(s, a) == GetPerm(s, b) <==> a % TableSize == b % TableSize
  {
    PermutationIsInjective(s.mix);
  }

  /** On a shuffled table every value 0..255 is the hash of some slot. */
  lemma GetPermOnto(s: Simplex, v: int)
    requires s.Valid() && IsPermutation(s.mix)
    requires 0 <= v < TableSize
    ensures exists k :: 0 <= k < TableSize && GetPerm(s, k) == v
  {
    PermutationIsSurjective(s.mix);
    var w := v as uint8;
    assert w in s.mix;
    var k :| 0 <= k < |s.mix| && s.mix[k] == w;
    assert GetPerm(s, k) == v;
  }
}
