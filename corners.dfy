/** Choosing the simplex a sample falls in: from the sample's offsets
    `x0, y0, ...` inside its skewed lattice cell, the lattice offsets of the
    intermediate corners of that simplex (the branch logic of `Noise2`,
    `Noise3` and `Noise4` in simplex.go, and its helper `ifexpr`). The
    offsets are only compared, never computed with, so they are reals here. */
module Corners {

  /** Lattice offset `(i1, j1)` of a 2D corner from the cell origin. */
  datatype Offset2 = Offset2(i: int, j: int)
  {
    /** Each component is a step of 0 or 1. */
    predicate IsUnit() { 0 <= i <= 1 && 0 <= j <= 1 }
    function Sum(): int { i + j }
    /** Componentwise `<=`: `o` is reached from this corner by further steps. */
    predicate Below(o: Offset2) { i <= o.i && j <= o.j }
  }

  /** Lattice offset `(i1, j1, k1)` of a 3D corner from the cell origin. */
  datatype Offset3 = Offset3(i: int, j: int, k: int)
  {
    predicate IsUnit() { 0 <= i <= 1 && 0 <= j <= 1 && 0 <= k <= 1 }
    function Sum(): int { i + j + k }
    predicate Below(o: Offset3) { i <= o.i && j <= o.j && k <= o.k }
  }

  /** Lattice offset `(i1, j1, k1, l1)` of a 4D corner from the cell origin. */
  datatype Offset4 = Offset4(i: int, j: int, k: int, l: int)
  {
    predicate IsUnit() { 0 <= i <= 1 && 0 <= j <= 1 && 0 <= k <= 1 && 0 <= l <= 1 }
    function Sum(): int { i + j + k + l }
    predicate Below(o: Offset4) { i <= o.i && j <= o.j && k <= o.k && l <= o.l }
  }

  /** The corners of a 2D simplex in visiting order: from the cell origin to
      the opposite corner, the n-th corner having made n unit steps, and each
      corner reached from the one before by one more step. */
  predicate IsWalk2(c: seq<Offset2>)
  {
    |c| == 3 && c[0] == Offset2(0, 0) && c[2] == Offset2(1, 1) &&
    c[1].IsUnit() && c[1].Sum() == 1 &&
    c[0].Below(c[1]) && c[1].Below(c[2])
  }

  predicate IsWalk3(c: seq<Offset3>)
  {
    |c| == 4 && c[0] == Offset3(0, 0, 0) && c[3] == Offset3(1, 1, 1) &&
    c[1].IsUnit() && c[2].IsUnit() && c[1].Sum() == 1 && c[2].Sum() == 2 &&
    c[0].Below(c[1]) && c[1].Below(c[2]) && c[2].Below(c[3])
  }

  predicate IsWalk4(c: seq<Offset4>)
  {
    |c| == 5 && c[0] == Offset4(0, 0, 0, 0) && c[4] == Offset4(1, 1, 1, 1) &&
    c[1].IsUnit() && c[2].IsUnit() && c[3].IsUnit() &&
    c[1].Sum() == 1 && c[2].Sum() == 2 && c[3].Sum() == 3 &&
    c[0].Below(c[1]) && c[1].Below(c[2]) && c[2].Below(c[3]) && c[3].Below(c[4])
  }

  /** Every axis a 3D corner has stepped along holds a coordinate at least as
      large as every axis it has not: the corner steps along the largest
      coordinates first. */
  predicate StepsLargestFirst3(c: Offset3, x0: real, y0: real, z0: real)
  {
    (c.i == 1 && c.j == 0 ==> x0 >= y0) && (c.j == 1 && c.i == 0 ==> y0 >= x0) &&
    (c.i == 1 && c.k == 0 ==> x0 >= z0) && (c.k == 1 && c.i == 0 ==> z0 >= x0) &&
    (c.j == 1 && c.k == 0 ==> y0 >= z0) && (c.k == 1 && c.j == 0 ==> z0 >= y0)
  }

  /** The same for a 4D corner, over all six pairs of axes. */
  predicate StepsLargestFirst4(c: Offset4, x0: real, y0: real, z0: real, w0: real)
  {
    (c.i == 1 && c.j == 0 ==> x0 >= y0) && (c.j == 1 && c.i == 0 ==> y0 >= x0) &&
    (c.i == 1 && c.k == 0 ==> x0 >= z0) && (c.k == 1 && c.i == 0 ==> z0 >= x0) &&
    (c.i == 1 && c.l == 0 ==> x0 >= w0) && (c.l == 1 && c.i == 0 ==> w0 >= x0) &&
    (c.j == 1 && c.k == 0 ==> y0 >= z0) && (c.k == 1 && c.j == 0 ==> z0 >= y0) &&
    (c.j == 1 && c.l == 0 ==> y0 >= w0) && (c.l == 1 && c.j == 0 ==> w0 >= y0) &&
    (c.k == 1 && c.l == 0 ==> z0 >= w0) && (c.l == 1 && c.k == 0 ==> w0 >= z0)
  }

  /** The middle corner of the 2D simplex: one step along the larger
      coordinate, a tie stepping along y. */
  function Corner2(x0: real, y0: real): (c: Offset2)
    ensures c.IsUnit() && c.Sum() == 1
    ensures c.i == 1 <==> x0 > y0
    ensures c.j == 1 <==> y0 >= x0
  {
    if x0 > y0 then Offset2(1, 0) else Offset2(0, 1)
  }

  /** The second and third corners of the 3D simplex, by the six-way decision
      tree: corner 1 steps along one axis, corner 2 along two, corner 2 is
      reached from corner 1, and both step along the largest coordinates
      first. Ties go to the earlier axis (x before y before z). */
  function Corners3(x0: real, y0: real, z0: real): (c: (Offset3, Offset3))
    ensures c.0.IsUnit() && c.1.IsUnit()
    ensures c.0.Sum() == 1 && c.1.Sum() == 2
    ensures c.0.Below(c.1)
    ensures StepsLargestFirst3(c.0, x0, y0, z0) && StepsLargestFirst3(c.1, x0, y0, z0)
    ensures c.0.i == 1 <==> x0 >= y0 && x0 >= z0
    ensures c.0.j == 1 <==> y0 > x0 && y0 >= z0
    ensures c.0.k == 1 <==> z0 > x0 && z0 > y0
    ensures c.1.i == 0 <==> x0 < y0 && x0 < z0
    ensures c.1.j == 0 <==> y0 <= x0 && y0 < z0
    ensures c.1.k == 0 <==> z0 <= x0 && z0 <= y0
  {
    if x0 >= y0 then
      if y0 >= z0 then (Offset3(1, 0, 0), Offset3(1, 1, 0))       // X Y Z order
      else if x0 >= z0 then (Offset3(1, 0, 0), Offset3(1, 0, 1))  // X Z Y order
      else (Offset3(0, 0, 1), Offset3(1, 0, 1))                   // Z X Y order
    else
      if y0 < z0 then (Offset3(0, 0, 1), Offset3(0, 1, 1))        // Z Y X order
      else if x0 < z0 then (Offset3(0, 1, 0), Offset3(0, 1, 1))   // Y Z X order
      else (Offset3(0, 1, 0), Offset3(1, 1, 0))                   // Y X Z order
  }

  /** The ranks of the four offsets: how many of the other three each beats. */
  datatype Ranks4 = Ranks4(x: int, y: int, z: int, w: int)

  /** The four ranks are 0, 1, 2 and 3 in some order. */
  predicate IsRankPermutation(r: Ranks4)
  {
    0 <= r.x <= 3 && 0 <= r.y <= 3 && 0 <= r.z <= 3 && 0 <= r.w <= 3 &&
    r.x != r.y && r.x != r.z && r.x != r.w && r.y != r.z && r.y != r.w && r.z != r.w
  }

  /** For each pair of axes, the earlier one ranks higher exactly when its
      offset is strictly larger. */
  predicate RanksOrder(r: Ranks4, x0: real, y0: real, z0: real, w0: real)
  {
    (r.x > r.y <==> x0 > y0) && (r.x > r.z <==> x0 > z0) && (r.x > r.w <==> x0 > w0) &&
    (r.y > r.z <==> y0 > z0) && (r.y > r.w <==> y0 > w0) && (r.z > r.w <==> z0 > w0)
  }

  /** The ranks by definition: each axis counts the other three axes it
      beats. An axis beats a later axis only with a strictly larger offset,
      and beats an earlier axis with a larger or equal one. The ranks are a
      permutation of 0..3 that orders the axes by their offsets, a tie
      ranking the later axis higher. */
  function RanksOf(x0: real, y0: real, z0: real, w0: real): (r: Ranks4)
    ensures IsRankPermutation(r)
    ensures r.x + r.y + r.z + r.w == 6
    ensures RanksOrder(r, x0, y0, z0, w0)
  {
    Ranks4(IfExpr(x0 > y0, 1, 0) + IfExpr(x0 > z0, 1, 0) + IfExpr(x0 > w0, 1, 0),
           IfExpr(y0 >= x0, 1, 0) + IfExpr(y0 > z0, 1, 0) + IfExpr(y0 > w0, 1, 0),
           IfExpr(z0 >= x0, 1, 0) + IfExpr(z0 >= y0, 1, 0) + IfExpr(z0 > w0, 1, 0),
           IfExpr(w0 >= x0, 1, 0) + IfExpr(w0 >= y0, 1, 0) + IfExpr(w0 >= z0, 1, 0))
  }

  /** Rank counting by six pairwise comparisons; each comparison credits the
      strictly larger operand, or the second one on a tie. */
  method Rank4(x0: real, y0: real, z0: real, w0: real) returns (r: Ranks4)
    ensures r == RanksOf(x0, y0, z0, w0)
  {
    var rankx, ranky, rankz, rankw := 0, 0, 0, 0;
    if x0 > y0 { rankx := rankx + 1; } else { ranky := ranky + 1; }
    if x0 > z0 { rankx := rankx + 1; } else { rankz := rankz + 1; }
    if x0 > w0 { rankx := rankx + 1; } else { rankw := rankw + 1; }
    if y0 > z0 { ranky := ranky + 1; } else { rankz := rankz + 1; }
    if y0 > w0 { ranky := ranky + 1; } else { rankw := rankw + 1; }
    if z0 > w0 { rankz := rankz + 1; } else { rankw := rankw + 1; }
    r := Ranks4(rankx, ranky, rankz, rankw);
  }

  /** `ifexpr`: `t` when `cond` holds, `f` otherwise. */
  function IfExpr(cond: bool, t: int, f: int): int
  {
    if cond then t else f
  }

  /** The 4D corner that has stepped along every axis of rank at least `t`. */
  function Threshold4(r: Ranks4, t: int): (c: Offset4)
    requires IsRankPermutation(r) && 0 <= t <= 4
    ensures c.IsUnit() && c.Sum() == 4 - t
  {
    Offset4(IfExpr(r.x >= t, 1, 0), IfExpr(r.y >= t, 1, 0),
            IfExpr(r.z >= t, 1, 0), IfExpr(r.w >= t, 1, 0))
  }

  /** Lowering the threshold only adds steps. */
  lemma Threshold4Monotone(r: Ranks4, t: int, u: int)
    requires IsRankPermutation(r) && 0 <= u <= t <= 4
    ensures Threshold4(r, t).Below(Threshold4(r, u))
  {
  }

  /** Every thresholded corner steps along larger coordinates first. */
  lemma Threshold4StepsLargestFirst(r: Ranks4, t: int, x0: real, y0: real, z0: real, w0: real)
    requires IsRankPermutation(r) && RanksOrder(r, x0, y0, z0, w0) && 0 <= t <= 4
    ensures StepsLargestFirst4(Threshold4(r, t), x0, y0, z0, w0)
  {
  }

  /** Thresholding at 3 keeps only the largest coordinate; thresholding at 1
      drops only the smallest one. */
  lemma Threshold4Extremes(r: Ranks4, x0: real, y0: real, z0: real, w0: real)
    requires IsRankPermutation(r) && RanksOrder(r, x0, y0, z0, w0)
    ensures Threshold4(r, 3).i == 1 <==> x0 > y0 && x0 > z0 && x0 > w0
    ensures Threshold4(r, 3).j == 1 <==> y0 >= x0 && y0 > z0 && y0 > w0
    ensures Threshold4(r, 3).k == 1 <==> z0 >= x0 && z0 >= y0 && z0 > w0
    ensures Threshold4(r, 3).l == 1 <==> w0 >= x0 && w0 >= y0 && w0 >= z0
    ensures Threshold4(r, 1).i == 0 <==> x0 <= y0 && x0 <= z0 && x0 <= w0
    ensures Threshold4(r, 1).j == 0 <==> y0 < x0 && y0 <= z0 && y0 <= w0
    ensures Threshold4(r, 1).k == 0 <==> z0 < x0 && z0 < y0 && z0 <= w0
    ensures Threshold4(r, 1).l == 0 <==> w0 < x0 && w0 < y0 && w0 < z0
  {
  }

  /** The second, third and fourth corners of the 4D simplex, by ranking and
      thresholding: corner L steps along the L highest-ranked axes, so its
      offsets sum to L, each corner is reached from the one before, and
      every corner steps along the largest coordinates first. */
  function Corners4(x0: real, y0: real, z0: real, w0: real): (c: (Offset4, Offset4, Offset4))
    ensures c.0.IsUnit() && c.1.IsUnit() && c.2.IsUnit()
    ensures c.0.Sum() == 1 && c.1.Sum() == 2 && c.2.Sum() == 3
    ensures c.0.Below(c.1) && c.1.Below(c.2)
    ensures StepsLargestFirst4(c.0, x0, y0, z0, w0)
    ensures StepsLargestFirst4(c.1, x0, y0, z0, w0)
    ensures StepsLargestFirst4(c.2, x0, y0, z0, w0)
    ensures c.0.i == 1 <==> x0 > y0 && x0 > z0 && x0 > w0
    ensures c.0.j == 1 <==> y0 >= x0 && y0 > z0 && y0 > w0
    ensures c.0.k == 1 <==> z0 >= x0 && z0 >= y0 && z0 > w0
    ensures c.0.l == 1 <==> w0 >= x0 && w0 >= y0 && w0 >= z0
    ensures c.2.i == 0 <==> x0 <= y0 && x0 <= z0 && x0 <= w0
    ensures c.2.j == 0 <==> y0 < x0 && y0 <= z0 && y0 <= w0
    ensures c.2.k == 0 <==> z0 < x0 && z0 < y0 && z0 <= w0
    ensures c.2.l == 0 <==> w0 < x0 && w0 < y0 && w0 < z0
  {
    var r := RanksOf(x0, y0, z0, w0);
    Threshold4Monotone(r, 3, 2);
    Threshold4Monotone(r, 2, 1);
    Threshold4StepsLargestFirst(r, 3, x0, y0, z0, w0);
    Threshold4StepsLargestFirst(r, 2, x0, y0, z0, w0);
    Threshold4StepsLargestFirst(r, 1, x0, y0, z0, w0);
    Threshold4Extremes(r, x0, y0, z0, w0);
    (Threshold4(r, 3), Threshold4(r, 2), Threshold4(r, 1))
  }

  /** A 2D middle corner with one unit step completes a walk from the origin
      to the far corner. */
  lemma Walk2(c1: Offset2)
    requires c1.IsUnit() && c1.Sum() == 1
    ensures IsWalk2([Offset2(0, 0), c1, Offset2(1, 1)])
  {
  }

  /** Two 3D corners with one and two unit steps, the second reached from the
      first, complete a walk from the origin to the far corner. */
  lemma Walk3(c1: Offset3, c2: Offset3)
    requires c1.IsUnit() && c2.IsUnit()
    requires c1.Sum() == 1 && c2.Sum() == 2
    requires c1.Below(c2)
    ensures IsWalk3([Offset3(0, 0, 0), c1, c2, Offset3(1, 1, 1)])
  {
  }

  /** Three 4D corners with one, two and three unit steps, each reached from
      the one before, complete a walk from the origin to the far corner. */
  lemma Walk4(c1: Offset4, c2: Offset4, c3: Offset4)
    requires c1.IsUnit() && c2.IsUnit() && c3.IsUnit()
    requires c1.Sum() == 1 && c2.Sum() == 2 && c3.Sum() == 3
    requires c1.Below(c2) && c2.Below(c3)
    ensures IsWalk4([Offset4(0, 0, 0, 0), c1, c2, c3, Offset4(1, 1, 1, 1)])
  {
  }
}
