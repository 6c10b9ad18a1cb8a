/** Simplex noise after Stefan Gustavson's sdnoise1234: the input is skewed
    onto the simplex lattice, the corners of the enclosing simplex are chosen
    by the order of the in-cell coordinates, every corner is hashed to a
    gradient, and the surflets of the corners are summed. `f64::sqrt` has no
    counterpart over `real`, so the square root of n + 1 enters as `root`. */
module Simplex {
  import opened Wrappers
  import opened Numeric
  import opened Vectors
  import opened PermTable
  import opened Gradient

  // ---------------------------------------------------------------- 1D

  /** `hash & 8` of a byte. */
  function Bit3(hash: nat): (r: nat)
    ensures r == 0 || r == 8
  {
    if (hash / 8) % 2 == 1 then 8 else 0
  }

  /** `grad1` as written: the match on `h & 8` has arms 0 and 1, but the value
      is 0 or 8, so a hash with bit 3 set reaches `unreachable!()` (None). */
  function Grad1(hash: nat): (r: Option<real>)
    requires hash < 256
    ensures r.Some? <==> (hash / 8) % 2 == 0
    ensures r.Some? ==> r.value == -((1 + hash % 8) as real)
  {
    var h := hash % 16;
    var gx := (1 + h % 8) as real;
    var bit := Bit3(h);
    if bit == 0 then Some(-gx)
    else if bit == 1 then Some(gx)
    else None
  }

  /** Byte 8 is a hash `grad1` panics on. */
  lemma Grad1PanicsOnBit3()
    ensures Grad1(8) == None
  {
  }

  /** `grad1` with the second arm on 8, as the comment on it intends: one of
      1.0 ..= 8.0, negative exactly when bit 3 is clear. */
  function Grad1Fixed(hash: nat): (r: real)
    requires hash < 256
    ensures 1.0 <= Abs(r) <= 8.0
    ensures r < 0.0 <==> (hash / 8) % 2 == 0
  {
    var h := hash % 16;
    var gx := (1 + h % 8) as real;
    if Bit3(h) == 0 then -gx else gx
  }

  /** Where `grad1` does not panic it agrees with the corrected version, and
      flipping bit 3 flips the sign of the corrected gradient. */
  lemma Grad1FixedAgrees(hash: nat)
    requires hash < 256
    ensures Grad1(hash).Some? ==> Grad1(hash).value == Grad1Fixed(hash)
    ensures hash % 16 < 8 ==> Grad1Fixed(hash + 8) == -Grad1Fixed(hash)
  {
    var q, r := hash / 16, hash % 16;
    assert hash == 16 * q + r;
    if r < 8 {
      assert hash + 8 == 16 * q + (r + 8);
      assert (hash + 8) % 16 == r + 8;
      assert Bit3(r + 8) == 8 && Bit3(r) == 0;
    }
  }

  /** The 1D surflet `t⁴·g·x` with `t = 1 - x²`. */
  function Surflet1(gradient: real, x: real): real
  {
    var t := 1.0 - x * x;
    var t2 := t * t;
    var t4 := t2 * t2;
    t4 * gradient * x
  }

  /** The gradient index of a 1D corner: `(gi % 0xff) as u8`. */
  function Index1(t: PermutationTable, cell: int): (r: nat)
    requires t.Valid()
    ensures r < 255 && r == Hash(t, [cell]) % 255
  {
    Hash(t, [cell]) % 255
  }

  /** `simplex_1d` as written (noise value only): None when either corner's
      gradient index has bit 3 set. */
  function Simplex1D(t: PermutationTable, x: real): (r: Option<real>)
    requires t.Valid()
    ensures r.Some? <==> Grad1(Index1(t, x.Floor)).Some? && Grad1(Index1(t, x.Floor + 1)).Some?
  {
    var cell := x.Floor;
    var near := x - cell as real;
    var far := near - 1.0;
    var g0 := Grad1(Index1(t, cell));
    var g1 := Grad1(Index1(t, cell + 1));
    if g0.None? || g1.None? then None
    else Some(0.395 * (Surflet1(g0.value, near) + Surflet1(g1.value, far)))
  }

  /** Every permutation table holds the byte 8, and the lattice point that
      hashes to it makes `simplex_1d` panic. */
  lemma Simplex1DPanicsSomewhere(t: PermutationTable)
    requires t.Valid()
    ensures exists x: real :: Simplex1D(t, x) == None
  {
    assert Identity(TABLE_SIZE)[8] == 8;
    assert 8 in multiset(Identity(TABLE_SIZE));
    assert 8 in multiset(t.values);
    var k :| 0 <= k < |t.values| && t.values[k] == 8;
    assert Hash(t, [k]) == 8;
    assert (k as real).Floor == k;
    assert Simplex1D(t, k as real) == None;
  }

  /** `simplex_1d` with the corrected `grad1`. */
  function Simplex1DFixed(t: PermutationTable, x: real): (r: real)
    requires t.Valid()
    ensures x == x.Floor as real ==> r == 0.0
  {
    var cell := x.Floor;
    var near := x - cell as real;
    var far := near - 1.0;
    0.395 * (Surflet1(Grad1Fixed(Index1(t, cell)), near) + Surflet1(Grad1Fixed(Index1(t, cell + 1)), far))
  }

  /** Where `simplex_1d` does not panic it equals the corrected version. */
  lemma Simplex1DAgrees(t: PermutationTable, x: real)
    requires t.Valid()
    ensures Simplex1D(t, x).Some? ==> Simplex1D(t, x).value == Simplex1DFixed(t, x)
  {
    Grad1FixedAgrees(Index1(t, x.Floor));
    Grad1FixedAgrees(Index1(t, x.Floor + 1));
  }

  // ------------------------------------------------------ skewing

  /** `root` is the positive square root of n + 1. */
  predicate IsRoot(root: real, n: nat)
  {
    root > 0.0 && root * root == (n + 1) as real
  }

  lemma RootAboveOne(root: real, n: nat)
    requires n >= 1 && IsRoot(root, n)
    ensures root > 1.0
  {
    if root <= 1.0 {
      MulNonNegative(root, 1.0 - root);
      assert false;
    }
  }

  lemma MulPositive(a: real, b: real)
    requires 0.0 < a && 0.0 < b
    ensures 0.0 < a * b
  {
  }

  /** `skew_factor(n) = (√(n+1) - 1) / n`: positive, and `1 + n·F = √(n+1)`. */
  function SkewFactor(n: nat, root: real): (f: real)
    requires n >= 1 && IsRoot(root, n)
    ensures 0.0 < f && 1.0 + n as real * f == root
  {
    RootAboveOne(root, n);
    (root - 1.0) / n as real
  }

  /** `unskew_factor(n) = (1 - 1/√(n+1)) / n`: positive, and
      `G·√(n+1) = F`. */
  function UnskewFactor(n: nat, root: real): (g: real)
    requires n >= 1 && IsRoot(root, n)
    ensures 0.0 < g && g * root == SkewFactor(n, root)
  {
    RootAboveOne(root, n);
    var f := SkewFactor(n, root);
    var inv := 1.0 / root;
    var g := (1.0 - inv) / n as real;
    UnskewAlgebra(n as real, root, g, f);
    g
  }

  lemma UnskewAlgebra(n: real, root: real, g: real, f: real)
    requires n >= 1.0 && root > 1.0
    requires 1.0 + n * f == root && g == (1.0 - 1.0 / root) / n
    ensures 0.0 < g && g * root == f
  {
    var inv := 1.0 / root;
    assert inv * root == 1.0;
    assert 0.0 < inv < 1.0;
    assert n * g == 1.0 - inv;
    assert n * (g * root) == (n * g) * root == root - 1.0 == n * f;
  }

  /** In 2D, `2·G < 1`. */
  lemma UnskewBelowHalf(root: real)
    requires IsRoot(root, 2)
    ensures 2.0 * UnskewFactor(2, root) < 1.0
  {
    RootAboveOne(root, 2);
    ReciprocalBound(2.0, UnskewFactor(2, root), SkewFactor(2, root), root);
  }

  lemma ReciprocalBound(n: real, g: real, f: real, root: real)
    requires g * root == f && 1.0 + n * f == root && root > 1.0
    ensures n * g < 1.0
  {
    assert (n * g) * root == n * f == root - 1.0;
    if n * g >= 1.0 {
      MulNonNegative(n * g - 1.0, root);
      assert false;
    }
  }

  /** The amount the skew (or unskew) adds to every coordinate:
      `point.sum() * factor`. */
  function Shift(p: seq<real>, factor: real): real
  {
    SumOf(p) * factor
  }

  /** `point + broadcast(point.sum() * F)`. */
  function Skew(p: seq<real>, f: real): (s: seq<real>)
    ensures |s| == |p|
    ensures forall i :: 0 <= i < |p| ==> s[i] == p[i] + Shift(p, f)
  {
    Add(p, Broadcast(Shift(p, f), |p|))
  }

  /** `point - broadcast(point.sum() * G)`. */
  function Unskew(p: seq<real>, g: real): (u: seq<real>)
    ensures |u| == |p|
    ensures forall i :: 0 <= i < |p| ==> u[i] == p[i] - Shift(p, g)
  {
    Sub(p, Broadcast(Shift(p, g), |p|))
  }

  /** The relation between the two factors that makes skewing and
      unskewing inverse: `G·(1 + n·F) = F`. */
  predicate FactorsMatch(n: nat, f: real, g: real)
  {
    g * (1.0 + n as real * f) == f
  }

  lemma FactorsOfRoot(n: nat, root: real)
    requires n >= 1 && IsRoot(root, n)
    ensures FactorsMatch(n, SkewFactor(n, root), UnskewFactor(n, root))
  {
  }

  /** Adding the same amount to every coordinate adds it n times to the
      sum. */
  lemma SumOfShifted(p: seq<real>, s: seq<real>, sh: real)
    requires |s| == |p| && forall i :: 0 <= i < |p| ==> s[i] == p[i] + sh
    ensures SumOf(s) == SumOf(p) + Times(|p|, sh)
  {
    assert s == Add(p, Broadcast(sh, |p|));
    SumOfAdd(p, Broadcast(sh, |p|));
    SumOfBroadcast(sh, |p|);
  }

  lemma SumOfSkew(p: seq<real>, f: real)
    ensures SumOf(Skew(p, f)) == SumOf(p) + Times(|p|, Shift(p, f))
  {
    SumOfShifted(p, Skew(p, f), Shift(p, f));
  }

  lemma SumOfUnskew(p: seq<real>, g: real)
    ensures SumOf(Unskew(p, g)) == SumOf(p) - Times(|p|, Shift(p, g))
  {
    assert Unskew(p, g) == Sub(p, Broadcast(Shift(p, g), |p|));
    SumOfSub(p, Broadcast(Shift(p, g), |p|));
    SumOfBroadcast(Shift(p, g), |p|);
  }

  /** The shift of a skewed point, over plain reals: with
      `G·(1 + n·F) = F`, `(s + n·s·F)·G = s·F`. */
  lemma SkewedShift(sum: real, n: real, f: real, g: real, skewed: real, t: real)
    requires g * (1.0 + n * f) == f && t == n * (sum * f) && skewed == sum + t
    ensures skewed * g == sum * f
  {
    assert skewed * g == sum * (g * (1.0 + n * f));
  }

  /** The shift of an unskewed point, over plain reals:
      `(s - n·s·G)·F = s·G`. */
  lemma UnskewedShift(sum: real, n: real, f: real, g: real, unskewed: real, t: real)
    requires g * (1.0 + n * f) == f && t == n * (sum * g) && unskewed == sum - t
    ensures unskewed * f == sum * g
  {
    assert unskewed * f == sum * (f - n * (g * f));
    assert f - n * (g * f) == g * (1.0 + n * f) - n * (g * f);
  }

  /** Skewing does not change the amount the matching unskew subtracts. */
  lemma ShiftOfSkew(p: seq<real>, f: real, g: real)
    requires FactorsMatch(|p|, f, g)
    ensures Shift(Skew(p, f), g) == Shift(p, f)
  {
    SumOfSkew(p, f);
    TimesIsProduct(|p|, Shift(p, f));
    SkewedShift(SumOf(p), |p| as real, f, g, SumOf(Skew(p, f)), Times(|p|, Shift(p, f)));
  }

  /** Unskewing does not change the amount the matching skew adds. */
  lemma ShiftOfUnskew(p: seq<real>, f: real, g: real)
    requires FactorsMatch(|p|, f, g)
    ensures Shift(Unskew(p, g), f) == Shift(p, g)
  {
    SumOfUnskew(p, g);
    TimesIsProduct(|p|, Shift(p, g));
    UnskewedShift(SumOf(p), |p| as real, f, g, SumOf(Unskew(p, g)), Times(|p|, Shift(p, g)));
  }

  /** Skewing and unskewing with matching factors are inverse maps. */
  lemma SkewUnskewInverse(p: seq<real>, f: real, g: real)
    requires FactorsMatch(|p|, f, g)
    ensures Unskew(Skew(p, f), g) == p
    ensures Skew(Unskew(p, g), f) == p
  {
    ShiftOfSkew(p, f, g);
    ShiftOfUnskew(p, f, g);
    assert Unskew(Skew(p, f), g) == p;
    assert Skew(Unskew(p, g), f) == p;
  }

  /** Skewing is linear: it distributes over subtraction. */
  lemma SkewOfSub(a: seq<real>, b: seq<real>, f: real)
    requires |a| == |b|
    ensures Skew(Sub(a, b), f) == Sub(Skew(a, f), Skew(b, f))
  {
    SumOfSub(a, b);
    assert Shift(Sub(a, b), f) == Shift(a, f) - Shift(b, f);
    assert Skew(Sub(a, b), f) == Sub(Skew(a, f), Skew(b, f));
  }

  /** The simplex cell: the floor of the skewed point. */
  function SimplexCell(point: seq<real>, root: real): (cell: seq<int>)
    requires |point| >= 1 && IsRoot(root, |point|)
    ensures |cell| == |point|
  {
    Floor(Skew(point, SkewFactor(|point|, root)))
  }

  /** `point - (cell - broadcast(cell.sum() * G))`: the offset from the
      unskewed cell origin. */
  function SimplexDistance(point: seq<real>, cell: seq<int>, root: real): (d: seq<real>)
    requires |point| >= 1 && IsRoot(root, |point|) && |cell| == |point|
    ensures |d| == |point|
  {
    Sub(point, Unskew(ToReal(cell), UnskewFactor(|point|, root)))
  }

  /** Skewing the distance gives the position of the skewed point relative
      to the cell corner. */
  lemma SkewedDistance(point: seq<real>, cell: seq<int>, root: real)
    requires |point| >= 1 && IsRoot(root, |point|) && |cell| == |point|
    ensures Skew(SimplexDistance(point, cell, root), SkewFactor(|point|, root))
         == Sub(Skew(point, SkewFactor(|point|, root)), ToReal(cell))
  {
    var n := |point|;
    var f := SkewFactor(n, root);
    var g := UnskewFactor(n, root);
    var c := ToReal(cell);
    FactorsOfRoot(n, root);
    SkewUnskewInverse(c, f, g);
    SkewOfSub(point, Unskew(c, g), f);
  }

  /** With the floored cell, the skewed distance lies in the unit cube
      [0, 1)ⁿ: the point lies in the cell the corners are taken from. */
  lemma CellContainsPoint(point: seq<real>, root: real)
    requires |point| >= 1 && IsRoot(root, |point|)
    ensures var s := Skew(SimplexDistance(point, SimplexCell(point, root), root), SkewFactor(|point|, root));
      forall i :: 0 <= i < |s| ==> 0.0 <= s[i] < 1.0
  {
    SkewedDistance(point, SimplexCell(point, root), root);
  }

  /** The skew adds the same amount to every coordinate, so it keeps their
      order. */
  lemma SkewKeepsOrder(d: seq<real>, f: real, i: nat, j: nat)
    requires i < |d| && j < |d|
    ensures d[i] > d[j] <==> Skew(d, f)[i] > Skew(d, f)[j]
    ensures d[i] >= d[j] <==> Skew(d, f)[i] >= Skew(d, f)[j]
  {
  }

  /** Surflet value `t⁴·(gradient · d)` with `t = radius - |d|²`; no
      influence when t <= 0. */
  function Surflet(gradient: seq<real>, d: seq<real>, radius: real): (r: real)
    requires |gradient| == |d|
    ensures radius <= MagnitudeSquared(d) ==> r == 0.0
    ensures (forall i :: 0 <= i < |d| ==> d[i] == 0.0) ==> r == 0.0
  {
    var t := radius - MagnitudeSquared(d);
    if t > 0.0 then
      var t2 := t * t;
      var t4 := t2 * t2;
      DotWithZeroWhenZero(gradient, d);
      t4 * DotOf(gradient, d)
    else 0.0
  }

  lemma DotWithZeroWhenZero(gradient: seq<real>, d: seq<real>)
    requires |gradient| == |d|
    ensures (forall i :: 0 <= i < |d| ==> d[i] == 0.0) ==> DotOf(gradient, d) == 0.0
  {
    if forall i :: 0 <= i < |d| ==> d[i] == 0.0 {
      DotWithZero(gradient, d);
    }
  }

  // ---------------------------------------------------------------- 2D

  /** The middle corner's offset: (1, 0) when x > y (lower triangle), else
      (0, 1). */
  function MiddleOffset2D(d: seq<real>): (o: seq<int>)
    requires |d| == 2
    ensures o == [1, 0] || o == [0, 1]
    ensures o[0] == 1 <==> d[0] > d[1]
  {
    if d[0] > d[1] then [1, 0] else [0, 1]
  }

  /** The distances of the point from the three corners (unskewed). */
  function Offsets2D(point: seq<real>, root: real): (ds: seq<seq<real>>)
    requires |point| == 2 && IsRoot(root, 2)
    ensures |ds| == 3 && forall k :: 0 <= k < 3 ==> |ds[k]| == 2
  {
    var g := UnskewFactor(2, root);
    var d := SimplexDistance(point, SimplexCell(point, root), root);
    var o := MiddleOffset2D(d);
    [d, Add(Sub(d, ToReal(o)), Broadcast(g, 2)), Sub(d, Broadcast(1.0 + 2.0 * g, 2))]
  }

  /** The lattice points `simplex_2d` hashes, as written: the middle one is
      `cell + distance1.numcast()`, the truncated float offset. */
  function Corners2DAsWritten(point: seq<real>, root: real): (cs: seq<seq<int>>)
    requires |point| == 2 && IsRoot(root, 2)
    ensures |cs| == 3 && forall k :: 0 <= k < 3 ==> |cs[k]| == 2
  {
    var cell := SimplexCell(point, root);
    var ds := Offsets2D(point, root);
    [cell, Step(cell, NumCast(ds[1])), Step(cell, [1, 1])]
  }

  /** The lattice points of the enclosing triangle: cell, cell + offset and
      cell + (1, 1). */
  function Corners2D(point: seq<real>, root: real): (cs: seq<seq<int>>)
    requires |point| == 2 && IsRoot(root, 2)
    ensures |cs| == 3 && forall k :: 0 <= k < 3 ==> |cs[k]| == 2
    ensures cs[0] == SimplexCell(point, root)
    ensures cs[1] == Step(cs[0], MiddleOffset2D(SimplexDistance(point, cs[0], root)))
    ensures cs[2] == Step(cs[0], [1, 1])
  {
    var cell := SimplexCell(point, root);
    var d := SimplexDistance(point, cell, root);
    [cell, Step(cell, MiddleOffset2D(d)), Step(cell, [1, 1])]
  }

  lemma TruncOfSmall(x: real)
    requires -1.0 < x < 1.0
    ensures Trunc(x) == 0
  {
  }

  /** As written, `simplex_2d` hashes the middle corner at the cell itself for
      every input: each component of `distance1` lies strictly between -1
      and 1, so its truncation is zero and `gi1 == gi0`. */
  lemma MiddleCornerIsCellAsWritten(point: seq<real>, root: real)
    requires |point| == 2 && IsRoot(root, 2)
    ensures Corners2DAsWritten(point, root)[1] == Corners2DAsWritten(point, root)[0]
  {
    var d1 := Offsets2D(point, root)[1];
    MiddleDistanceSmall(point, root);
    TruncOfSmall(d1[0]);
    TruncOfSmall(d1[1]);
    assert NumCast(d1) == [0, 0];
  }

  /** Both components of `distance1` lie strictly between -1 and 1. */
  lemma MiddleDistanceSmall(point: seq<real>, root: real)
    requires |point| == 2 && IsRoot(root, 2)
    ensures var d1 := Offsets2D(point, root)[1];
      -1.0 < d1[0] < 1.0 && -1.0 < d1[1] < 1.0
  {
    var g := UnskewFactor(2, root);
    var d := SimplexDistance(point, SimplexCell(point, root), root);
    SkewedCoordinates2D(point, root);
    MiddleDistance2D(point, root);
    MiddlePairBounds(Skew(d, SkewFactor(2, root)), g, d, MiddleOffset2D(d), Offsets2D(point, root)[1]);
  }

  /** `distance1` is `distance0 - offset1 + g2`, component by component. */
  lemma MiddleDistance2D(point: seq<real>, root: real)
    requires |point| == 2 && IsRoot(root, 2)
    ensures var g := UnskewFactor(2, root);
      var d := SimplexDistance(point, SimplexCell(point, root), root);
      var o := MiddleOffset2D(d);
      var d1 := Offsets2D(point, root)[1];
      d1[0] == d[0] - o[0] as real + g && d1[1] == d[1] - o[1] as real + g
  {
  }

  /** Both components of `distance1`, from the skewed coordinates `s` of
      `distance0` and the middle offset `o`. */
  lemma MiddlePairBounds(s: seq<real>, g: real, d: seq<real>, o: seq<int>, d1: seq<real>)
    requires |s| == 2 && |d| == 2 && |d1| == 2 && (o == [1, 0] || o == [0, 1])
    requires 0.0 <= s[0] < 1.0 && 0.0 <= s[1] < 1.0 && 0.0 < g < 1.0
    requires d[0] == s[0] - (s[0] + s[1]) * g && d[1] == s[1] - (s[0] + s[1]) * g
    requires d1[0] == d[0] - o[0] as real + g && d1[1] == d[1] - o[1] as real + g
    ensures -1.0 < d1[0] < 1.0 && -1.0 < d1[1] < 1.0
  {
    var sh := (s[0] + s[1]) * g;
    MiddleBounds(s[0], s[1], g, sh, d[0], o[0], d1[0]);
    assert sh == (s[1] + s[0]) * g;
    MiddleBounds(s[1], s[0], g, sh, d[1], o[1], d1[1]);
  }

  /** The 2D distance in terms of its skewed coordinates `s`, which lie in
      [0, 1). */
  lemma SkewedCoordinates2D(point: seq<real>, root: real)
    requires |point| == 2 && IsRoot(root, 2)
    ensures var g := UnskewFactor(2, root);
      var d := SimplexDistance(point, SimplexCell(point, root), root);
      var s := Skew(d, SkewFactor(2, root));
      0.0 <= s[0] < 1.0 && 0.0 <= s[1] < 1.0 && 0.0 < g < 1.0 &&
      Shift(s, g) == (s[0] + s[1]) * g &&
      d[0] == s[0] - Shift(s, g) && d[1] == s[1] - Shift(s, g)
  {
    var f := SkewFactor(2, root);
    var g := UnskewFactor(2, root);
    var d := SimplexDistance(point, SimplexCell(point, root), root);
    var s := Skew(d, f);
    CellContainsPoint(point, root);
    UnskewBelowHalf(root);
    FactorsOfRoot(2, root);
    SkewUnskewInverse(d, f, g);
    SumOfPair(s);
  }

  lemma SumOfPair(s: seq<real>)
    requires |s| == 2
    ensures SumOf(s) == s[0] + s[1]
  {
    assert SumOf(s) == SumOf(s[..1]) + s[1];
    assert s[..1][..0] == [];
    assert SumOf(s[..1]) == SumOf(s[..1][..0]) + s[0];
  }

  /** One component of `distance1`: the own skewed coordinate `si`, the other
      `sj`, the unskew shift `sh`, the unskewed distance `di` and the 0/1
      offset `oi`. */
  lemma MiddleBounds(si: real, sj: real, g: real, sh: real, di: real, oi: int, d1i: real)
    requires 0.0 <= si < 1.0 && 0.0 <= sj < 1.0 && 0.0 < g < 1.0
    requires sh == (si + sj) * g && di == si - sh
    requires oi == 0 || oi == 1
    requires d1i == di - oi as real + g
    ensures -1.0 < d1i < 1.0
  {
    var a := si * (1.0 - g);
    var b := sj * g;
    assert sh == si * g + b;
    assert d1i == a - b - oi as real + g;
    MulNonNegative(si, 1.0 - g);
    MulPositive(1.0 - si, 1.0 - g);
    assert a < 1.0 - g;
    MulNonNegative(sj, g);
    MulPositive(1.0 - sj, g);
    assert b < g;
  }

  /** Evidently intended: the three corners are distinct and trace the
      triangle holding the point, the middle step going along the larger
      skewed coordinate. */
  lemma Corners2DEnclosePoint(point: seq<real>, root: real)
    requires |point| == 2 && IsRoot(root, 2)
    ensures var cs := Corners2D(point, root);
      cs[0] != cs[1] && cs[1] != cs[2] && cs[0] != cs[2]
    ensures var s := Skew(SimplexDistance(point, SimplexCell(point, root), root), SkewFactor(2, root));
      var o := MiddleOffset2D(SimplexDistance(point, SimplexCell(point, root), root));
      0.0 <= s[0] < 1.0 && 0.0 <= s[1] < 1.0 &&
      (o[0] == 1 ==> s[0] > s[1]) && (o[1] == 1 ==> s[1] >= s[0])
  {
    var cs := Corners2D(point, root);
    var d := SimplexDistance(point, SimplexCell(point, root), root);
    CellContainsPoint(point, root);
    SkewKeepsOrder(d, SkewFactor(2, root), 0, 1);
    SkewKeepsOrder(d, SkewFactor(2, root), 1, 0);
    assert cs[1][0] + cs[1][1] == cs[0][0] + cs[0][1] + 1;
    assert cs[2][0] + cs[2][1] == cs[0][0] + cs[0][1] + 2;
  }

  /** The sum of the three corner surflets, scaled by 40. */
  function Noise2D(t: PermutationTable, cs: seq<seq<int>>, ds: seq<seq<real>>): real
    requires t.Valid() && |cs| == 3 && |ds| == 3
    requires forall k :: 0 <= k < 3 ==> |cs[k]| == 2 && |ds[k]| == 2
  {
    40.0 * (Surflet(Grad2(Hash(t, cs[0])).value, ds[0], 0.5)
          + Surflet(Grad2(Hash(t, cs[1])).value, ds[1], 0.5)
          + Surflet(Grad2(Hash(t, cs[2])).value, ds[2], 0.5))
  }

  /** `simplex_2d` as written (noise value only). */
  function Simplex2DAsWritten(t: PermutationTable, point: seq<real>, root: real): (r: real)
    requires t.Valid() && |point| == 2 && IsRoot(root, 2)
    ensures var cs := Corners2DAsWritten(point, root);
      r == Noise2D(t, [cs[0], cs[0], cs[2]], Offsets2D(point, root))
  {
    MiddleCornerIsCellAsWritten(point, root);
    var cs := Corners2DAsWritten(point, root);
    assert cs == [cs[0], cs[0], cs[2]];
    Noise2D(t, Corners2DAsWritten(point, root), Offsets2D(point, root))
  }

  /** `simplex_2d` hashing the middle corner at `cell + offset`. */
  function Simplex2D(t: PermutationTable, point: seq<real>, root: real): real
    requires t.Valid() && |point| == 2 && IsRoot(root, 2)
  {
    Noise2D(t, Corners2D(point, root), Offsets2D(point, root))
  }

  // ---------------------------------------------------------------- 3D

  /** The offsets of the second and third corners, from the order of the
      distance components: `order1` marks a largest component, `order2`
      additionally the second largest, so its zero marks a smallest one. */
  function Orders3D(d: seq<real>): (r: (seq<int>, seq<int>))
    requires |d| == 3
    ensures |r.0| == 3 && |r.1| == 3 && Unit(r.0) && Unit(r.1)
    ensures Ones(r.0) == 1 && Ones(r.1) == 2 && Below(r.0, r.1)
    ensures forall i, j :: 0 <= i < 3 && 0 <= j < 3 && r.0[i] == 1 ==> d[i] >= d[j]
    ensures forall i, j :: 0 <= i < 3 && 0 <= j < 3 && r.1[i] == 0 ==> d[i] <= d[j]
  {
    var r :=
      if d[0] >= d[1] then
        if d[1] >= d[2] then ([1, 0, 0], [1, 1, 0])
        else if d[0] >= d[2] then ([1, 0, 0], [1, 0, 1])
        else ([0, 0, 1], [1, 0, 1])
      else
        if d[1] < d[2] then ([0, 0, 1], [0, 1, 1])
        else if d[0] < d[2] then ([0, 1, 0], [0, 1, 1])
        else ([0, 1, 0], [1, 1, 0]);
    OnesOf3(r.0);
    OnesOf3(r.1);
    r
  }

  /** The distances of the point from the four corners. */
  function Offsets3D(point: seq<real>, root: real): (ds: seq<seq<real>>)
    requires |point| == 3 && IsRoot(root, 3)
    ensures |ds| == 4 && forall k :: 0 <= k < 4 ==> |ds[k]| == 3
  {
    var g := UnskewFactor(3, root);
    var d := SimplexDistance(point, SimplexCell(point, root), root);
    var (o1, o2) := Orders3D(d);
    [d, Add(Sub(d, ToReal(o1)), Broadcast(g, 3)), Add(Sub(d, ToReal(o2)), Broadcast(2.0 * g, 3)),
     Add(Sub(d, Broadcast(1.0, 3)), Broadcast(3.0 * g, 3))]
  }

  /** The lattice points `simplex_3d` hashes. */
  function Corners3D(point: seq<real>, root: real): (cs: seq<seq<int>>)
    requires |point| == 3 && IsRoot(root, 3)
    ensures |cs| == 4 && forall k :: 0 <= k < 4 ==> |cs[k]| == 3
  {
    var cell := SimplexCell(point, root);
    var (o1, o2) := Orders3D(SimplexDistance(point, cell, root));
    [cell, Step(cell, o1), Step(cell, o2), Step(cell, [1, 1, 1])]
  }

  /** The four corners are distinct, each one unit step after the previous. */
  lemma Corners3DPath(point: seq<real>, root: real)
    requires |point| == 3 && IsRoot(root, 3)
    ensures var cs := Corners3D(point, root);
      forall k :: 0 <= k < 3 ==> Below(cs[k], cs[k + 1]) && cs[k] != cs[k + 1]
    ensures var cs := Corners3D(point, root);
      forall k, m :: 0 <= k < m < 4 ==> cs[k] != cs[m]
  {
    var cs := Corners3D(point, root);
    var cell := cs[0];
    var (o1, o2) := Orders3D(SimplexDistance(point, cell, root));
    OnesOf3(o1);
    OnesOf3(o2);
    var sums := seq(4, k requires 0 <= k < 4 => cs[k][0] + cs[k][1] + cs[k][2]);
    assert sums[1] == sums[0] + 1 && sums[2] == sums[0] + 2 && sums[3] == sums[0] + 3;
  }

  /** The sum of the four corner surflets, scaled by 28. */
  function Noise3D(t: PermutationTable, cs: seq<seq<int>>, ds: seq<seq<real>>): real
    requires t.Valid() && |cs| == 4 && |ds| == 4
    requires forall k :: 0 <= k < 4 ==> |cs[k]| == 3 && |ds[k]| == 3
  {
    28.0 * (Surflet(Grad3(Hash(t, cs[0])).value, ds[0], 0.5)
          + Surflet(Grad3(Hash(t, cs[1])).value, ds[1], 0.5)
          + Surflet(Grad3(Hash(t, cs[2])).value, ds[2], 0.5)
          + Surflet(Grad3(Hash(t, cs[3])).value, ds[3], 0.5))
  }

  /** `simplex_3d` (noise value only). */
  function Simplex3D(t: PermutationTable, point: seq<real>, root: real): real
    requires t.Valid() && |point| == 3 && IsRoot(root, 3)
  {
    Noise3D(t, Corners3D(point, root), Offsets3D(point, root))
  }

  // ---------------------------------------------------------------- 4D


  /** `SimplexTable(c)`: for each comparison index c, the rank of every
      coordinate among the four, or all zeros for an index no ordering
      produces. */
  function SimplexTable(c: nat): (row: seq<int>)
    requires c < 64
    ensures |row| == 4
  {
    match c
    case 0 => [0, 1, 2, 3]
    case 1 => [0, 1, 3, 2]
    case 2 => [0, 0, 0, 0]
    case 3 => [0, 2, 3, 1]
    case 4 => [0, 0, 0, 0]
    case 5 => [0, 0, 0, 0]
    case 6 => [0, 0, 0, 0]
    case 7 => [1, 2, 3, 0]
    case 8 => [0, 2, 1, 3]
    case 9 => [0, 0, 0, 0]
    case 10 => [0, 3, 1, 2]
    case 11 => [0, 3, 2, 1]
    case 12 => [0, 0, 0, 0]
    case 13 => [0, 0, 0, 0]
    case 14 => [0, 0, 0, 0]
    case 15 => [1, 3, 2, 0]
    case 16 => [0, 0, 0, 0]
    case 17 => [0, 0, 0, 0]
    case 18 => [0, 0, 0, 0]
    case 19 => [0, 0, 0, 0]
    case 20 => [0, 0, 0, 0]
    case 21 => [0, 0, 0, 0]
    case 22 => [0, 0, 0, 0]
    case 23 => [0, 0, 0, 0]
    case 24 => [1, 2, 0, 3]
    case 25 => [0, 0, 0, 0]
    case 26 => [1, 3, 0, 2]
    case 27 => [0, 0, 0, 0]
    case 28 => [0, 0, 0, 0]
    case 29 => [0, 0, 0, 0]
    case 30 => [2, 3, 0, 1]
    case 31 => [2, 3, 1, 0]
    case 32 => [1, 0, 2, 3]
    case 33 => [1, 0, 3, 2]
    case 34 => [0, 0, 0, 0]
    case 35 => [0, 0, 0, 0]
    case 36 => [0, 0, 0, 0]
    case 37 => [2, 0, 3, 1]
    case 38 => [0, 0, 0, 0]
    case 39 => [2, 1, 3, 0]
    case 40 => [0, 0, 0, 0]
    case 41 => [0, 0, 0, 0]
    case 42 => [0, 0, 0, 0]
    case 43 => [0, 0, 0, 0]
    case 44 => [0, 0, 0, 0]
    case 45 => [0, 0, 0, 0]
    case 46 => [0, 0, 0, 0]
    case 47 => [0, 0, 0, 0]
    case 48 => [2, 0, 1, 3]
    case 49 => [0, 0, 0, 0]
    case 50 => [0, 0, 0, 0]
    case 51 => [0, 0, 0, 0]
    case 52 => [3, 0, 1, 2]
    case 53 => [3, 0, 2, 1]
    case 54 => [0, 0, 0, 0]
    case 55 => [3, 1, 2, 0]
    case 56 => [2, 1, 0, 3]
    case 57 => [0, 0, 0, 0]
    case 58 => [0, 0, 0, 0]
    case 59 => [0, 0, 0, 0]
    case 60 => [3, 1, 0, 2]
    case 61 => [0, 0, 0, 0]
    case 62 => [3, 2, 0, 1]
    case _ => [3, 2, 1, 0]
  }

  /** Coordinate i outranks coordinate j: it is larger, and on a tie the
      later coordinate wins, because every comparison is a strict `>` with
      the earlier coordinate on the left. */
  predicate Beats(d: seq<real>, i: nat, j: nat)
    requires i < |d| && j < |d|
  {
    if i < j then d[i] > d[j] else d[i] >= d[j]
  }

  /** `c1 | c2 | c3 | c4 | c5 | c6`: the six comparisons as distinct bits, so
      the `|` is a sum. */
  function RankIndex(d: seq<real>): (c: nat)
    requires |d| == 4
    ensures c < 64
  {
    (if d[0] > d[1] then 32 else 0) + (if d[0] > d[2] then 16 else 0)
    + (if d[1] > d[2] then 8 else 0) + (if d[0] > d[3] then 4 else 0)
    + (if d[1] > d[3] then 2 else 0) + (if d[2] > d[3] then 1 else 0)
  }

  /** The number of other coordinates coordinate i outranks. */
  function Rank(d: seq<real>, i: nat): (r: nat)
    requires |d| == 4 && i < 4
    ensures r <= 3
  {
    (if i != 0 && Beats(d, i, 0) then 1 else 0) + (if i != 1 && Beats(d, i, 1) then 1 else 0)
    + (if i != 2 && Beats(d, i, 2) then 1 else 0) + (if i != 3 && Beats(d, i, 3) then 1 else 0)
  }

  function Ranks(d: seq<real>): seq<int>
    requires |d| == 4
  {
    [Rank(d, 0), Rank(d, 1), Rank(d, 2), Rank(d, 3)]
  }

  /** `if SIMPLEX[c][i] >= k { 1 } else { 0 }` for every coordinate i. */
  function Threshold(row: seq<int>, k: int): (o: seq<int>)
    ensures |o| == |row| && Unit(o)
    ensures forall i :: 0 <= i < |row| ==> (o[i] == 1 <==> row[i] >= k)
  {
    seq(|row|, i requires 0 <= i < |row| => if row[i] >= k then 1 else 0)
  }


  /** The comparison index always selects the row holding the rank of each
      coordinate, so only the 24 non-zero rows are ever read. */
  lemma SimplexLookupIsRank(d: seq<real>)
    requires |d| == 4
    ensures SimplexTable(RankIndex(d)) == Ranks(d)
    ensures SimplexTable(RankIndex(d)) != [0, 0, 0, 0]
    ensures IsRankRow(SimplexTable(RankIndex(d)))
  {
    if d[1] >= d[0] {
      if d[2] >= d[1] {
        SimplexLookupIsRank1(d);
      } else {
        if d[2] >= d[0] {
          SimplexLookupIsRank2(d);
        } else {
          SimplexLookupIsRank3(d);
        }
      }
    } else {
      if d[2] >= d[0] {
        SimplexLookupIsRank4(d);
      } else {
        if d[2] >= d[1] {
          SimplexLookupIsRank5(d);
        } else {
          SimplexLookupIsRank6(d);
        }
      }
    }
  }

  /** The rank lookup when the first three coordinates are ordered as
      d[0], d[1], d[2] (lowest first). */
  lemma SimplexLookupIsRank1(d: seq<real>)
    requires |d| == 4 && d[1] >= d[0] && d[2] >= d[1]
    ensures SimplexTable(RankIndex(d)) == Ranks(d)
    ensures SimplexTable(RankIndex(d)) != [0, 0, 0, 0]
    ensures IsRankRow(SimplexTable(RankIndex(d)))
  {
    if d[3] >= d[2] {
      assert RankIndex(d) == 0 && Ranks(d) == [0, 1, 2, 3];
    } else {
      if d[3] >= d[1] {
        assert RankIndex(d) == 1 && Ranks(d) == [0, 1, 3, 2];
      } else {
        if d[3] >= d[0] {
          assert RankIndex(d) == 3 && Ranks(d) == [0, 2, 3, 1];
        } else {
          assert RankIndex(d) == 7 && Ranks(d) == [1, 2, 3, 0];
        }
      }
    }
  }

  /** The rank lookup when the first three coordinates are ordered as
      d[0], d[2], d[1] (lowest first). */
  lemma SimplexLookupIsRank2(d: seq<real>)
    requires |d| == 4 && d[1] >= d[0] && d[2] < d[1] && d[2] >= d[0]
    ensures SimplexTable(RankIndex(d)) == Ranks(d)
    ensures SimplexTable(RankIndex(d)) != [0, 0, 0, 0]
    ensures IsRankRow(SimplexTable(RankIndex(d)))
  {
    if d[3] >= d[1] {
      assert RankIndex(d) == 8 && Ranks(d) == [0, 2, 1, 3];
    } else {
      if d[3] >= d[2] {
        assert RankIndex(d) == 10 && Ranks(d) == [0, 3, 1, 2];
      } else {
        if d[3] >= d[0] {
          assert RankIndex(d) == 11 && Ranks(d) == [0, 3, 2, 1];
        } else {
          assert RankIndex(d) == 15 && Ranks(d) == [1, 3, 2, 0];
        }
      }
    }
  }

  /** The rank lookup when the first three coordinates are ordered as
      d[2], d[0], d[1] (lowest first). */
  lemma SimplexLookupIsRank3(d: seq<real>)
    requires |d| == 4 && d[1] >= d[0] && d[2] < d[1] && d[2] < d[0]
    ensures SimplexTable(RankIndex(d)) == Ranks(d)
    ensures SimplexTable(RankIndex(d)) != [0, 0, 0, 0]
    ensures IsRankRow(SimplexTable(RankIndex(d)))
  {
    if d[3] >= d[1] {
      assert RankIndex(d) == 24 && Ranks(d) == [1, 2, 0, 3];
    } else {
      if d[3] >= d[0] {
        assert RankIndex(d) == 26 && Ranks(d) == [1, 3, 0, 2];
      } else {
        if d[3] >= d[2] {
          assert RankIndex(d) == 30 && Ranks(d) == [2, 3, 0, 1];
        } else {
          assert RankIndex(d) == 31 && Ranks(d) == [2, 3, 1, 0];
        }
      }
    }
  }

  /** The rank lookup when the first three coordinates are ordered as
      d[1], d[0], d[2] (lowest first). */
  lemma SimplexLookupIsRank4(d: seq<real>)
    requires |d| == 4 && d[1] < d[0] && d[2] >= d[0]
    ensures SimplexTable(RankIndex(d)) == Ranks(d)
    ensures SimplexTable(RankIndex(d)) != [0, 0, 0, 0]
    ensures IsRankRow(SimplexTable(RankIndex(d)))
  {
    if d[3] >= d[2] {
      assert RankIndex(d) == 32 && Ranks(d) == [1, 0, 2, 3];
    } else {
      if d[3] >= d[0] {
        assert RankIndex(d) == 33 && Ranks(d) == [1, 0, 3, 2];
      } else {
        if d[3] >= d[1] {
          assert RankIndex(d) == 37 && Ranks(d) == [2, 0, 3, 1];
        } else {
          assert RankIndex(d) == 39 && Ranks(d) == [2, 1, 3, 0];
        }
      }
    }
  }

  /** The rank lookup when the first three coordinates are ordered as
      d[1], d[2], d[0] (lowest first). */
  lemma SimplexLookupIsRank5(d: seq<real>)
    requires |d| == 4 && d[1] < d[0] && d[2] < d[0] && d[2] >= d[1]
    ensures SimplexTable(RankIndex(d)) == Ranks(d)
    ensures SimplexTable(RankIndex(d)) != [0, 0, 0, 0]
    ensures IsRankRow(SimplexTable(RankIndex(d)))
  {
    if d[3] >= d[0] {
      assert RankIndex(d) == 48 && Ranks(d) == [2, 0, 1, 3];
    } else {
      if d[3] >= d[2] {
        assert RankIndex(d) == 52 && Ranks(d) == [3, 0, 1, 2];
      } else {
        if d[3] >= d[1] {
          assert RankIndex(d) == 53 && Ranks(d) == [3, 0, 2, 1];
        } else {
          assert RankIndex(d) == 55 && Ranks(d) == [3, 1, 2, 0];
        }
      }
    }
  }

  /** The rank lookup when the first three coordinates are ordered as
      d[2], d[1], d[0] (lowest first). */
  lemma SimplexLookupIsRank6(d: seq<real>)
    requires |d| == 4 && d[1] < d[0] && d[2] < d[0] && d[2] < d[1]
    ensures SimplexTable(RankIndex(d)) == Ranks(d)
    ensures SimplexTable(RankIndex(d)) != [0, 0, 0, 0]
    ensures IsRankRow(SimplexTable(RankIndex(d)))
  {
    if d[3] >= d[0] {
      assert RankIndex(d) == 56 && Ranks(d) == [2, 1, 0, 3];
    } else {
      if d[3] >= d[1] {
        assert RankIndex(d) == 60 && Ranks(d) == [3, 1, 0, 2];
      } else {
        if d[3] >= d[2] {
          assert RankIndex(d) == 62 && Ranks(d) == [3, 2, 0, 1];
        } else {
          assert RankIndex(d) == 63 && Ranks(d) == [3, 2, 1, 0];
        }
      }
    }
  }

  /** A row of ranks: four distinct values among 0, 1, 2 and 3. */
  predicate IsRankRow(row: seq<int>)
  {
    |row| == 4 && (forall i :: 0 <= i < 4 ==> 0 <= row[i] <= 3)
    && row[0] != row[1] && row[0] != row[2] && row[0] != row[3]
    && row[1] != row[2] && row[1] != row[3] && row[2] != row[3]
  }

  /** In a row of ranks the thresholds 3, 2 and 1 mark one, two and three
      coordinates, each set containing the previous one. */
  lemma RankRowThresholds(row: seq<int>)
    requires IsRankRow(row)
    ensures Ones(Threshold(row, 3)) == 1 && Ones(Threshold(row, 2)) == 2 && Ones(Threshold(row, 1)) == 3
    ensures Below(Threshold(row, 3), Threshold(row, 2)) && Below(Threshold(row, 2), Threshold(row, 1))
  {
    OnesOf4(Threshold(row, 3));
    OnesOf4(Threshold(row, 2));
    OnesOf4(Threshold(row, 1));
  }

  /** A coordinate of rank 3 outranks the other three, so it is a largest. */
  lemma TopRankIsLargest(d: seq<real>)
    requires |d| == 4
    ensures forall i, j :: 0 <= i < 4 && 0 <= j < 4 && Ranks(d)[i] >= 3 ==> d[i] >= d[j]
  {
    forall i, j | 0 <= i < 4 && 0 <= j < 4 && Ranks(d)[i] >= 3
      ensures d[i] >= d[j]
    {
      assert Rank(d, i) == 3;
    }
  }

  /** The offsets `order1`, `order2`, `order3` of the three inner corners:
      unit vectors with one, two and three ones, each containing the
      previous; `order1` marks a largest distance component. */
  function Orders4D(d: seq<real>): (os: seq<seq<int>>)
    requires |d| == 4
    ensures |os| == 3 && forall k :: 0 <= k < 3 ==> |os[k]| == 4 && Unit(os[k]) && Ones(os[k]) == k + 1
    ensures Below(os[0], os[1]) && Below(os[1], os[2])
    ensures forall i, j :: 0 <= i < 4 && 0 <= j < 4 && os[0][i] == 1 ==> d[i] >= d[j]
  {
    SimplexLookupIsRank(d);
    RankRowThresholds(SimplexTable(RankIndex(d)));
    TopRankIsLargest(d);
    var row := SimplexTable(RankIndex(d));
    [Threshold(row, 3), Threshold(row, 2), Threshold(row, 1)]
  }

  /** `skewed.numcast()`: as written, the 4D cell truncates the skewed point
      instead of flooring it. */
  function Cell4DAsWritten(point: seq<real>, root: real): (cell: seq<int>)
    requires |point| == 4 && IsRoot(root, 4)
    ensures |cell| == 4
  {
    NumCast(Skew(point, SkewFactor(4, root)))
  }

  /** Where the skewed point has no negative coordinate, truncation and floor
      agree. */
  lemma Cell4DAgreesWhenNonNegative(point: seq<real>, root: real)
    requires |point| == 4 && IsRoot(root, 4)
    requires forall i :: 0 <= i < 4 ==> Skew(point, SkewFactor(4, root))[i] >= 0.0
    ensures Cell4DAsWritten(point, root) == SimplexCell(point, root)
  {
  }

  /** At (-0.1, -0.1, -0.1, -0.1) the truncated cell is the origin, and the
      skewed point lies below it, outside the unit cell the corners are
      taken from. */
  lemma Cell4DAsWrittenMissesPoint(root: real)
    requires IsRoot(root, 4)
    ensures var p := Broadcast(-0.1, 4);
      Cell4DAsWritten(p, root) == [0, 0, 0, 0] &&
      Skew(SimplexDistance(p, Cell4DAsWritten(p, root), root), SkewFactor(4, root))[0] < 0.0
  {
    var p := Broadcast(-0.1, 4);
    var f := SkewFactor(4, root);
    SumOfBroadcast(-0.1, 4);
    TimesIsProduct(4, -0.1);
    if root >= 3.0 {
      MulNonNegative(root - 3.0, root + 3.0);
      assert false;
    }
    var s := Skew(p, f);
    assert forall i :: 0 <= i < 4 ==> -1.0 < s[i] < 0.0;
    TruncOfSmall(s[0]);
    TruncOfSmall(s[1]);
    TruncOfSmall(s[2]);
    TruncOfSmall(s[3]);
    assert Cell4DAsWritten(p, root) == [0, 0, 0, 0];
    SkewedDistance(p, [0, 0, 0, 0], root);
  }

  /** The distances of the point from the five corners of the simplex at
      `cell`. */
  function Offsets4D(point: seq<real>, cell: seq<int>, root: real): (ds: seq<seq<real>>)
    requires |point| == 4 && |cell| == 4 && IsRoot(root, 4)
    ensures |ds| == 5 && forall k :: 0 <= k < 5 ==> |ds[k]| == 4
  {
    var g := UnskewFactor(4, root);
    var d := SimplexDistance(point, cell, root);
    var os := Orders4D(d);
    [d, Add(Sub(d, ToReal(os[0])), Broadcast(g, 4)), Add(Sub(d, ToReal(os[1])), Broadcast(2.0 * g, 4)),
     Add(Sub(d, ToReal(os[2])), Broadcast(3.0 * g, 4)), Add(Sub(d, Broadcast(1.0, 4)), Broadcast(4.0 * g, 4))]
  }

  /** The lattice points `simplex_4d` hashes, as written: the fourth corner is
      hashed at `cell + order2`, repeating the third. */
  function Corners4DAsWritten(point: seq<real>, root: real): (cs: seq<seq<int>>)
    requires |point| == 4 && IsRoot(root, 4)
    ensures |cs| == 5 && forall k :: 0 <= k < 5 ==> |cs[k]| == 4
    ensures cs[3] == cs[2]
  {
    var cell := Cell4DAsWritten(point, root);
    var os := Orders4D(SimplexDistance(point, cell, root));
    [cell, Step(cell, os[0]), Step(cell, os[1]), Step(cell, os[1]), Step(cell, [1, 1, 1, 1])]
  }

  /** The five corners of the enclosing simplex: the floored cell, then one
      more unit step for each of `order1`, `order2`, `order3` and (1,1,1,1). */
  function Corners4D(point: seq<real>, root: real): (cs: seq<seq<int>>)
    requires |point| == 4 && IsRoot(root, 4)
    ensures |cs| == 5 && forall k :: 0 <= k < 5 ==> |cs[k]| == 4
    ensures cs[0] == SimplexCell(point, root)
  {
    var cell := SimplexCell(point, root);
    var os := Orders4D(SimplexDistance(point, cell, root));
    [cell, Step(cell, os[0]), Step(cell, os[1]), Step(cell, os[2]), Step(cell, [1, 1, 1, 1])]
  }

  /** The coordinate sum of a 4D lattice point. */
  function Total4(c: seq<int>): int
    requires |c| == 4
  {
    c[0] + c[1] + c[2] + c[3]
  }

  /** A unit step adds the number of its ones to the coordinate sum. */
  lemma StepSum4(cell: seq<int>, o: seq<int>)
    requires |cell| == 4 && |o| == 4 && Unit(o)
    ensures Total4(Step(cell, o)) == Total4(cell) + Ones(o)
  {
    OnesOf4(o);
  }

  /** Stepping from the same cell keeps the order of the offsets. */
  lemma StepKeepsBelow(cell: seq<int>, a: seq<int>, b: seq<int>)
    requires |cell| == |a| && Below(a, b)
    ensures Below(Step(cell, a), Step(cell, b))
  {
  }

  /** A unit step never moves down. */
  lemma StepAbove(cell: seq<int>, o: seq<int>)
    requires |cell| == |o| && Unit(o)
    ensures Below(cell, Step(cell, o))
  {
  }

  /** The corrected corners are five lattice points, each one unit step
      after the previous. */
  lemma Corners4DPath(point: seq<real>, root: real)
    requires |point| == 4 && IsRoot(root, 4)
    ensures var cs := Corners4D(point, root);
      forall k :: 0 <= k < 4 ==> Below(cs[k], cs[k + 1])
  {
    var cs := Corners4D(point, root);
    var cell := cs[0];
    var os := Orders4D(SimplexDistance(point, cell, root));
    var all := [1, 1, 1, 1];
    assert Below(os[2], all);
    StepAbove(cell, os[0]);
    StepKeepsBelow(cell, os[0], os[1]);
    StepKeepsBelow(cell, os[1], os[2]);
    StepKeepsBelow(cell, os[2], all);
  }

  /** The corrected corners are five distinct lattice points: corner k has
      coordinate sum k above the cell's. */
  lemma Corners4DDistinct(point: seq<real>, root: real)
    requires |point| == 4 && IsRoot(root, 4)
    ensures var cs := Corners4D(point, root);
      forall k, m :: 0 <= k < m < 5 ==> cs[k] != cs[m]
  {
    var cs := Corners4D(point, root);
    var cell := cs[0];
    var os := Orders4D(SimplexDistance(point, cell, root));
    var all := [1, 1, 1, 1];
    StepSum4(cell, os[0]);
    StepSum4(cell, os[1]);
    StepSum4(cell, os[2]);
    StepSum4(cell, all);
    OnesOf4(all);
    assert forall k :: 0 <= k < 5 ==> Total4(cs[k]) == Total4(cell) + k;
  }

  /** The sum of the five corner surflets, scaled by 27. */
  function Noise4D(t: PermutationTable, cs: seq<seq<int>>, ds: seq<seq<real>>): real
    requires t.Valid() && |cs| == 5 && |ds| == 5
    requires forall k :: 0 <= k < 5 ==> |cs[k]| == 4 && |ds[k]| == 4
  {
    27.0 * (Surflet(Grad4(Hash(t, cs[0])).value, ds[0], 0.6)
          + Surflet(Grad4(Hash(t, cs[1])).value, ds[1], 0.6)
          + Surflet(Grad4(Hash(t, cs[2])).value, ds[2], 0.6)
          + Surflet(Grad4(Hash(t, cs[3])).value, ds[3], 0.6)
          + Surflet(Grad4(Hash(t, cs[4])).value, ds[4], 0.6))
  }

  /** `simplex_4d` as written (noise value only). */
  function Simplex4DAsWritten(t: PermutationTable, point: seq<real>, root: real): real
    requires t.Valid() && |point| == 4 && IsRoot(root, 4)
  {
    Noise4D(t, Corners4DAsWritten(point, root), Offsets4D(point, Cell4DAsWritten(point, root), root))
  }

  /** `simplex_4d` with the floored cell and the fourth corner at
      `cell + order3`. */
  function Simplex4D(t: PermutationTable, point: seq<real>, root: real): real
    requires t.Valid() && |point| == 4 && IsRoot(root, 4)
  {
    Noise4D(t, Corners4D(point, root), Offsets4D(point, SimplexCell(point, root), root))
  }
}
