/** Worley (cell) noise: every integer cell holds one feature point, the
    cell corner moved by a hashed offset of length at most 0.5. The search
    starts at the cell nearest the point and tests the cells across each
    face, edge and corner only while the distance to that boundary can still
    beat the best distance found. */
module Worley {
  import opened Wrappers
  import opened Numeric
  import opened Vectors
  import opened PermTable
  import opened Gradient

  /** What the noise returns: the distance to the nearest feature point, or
      a value hashed from the cell that holds it. */
  datatype ReturnType = Distance | Value

  // ---------------------------------------------------------------- distance functions

  /** `p1.iter().zip(p2).map(|(a, b)| a - b)`: the zip stops at the shorter
      point. */
  function Differences(p1: seq<real>, p2: seq<real>): (d: seq<real>)
    ensures |d| == if |p1| < |p2| then |p1| else |p2|
    ensures forall i :: 0 <= i < |d| ==> d[i] == p1[i] - p2[i]
  {
    var n := if |p1| < |p2| then |p1| else |p2|;
    seq(n, i requires 0 <= i < n => p1[i] - p2[i])
  }

  /** `map(|a| a.abs())`. */
  function Magnitudes(d: seq<real>): (m: seq<real>)
    ensures |m| == |d|
    ensures forall i :: 0 <= i < |d| ==> m[i] == Abs(d[i])
  {
    seq(|d|, i requires 0 <= i < |d| => Abs(d[i]))
  }

  /** A fold from 0.0 with `+` over terms that are never negative is never
      negative, and is zero exactly when every term is. */
  lemma {:induction false} SumOfNonNegative(v: seq<real>)
    requires forall i :: 0 <= i < |v| ==> v[i] >= 0.0
    ensures SumOf(v) >= 0.0
    ensures SumOf(v) == 0.0 <==> forall i :: 0 <= i < |v| ==> v[i] == 0.0
  {
    if |v| > 0 {
      var n := |v| - 1;
      SumOfNonNegative(v[..n]);
      assert forall i :: 0 <= i < n ==> v[..n][i] == v[i];
    }
  }

  lemma SquareIsNonNegative(x: real)
    ensures x * x >= 0.0
  {
    if x < 0.0 {
      assert x * x == (-x) * (-x);
    }
  }

  /** `euclidean_squared`: the sum of the squared differences. */
  function EuclideanSquared(p1: seq<real>, p2: seq<real>): (r: real)
  {
    var d := Differences(p1, p2);
    SumOf(Mul(d, d))
  }

  /** `euclidean_squared` is never negative, and it is zero from a point to
      itself. */
  lemma EuclideanSquaredIsNonNegative(p1: seq<real>, p2: seq<real>)
    ensures EuclideanSquared(p1, p2) >= 0.0
    ensures p1 == p2 ==> EuclideanSquared(p1, p2) == 0.0
  {
    var d := Differences(p1, p2);
    var sq := Mul(d, d);
    forall i | 0 <= i < |sq|
      ensures sq[i] >= 0.0 && (d[i] == 0.0 ==> sq[i] == 0.0)
    {
      SquareIsNonNegative(d[i]);
    }
    SumOfNonNegative(sq);
  }

  /** `manhattan`: the sum of the absolute differences. */
  function Manhattan(p1: seq<real>, p2: seq<real>): (r: real)
  {
    SumOf(Magnitudes(Differences(p1, p2)))
  }

  /** `manhattan` is never negative, and for points of the same dimension it
      is zero exactly when the points are equal. */
  lemma ManhattanIsZeroIff(p1: seq<real>, p2: seq<real>)
    ensures Manhattan(p1, p2) >= 0.0
    ensures |p1| == |p2| ==> (Manhattan(p1, p2) == 0.0 <==> p1 == p2)
  {
    var m := Magnitudes(Differences(p1, p2));
    SumOfNonNegative(m);
    if |p1| == |p2| && Manhattan(p1, p2) == 0.0 {
      assert forall i :: 0 <= i < |p1| ==> p1[i] == p2[i] by {
        forall i | 0 <= i < |p1|
          ensures p1[i] == p2[i]
        {
          assert m[i] == 0.0;
        }
      }
    }
  }

  /** `f64::MIN`, the start of the `chebyshev` fold. */
  const F64_MIN: real := -F64_MAX

  /** `fold(init, |a, b| a.max(b))`. */
  function MaxFrom(init: real, v: seq<real>): real
  {
    if |v| == 0 then init else Max(MaxFrom(init, v[..|v| - 1]), v[|v| - 1])
  }

  /** `chebyshev`: the largest absolute difference; `f64::MIN` for points
      without components. */
  function Chebyshev(p1: seq<real>, p2: seq<real>): (r: real)
  {
    MaxFrom(F64_MIN, Magnitudes(Differences(p1, p2)))
  }

  /** A max-fold is at least its start and every element, and is its start or
      one of the elements. */
  lemma {:induction false} MaxFromBounds(init: real, v: seq<real>)
    ensures MaxFrom(init, v) >= init
    ensures forall i :: 0 <= i < |v| ==> MaxFrom(init, v) >= v[i]
    ensures MaxFrom(init, v) == init || exists i :: 0 <= i < |v| && MaxFrom(init, v) == v[i]
  {
    if |v| > 0 {
      var n := |v| - 1;
      MaxFromBounds(init, v[..n]);
      assert forall i :: 0 <= i < n ==> v[..n][i] == v[i];
      if MaxFrom(init, v[..n]) != init {
        var i :| 0 <= i < n && MaxFrom(init, v[..n]) == v[..n][i];
        assert v[..n][i] == v[i];
      }
    }
  }

  /** `chebyshev` is the largest absolute difference of the two points: no
      smaller than any, and equal to one of them whenever there is a
      component (the distances are far above `f64::MIN`). */
  lemma ChebyshevIsLargestDifference(p1: seq<real>, p2: seq<real>)
    ensures var d := Differences(p1, p2);
      (forall i :: 0 <= i < |d| ==> Chebyshev(p1, p2) >= Abs(d[i]))
      && (|d| > 0 ==> exists i :: 0 <= i < |d| && Chebyshev(p1, p2) == Abs(d[i]))
      && (|d| == 0 ==> Chebyshev(p1, p2) == F64_MIN)
  {
    var m := Magnitudes(Differences(p1, p2));
    MaxFromBounds(F64_MIN, m);
    if |m| > 0 {
      assert Chebyshev(p1, p2) >= m[0] >= 0.0 > F64_MIN;
    }
  }

  /** Reference value of `quadratic`: the square of the summed differences. */
  function QuadraticOf(p1: seq<real>, p2: seq<real>): real
  {
    SumOf(Differences(p1, p2)) * SumOf(Differences(p1, p2))
  }

  /** The terms `a * v[k]` for `k < j`, added up in order. */
  function RowSum(a: real, v: seq<real>, j: nat): real
    requires j <= |v|
  {
    if j == 0 then 0.0 else RowSum(a, v, j - 1) + a * v[j - 1]
  }

  /** The rows of the first `i` differences, added up in order. */
  function RowsSum(v: seq<real>, i: nat): real
    requires i <= |v|
  {
    if i == 0 then 0.0 else RowsSum(v, i - 1) + RowSum(v[i - 1], v, |v|)
  }

  /** A row is its factor times the prefix sum. */
  lemma {:induction false} RowSumIsProduct(a: real, v: seq<real>, j: nat)
    requires j <= |v|
    ensures RowSum(a, v, j) == a * SumOf(v[..j])
  {
    if j > 0 {
      RowSumIsProduct(a, v, j - 1);
      assert v[..j][..j - 1] == v[..j - 1];
      assert a * (SumOf(v[..j - 1]) + v[j - 1]) == a * SumOf(v[..j - 1]) + a * v[j - 1];
    }
  }

  /** The first `i` rows add up to the prefix sum times the whole sum. */
  lemma {:induction false} RowsSumIsProduct(v: seq<real>, i: nat)
    requires i <= |v|
    ensures RowsSum(v, i) == SumOf(v[..i]) * SumOf(v)
  {
    if i > 0 {
      RowsSumIsProduct(v, i - 1);
      RowSumIsProduct(v[i - 1], v, |v|);
      assert v[..|v|] == v;
      assert v[..i][..i - 1] == v[..i - 1];
      assert (SumOf(v[..i - 1]) + v[i - 1]) * SumOf(v) == SumOf(v[..i - 1]) * SumOf(v) + v[i - 1] * SumOf(v);
    }
  }

  /** `quadratic`: every ordered pair of differences multiplied and added. */
  method Quadratic(p1: seq<real>, p2: seq<real>) returns (result: real)
    ensures result == QuadraticOf(p1, p2)
  {
    var temp := Differences(p1, p2);
    result := 0.0;
    for i := 0 to |temp|
      invariant result == RowsSum(temp, i)
    {
      ghost var before := result;
      for j := 0 to |temp|
        invariant result == before + RowSum(temp[i], temp, j)
      {
        result := result + temp[i] * temp[j];
      }
    }
    RowsSumIsProduct(temp, |temp|);
    assert temp[..|temp|] == temp;
  }

  /** `quadratic` is never negative, but it is no distance: two different
      points whose differences cancel are at quadratic distance zero. */
  lemma QuadraticVanishesOffDiagonal()
    ensures forall p1, p2 :: QuadraticOf(p1, p2) >= 0.0
    ensures [1.0, 0.0] != [0.0, 1.0] && QuadraticOf([1.0, 0.0], [0.0, 1.0]) == 0.0
  {
    forall p1, p2
      ensures QuadraticOf(p1, p2) >= 0.0
    {
      var s := SumOf(Differences(p1, p2));
      MulNonNegative(Abs(s), Abs(s));
      assert s * s == Abs(s) * Abs(s);
    }
    var d := Differences([1.0, 0.0], [0.0, 1.0]);
    assert d == [1.0, -1.0];
    assert d[..1][..0] == [];
    assert SumOf(d) == SumOf(d[..1]) + d[1];
  }

  // ---------------------------------------------------------------- feature points

  /** `get_vec2`: `(index & 0xF8) >> 3` picks one of 32 lengths in
      [0, 0.5], `index & 0x07` one of eight directions. The catch-all arm
      panics and is modelled as `None`. */
  function GetVec2(index: nat): (r: Option<seq<real>>)
    ensures r.Some? && |r.value| == 2
  {
    Direction2(index % 8, ((index / 8) % 32) as real * 0.5 / 31.0, DIAG)
  }

  /** The arms of `get_vec3` for direction `k`: twelve cube edges at
      `length * c` per axis, then the six axes at `length`. */
  function Direction3(k: nat, length: real, c: real): (r: Option<seq<real>>)
    ensures k < 18 <==> r.Some?
    ensures r.Some? ==> |r.value| == 3
  {
    var diag := length * c;
    if k == 0 then Some([diag, diag, 0.0])
    else if k == 1 then Some([diag, -diag, 0.0])
    else if k == 2 then Some([-diag, diag, 0.0])
    else if k == 3 then Some([-diag, -diag, 0.0])
    else if k == 4 then Some([diag, 0.0, diag])
    else if k == 5 then Some([diag, 0.0, -diag])
    else if k == 6 then Some([-diag, 0.0, diag])
    else if k == 7 then Some([-diag, 0.0, -diag])
    else if k == 8 then Some([0.0, diag, diag])
    else if k == 9 then Some([0.0, diag, -diag])
    else if k == 10 then Some([0.0, -diag, diag])
    else if k == 11 then Some([0.0, -diag, -diag])
    else if k == 12 then Some([length, 0.0, 0.0])
    else if k == 13 then Some([0.0, length, 0.0])
    else if k == 14 then Some([0.0, 0.0, length])
    else if k == 15 then Some([-length, 0.0, 0.0])
    else if k == 16 then Some([0.0, -length, 0.0])
    else if k == 17 then Some([0.0, 0.0, -length])
    else None
  }

  /** An edge direction is at most `2 (length c)²` long squared, an axis
      direction at most `length²`. */
  lemma Direction3Short(k: nat, length: real, c: real)
    requires k < 18
    ensures k < 12 ==> MagnitudeSquared(Direction3(k, length, c).value) <= 2.0 * ((length * c) * (length * c))
    ensures k >= 12 ==> MagnitudeSquared(Direction3(k, length, c).value) <= length * length
  {
    var v := Direction3(k, length, c).value;
    if k < 12 {
      EdgeComponents(v, length * c);
    } else {
      AxisComponents(v, length);
    }
  }

  /** The arms of `get_vec4` for direction `k`: three components of `d` with
      all eight sign patterns, the zero on w, z, y and then x. */
  function Direction4(k: nat, d: real): (r: Option<seq<real>>)
    ensures k < 32 <==> r.Some?
    ensures r.Some? ==> |r.value| == 4
  {
    if k == 0 then Some([d, d, d, 0.0])
    else if k == 1 then Some([d, -d, d, 0.0])
    else if k == 2 then Some([-d, d, d, 0.0])
    else if k == 3 then Some([-d, -d, d, 0.0])
    else if k == 4 then Some([d, d, -d, 0.0])
    else if k == 5 then Some([d, -d, -d, 0.0])
    else if k == 6 then Some([-d, d, -d, 0.0])
    else if k == 7 then Some([-d, -d, -d, 0.0])
    else if k == 8 then Some([d, d, 0.0, d])
    else if k == 9 then Some([d, -d, 0.0, d])
    else if k == 10 then Some([-d, d, 0.0, d])
    else if k == 11 then Some([-d, -d, 0.0, d])
    else if k == 12 then Some([d, d, 0.0, -d])
    else if k == 13 then Some([d, -d, 0.0, -d])
    else if k == 14 then Some([-d, d, 0.0, -d])
    else if k == 15 then Some([-d, -d, 0.0, -d])
    else if k == 16 then Some([d, 0.0, d, d])
    else if k == 17 then Some([d, 0.0, -d, d])
    else if k == 18 then Some([-d, 0.0, d, d])
    else if k == 19 then Some([-d, 0.0, -d, d])
    else if k == 20 then Some([d, 0.0, d, -d])
    else if k == 21 then Some([d, 0.0, -d, -d])
    else if k == 22 then Some([-d, 0.0, d, -d])
    else if k == 23 then Some([-d, 0.0, -d, -d])
    else if k == 24 then Some([0.0, d, d, d])
    else if k == 25 then Some([0.0, d, -d, d])
    else if k == 26 then Some([0.0, -d, d, d])
    else if k == 27 then Some([0.0, -d, -d, d])
    else if k == 28 then Some([0.0, d, d, -d])
    else if k == 29 then Some([0.0, d, -d, -d])
    else if k == 30 then Some([0.0, -d, d, -d])
    else if k == 31 then Some([0.0, -d, -d, -d])
    else None
  }

  /** Direction `k` is zero on axis `3 - k / 8` and `±d` on the others. */
  lemma Direction4Shape(k: nat, d: real)
    requires k < 32
    ensures var v := Direction4(k, d).value;
      forall i :: 0 <= i < 4 ==> if i == 3 - k / 8 then v[i] == 0.0 else v[i] == d || v[i] == -d
  {
  }

  /** Every 4D direction is `3 d²` long squared. */
  lemma Direction4Short(k: nat, d: real)
    requires k < 32
    ensures MagnitudeSquared(Direction4(k, d).value) == 3.0 * (d * d)
  {
    Direction4Shape(k, d);
    ThreeDiagonalComponents(Direction4(k, d).value, d, 3 - k / 8);
  }

  /** The arms of `get_vec2` for direction `k`: the four diagonals at
      `length * c` per axis, then the four axes at `length`. */
  function Direction2(k: nat, length: real, c: real): (r: Option<seq<real>>)
    ensures k < 8 <==> r.Some?
    ensures r.Some? ==> |r.value| == 2
  {
    var diag := length * c;
    if k == 0 then Some([diag, diag])
    else if k == 1 then Some([diag, -diag])
    else if k == 2 then Some([-diag, diag])
    else if k == 3 then Some([-diag, -diag])
    else if k == 4 then Some([length, 0.0])
    else if k == 5 then Some([-length, 0.0])
    else if k == 6 then Some([0.0, length])
    else if k == 7 then Some([0.0, -length])
    else None
  }

  /** A diagonal direction is at most `c² / 2` long squared, an axis
      direction at most `length²`. */
  lemma Direction2Short(k: nat, length: real, c: real)
    requires k < 8 && 0.0 <= length <= 0.5
    ensures k < 4 ==> MagnitudeSquared(Direction2(k, length, c).value) <= 0.5 * (c * c)
    ensures k >= 4 ==> MagnitudeSquared(Direction2(k, length, c).value) <= length * length
  {
    var v := Direction2(k, length, c).value;
    if k < 4 {
      DiagonalComponents(v, length, c);
    } else {
      PlaneComponents(v, length);
    }
  }

  /** `get_vec3`: `(index & 0xE0) >> 5` picks one of 8 lengths in [0, 0.5],
      `index % 18` one of twelve edge and six axis directions. */
  function GetVec3(index: nat): (r: Option<seq<real>>)
    ensures r.Some? && |r.value| == 3
  {
    Direction3(index % 18, ((index / 32) % 8) as real * 0.5 / 7.0, DIAG)
  }

  /** `get_vec4`: `(index & 0xE0) >> 5` picks one of 8 lengths in [0, 0.5],
      `index % 32` one of 32 directions with three non-zero components. */
  function GetVec4(index: nat): (r: Option<seq<real>>)
    ensures r.Some? && |r.value| == 4
  {
    Direction4(index % 32, ((index / 32) % 8) as real * 0.5 / 7.0 * DIAG3)
  }

  /** The squared length of every offset is at most 0.5², up to the rounding
      of the diagonal constants (`FRAC_1_SQRT_2`² is a little above 1/2). */
  const MAX_OFFSET_SQUARED: real := 0.2500000000000001

  lemma LengthBound(k: nat, steps: real)
    requires 1.0 <= steps && k as real <= steps
    ensures var length := k as real * 0.5 / steps;
      0.0 <= length <= 0.5 && length * length <= 0.25
  {
    var length := k as real * 0.5 / steps;
    assert length <= 0.5 by {
      assert k as real * 0.5 <= steps * 0.5;
    }
    MulNonNegative(length, 0.5 - length);
  }

  lemma GetVec2Short(index: nat)
    ensures MagnitudeSquared(GetVec2(index).value) <= MAX_OFFSET_SQUARED
  {
    var length := ((index / 8) % 32) as real * 0.5 / 31.0;
    LengthBound((index / 8) % 32, 31.0);
    Direction2Short(index % 8, length, DIAG);
  }

  lemma GetVec3Short(index: nat)
    ensures MagnitudeSquared(GetVec3(index).value) <= MAX_OFFSET_SQUARED
  {
    var length := ((index / 32) % 8) as real * 0.5 / 7.0;
    LengthBound((index / 32) % 8, 7.0);
    Direction3Short(index % 18, length, DIAG);
    var diag := length * DIAG;
    assert diag * diag == (length * length) * (DIAG * DIAG);
    MulNonNegative(0.25 - length * length, 2.0 * (DIAG * DIAG));
  }

  lemma GetVec4Short(index: nat)
    ensures MagnitudeSquared(GetVec4(index).value) <= MAX_OFFSET_SQUARED
  {
    var length := ((index / 32) % 8) as real * 0.5 / 7.0;
    LengthBound((index / 32) % 8, 7.0);
    DiagonalShort(length);
    Direction4Short(index % 32, length * DIAG3);
  }

  /** Three components of `length · DIAG3` with `length ≤ 0.5` stay within
      the offset bound. */
  lemma DiagonalShort(length: real)
    requires 0.0 <= length && length * length <= 0.25
    ensures 3.0 * ((length * DIAG3) * (length * DIAG3)) <= MAX_OFFSET_SQUARED
  {
    var sq := length * length;
    assert DIAG3 * DIAG3 == 0.33333333333333337431463834402564;
    assert (length * DIAG3) * (length * DIAG3) == sq * 0.33333333333333337431463834402564;
  }

  /** A 2D offset of length `length` along a diagonal scaled by `c`: with
      `length` at most 0.5 it is at most `c² / 2` long squared. */
  lemma DiagonalComponents(v: seq<real>, length: real, c: real)
    requires |v| == 2 && 0.0 <= length <= 0.5
    requires forall i :: 0 <= i < 2 ==> v[i] == length * c || v[i] == -(length * c)
    ensures MagnitudeSquared(v) <= 0.5 * (c * c)
  {
    var diag := length * c;
    PlaneComponents(v, diag);
    assert diag * diag == (length * length) * (c * c);
    MulNonNegative(length, 0.5 - length);
    MulNonNegative(0.25 - length * length, c * c);
  }

  /** A 2D offset whose components are each 0 or ±a is at most 2a² long
      squared, and at most a² when one component is 0. */
  lemma PlaneComponents(v: seq<real>, a: real)
    requires |v| == 2
    requires forall i :: 0 <= i < 2 ==> v[i] == 0.0 || v[i] == a || v[i] == -a
    ensures MagnitudeSquared(v) <= 2.0 * (a * a)
    ensures v[0] == 0.0 || v[1] == 0.0 ==> MagnitudeSquared(v) <= a * a
  {
    forall i | 0 <= i < 2
      ensures v[i] * v[i] == 0.0 || v[i] * v[i] == a * a
    {
      if v[i] == -a {
        assert v[i] * v[i] == (-a) * (-a);
      }
    }
    SquareIsNonNegative(a);
    MagnitudeSquaredUnrolled(v);
  }

  /** Three components, each zero or of magnitude `a`, at least one of
      them zero: the squared length is at most `2a²`. */
  lemma EdgeComponents(v: seq<real>, a: real)
    requires |v| == 3
    requires forall i :: 0 <= i < 3 ==> v[i] == 0.0 || v[i] == a || v[i] == -a
    requires v[0] == 0.0 || v[1] == 0.0 || v[2] == 0.0
    ensures MagnitudeSquared(v) <= 2.0 * (a * a)
  {
    forall i | 0 <= i < 3
      ensures v[i] * v[i] == 0.0 || v[i] * v[i] == a * a
    {
      if v[i] == -a {
        assert v[i] * v[i] == (-a) * (-a);
      }
    }
    SquareIsNonNegative(a);
    MagnitudeSquaredUnrolled(v);
  }

  /** Three components, each zero or of magnitude `a`, at most one of them
      nonzero: the squared length is at most `a²`. */
  lemma AxisComponents(v: seq<real>, a: real)
    requires |v| == 3
    requires forall i :: 0 <= i < 3 ==> v[i] == 0.0 || v[i] == a || v[i] == -a
    requires (v[0] == 0.0 && v[1] == 0.0) || (v[0] == 0.0 && v[2] == 0.0) || (v[1] == 0.0 && v[2] == 0.0)
    ensures MagnitudeSquared(v) <= a * a
  {
    forall i | 0 <= i < 3
      ensures v[i] * v[i] == 0.0 || v[i] * v[i] == a * a
    {
      if v[i] == -a {
        assert v[i] * v[i] == (-a) * (-a);
      }
    }
    SquareIsNonNegative(a);
    MagnitudeSquaredUnrolled(v);
  }

  lemma ThreeDiagonalComponents(v: seq<real>, d: real, zero: int)
    requires |v| == 4 && 0 <= zero < 4
    requires forall i :: 0 <= i < 4 ==> if i == zero then v[i] == 0.0 else v[i] == d || v[i] == -d
    ensures MagnitudeSquared(v) == 3.0 * (d * d)
  {
    forall i | 0 <= i < 4 && i != zero
      ensures v[i] * v[i] == d * d
    {
      if v[i] == -d {
        assert v[i] * v[i] == (-d) * (-d);
      }
    }
    MagnitudeSquaredUnrolled(v);
  }

  /** `get_vec2`, `get_vec3` or `get_vec4`, by the dimension. */
  function GetVec(index: nat, n: nat): (v: seq<real>)
    requires 2 <= n <= 4
    ensures |v| == n
  {
    if n == 2 then GetVec2(index).value else if n == 3 then GetVec3(index).value else GetVec4(index).value
  }

  /** `get_point(hasher.hash(cell), cell)`: the feature point of a cell. */
  function FeaturePoint(t: PermutationTable, cell: seq<int>): (p: seq<real>)
    requires t.Valid() && 2 <= |cell| <= 4
    ensures |p| == |cell|
  {
    Add(GetVec(Hash(t, cell), |cell|), ToReal(cell))
  }

  /** The feature point of a cell lies within 0.5 (up to rounding) of the
      cell's corner. */
  lemma FeaturePointNearCorner(t: PermutationTable, cell: seq<int>)
    requires t.Valid() && 2 <= |cell| <= 4
    ensures EuclideanSquared(FeaturePoint(t, cell), ToReal(cell)) <= MAX_OFFSET_SQUARED
  {
    var h := Hash(t, cell);
    OffsetDistance(GetVec(h, |cell|), ToReal(cell));
    if |cell| == 2 {
      GetVec2Short(h);
    } else if |cell| == 3 {
      GetVec3Short(h);
    } else {
      GetVec4Short(h);
    }
  }

  /** A point moved by `v` is at squared euclidean distance `|v|²` from
      where it started. */
  lemma OffsetDistance(v: seq<real>, c: seq<real>)
    requires |v| == |c|
    ensures EuclideanSquared(Add(v, c), c) == MagnitudeSquared(v)
  {
    var d := Differences(Add(v, c), c);
    assert d == v;
    DotIsSumOfProducts(v, v);
  }

  lemma {:induction false} DotIsSumOfProducts(a: seq<real>, b: seq<real>)
    requires |a| == |b|
    ensures DotOf(a, b) == SumOf(Mul(a, b))
  {
    if |a| > 0 {
      var n := |a| - 1;
      DotIsSumOfProducts(a[..n], b[..n]);
      assert forall i :: 0 <= i < n ==> Mul(a, b)[..n][i] == Mul(a[..n], b[..n])[i];
      assert Mul(a, b)[..n] == Mul(a[..n], b[..n]);
    }
  }

  // ---------------------------------------------------------------- search

  /** The cell corner `whole = floor(point)` and `frac = point - whole`. */
  function Whole(point: seq<real>): (w: seq<int>)
    ensures |w| == |point|
  {
    Floor(point)
  }

  function Frac(point: seq<real>): (f: seq<real>)
    ensures |f| == |point|
    ensures forall i :: 0 <= i < |point| ==> 0.0 <= f[i] < 1.0
  {
    Sub(point, ToReal(Whole(point)))
  }

  /** `near = whole + (frac > 0.5)` and `far = whole + !(frac > 0.5)`. */
  function Near(point: seq<real>): (c: seq<int>)
    ensures |c| == |point|
  {
    var w := Whole(point);
    var f := Frac(point);
    seq(|point|, i requires 0 <= i < |point| => w[i] + if f[i] > 0.5 then 1 else 0)
  }

  function Far(point: seq<real>): (c: seq<int>)
    ensures |c| == |point|
  {
    var w := Whole(point);
    var f := Frac(point);
    seq(|point|, i requires 0 <= i < |point| => w[i] + if f[i] > 0.5 then 0 else 1)
  }

  /** `near` is the integer nearest the point on every axis (ties at 0.5 go
      down), and `far` is the neighbour on the other side, one step away. */
  lemma NearAndFar(point: seq<real>)
    ensures forall i :: 0 <= i < |point| ==>
      -0.5 <= point[i] - Near(point)[i] as real <= 0.5
      && (Far(point)[i] - Near(point)[i] == 1 || Far(point)[i] - Near(point)[i] == -1)
      && (Far(point)[i] - Near(point)[i] == 1 <==> point[i] - Near(point)[i] as real >= 0.0)
  {
  }

  /** `range = (0.5 - frac)²`, the squared distance to the boundary between
      the near and far cell on each axis. */
  function Range(point: seq<real>): (r: seq<real>)
    ensures |r| == |point|
  {
    var f := Frac(point);
    seq(|point|, i requires 0 <= i < |point| => (0.5 - f[i]) * (0.5 - f[i]))
  }

  /** Each cell the search visits takes, on every axis, the near or the far
      coordinate. */
  predicate Between(cell: seq<int>, near: seq<int>, far: seq<int>)
  {
    |cell| == |near| == |far| && forall i :: 0 <= i < |cell| ==> cell[i] == near[i] || cell[i] == far[i]
  }

  /** The state of the search: `cell` takes the near or far coordinate on
      every axis, `best` is the distance to its feature point, and `best` is
      no worse than `first`, the distance the search started from. */
  ghost predicate Best(t: PermutationTable, dist: (seq<real>, seq<real>) -> real, point: seq<real>,
                       near: seq<int>, far: seq<int>, first: real, best: real, cell: seq<int>)
    requires t.Valid()
  {
    Between(cell, near, far) && 2 <= |cell| <= 4
    && best == dist(point, FeaturePoint(t, cell)) && best <= first
  }

  /** `test_point!`: the candidate replaces the best so far only when it is
      strictly nearer, so the distance never grows and ties keep the cell
      found first. */
  method TestPoint(t: PermutationTable, dist: (seq<real>, seq<real>) -> real, point: seq<real>,
                   ghost near: seq<int>, ghost far: seq<int>, ghost first: real,
                   testPoint: seq<int>, distance: real, seedCell: seq<int>)
    returns (newDistance: real, newSeedCell: seq<int>)
    requires t.Valid() && 2 <= |testPoint| <= 4
    requires Best(t, dist, point, near, far, first, distance, seedCell) && Between(testPoint, near, far)
    ensures Best(t, dist, point, near, far, first, newDistance, newSeedCell)
    ensures newDistance <= distance && newDistance <= dist(point, FeaturePoint(t, testPoint))
    ensures newDistance < distance ==> newSeedCell == testPoint
    ensures newDistance == distance ==> newSeedCell == seedCell
  {
    newDistance, newSeedCell := distance, seedCell;
    var index := Hash(t, testPoint);
    var offset := Add(GetVec(index, |testPoint|), ToReal(testPoint));
    var curDistance := dist(point, offset);
    if curDistance < newDistance {
      newDistance := curDistance;
      newSeedCell := testPoint;
    }
  }

  /** The guard of each `test_point!`: every axis in `axes` has its squared
      distance to the boundary below `best`. */
  predicate AllBelow(range: seq<real>, axes: seq<bool>, best: real)
    requires |axes| == |range|
  {
    forall i :: 0 <= i < |axes| && axes[i] ==> range[i] < best
  }

  /** The cell a `test_point!` names: the far coordinate on the axes in
      `axes`, the near one on the others. */
  function FarOn(axes: seq<bool>, near: seq<int>, far: seq<int>): (c: seq<int>)
    requires |axes| == |near| == |far|
    ensures Between(c, near, far)
    ensures forall i :: 0 <= i < |c| ==> c[i] == if axes[i] then far[i] else near[i]
  {
    seq(|axes|, i requires 0 <= i < |axes| => if axes[i] then far[i] else near[i])
  }

  /** How many `test_point!` blocks the search in `n` dimensions has: one
      per nonempty set of axes. */
  function FarTestCount(n: nat): nat
    requires 2 <= n <= 4
  {
    if n == 2 then 3 else if n == 3 then 7 else 15
  }

  /** The far-axis set of the `k`-th `test_point!` block of `worley_2d`,
      `worley_3d` or `worley_4d`, in the source's order: one far axis, then
      two, three and four. `cell2_seed`..`cell4_seed` test the same cells in
      the same order. Each set names `n` axes and at least one is far. */
  function FarAxis(n: nat, k: nat): (axes: seq<bool>)
    requires 2 <= n <= 4 && k < FarTestCount(n)
    ensures |axes| == n && true in axes
  {
    if n == 2 then FarAxis2(k) else if n == 3 then FarAxis3(k) else FarAxis4(k)
  }

  function FarAxis2(k: nat): (axes: seq<bool>)
    requires k < 3
    ensures |axes| == 2 && true in axes
  {
    match k
    case 0 => [true, false]
    case 1 => [false, true]
    case 2 => [true, true]
  }

  function FarAxis3(k: nat): (axes: seq<bool>)
    requires k < 7
    ensures |axes| == 3 && true in axes
  {
    match k
    case 0 => [true, false, false]
    case 1 => [false, true, false]
    case 2 => [false, false, true]
    case 3 => [true, true, false]
    case 4 => [true, false, true]
    case 5 => [false, true, true]
    case 6 => [true, true, true]
  }

  function FarAxis4(k: nat): (axes: seq<bool>)
    requires k < 15
    ensures |axes| == 4 && true in axes
  {
    match k
    case 0 => [true, false, false, false]
    case 1 => [false, true, false, false]
    case 2 => [false, false, true, false]
    case 3 => [false, false, false, true]
    case 4 => [true, true, false, false]
    case 5 => [true, false, true, false]
    case 6 => [true, false, false, true]
    case 7 => [false, true, true, false]
    case 8 => [false, true, false, true]
    case 9 => [false, false, true, true]
    case 10 => [true, true, true, false]
    case 11 => [true, true, false, true]
    case 12 => [true, false, true, true]
    case 13 => [false, true, true, true]
    case 14 => [true, true, true, true]
  }

  /** What a guarded `test_point!` on `axes` guarantees about a later best
      distance: when every one of those axes is nearer than `best`, the cell
      far on `axes` was tested and is no nearer than `best`. */
  ghost predicate NoNearer(t: PermutationTable, dist: (seq<real>, seq<real>) -> real, point: seq<real>,
                           near: seq<int>, far: seq<int>, range: seq<real>, axes: seq<bool>, best: real)
    requires t.Valid() && 2 <= |axes| <= 4 && |axes| == |range| == |near| == |far|
  {
    AllBelow(range, axes, best) ==> best <= dist(point, FeaturePoint(t, FarOn(axes, near, far)))
  }

  /** `NoNearer` for the first `count` far-axis sets of the search in
      `|range|` dimensions. */
  ghost predicate TestedUpTo(t: PermutationTable, dist: (seq<real>, seq<real>) -> real, point: seq<real>,
                             near: seq<int>, far: seq<int>, range: seq<real>, count: nat, best: real)
    requires t.Valid() && 2 <= |range| <= 4 && |range| == |near| == |far| && count <= FarTestCount(|range|)
  {
    forall k :: 0 <= k < count ==> NoNearer(t, dist, point, near, far, range, FarAxis(|range|, k), best)
  }

  /** Every guarded `test_point!` of `worley_2d`, `worley_3d` or
      `worley_4d` for the point's own dimension leaves no tested cell
      nearer than `best`. */
  ghost predicate NoneNearer(t: PermutationTable, dist: (seq<real>, seq<real>) -> real, point: seq<real>, best: real)
    requires t.Valid() && 2 <= |point| <= 4
  {
    TestedUpTo(t, dist, point, Near(point), Far(point), Range(point), FarTestCount(|point|), best)
  }

  /** A guard that holds for a smaller best distance holds for a larger one. */
  lemma AllBelowShrinks(range: seq<real>, axes: seq<bool>, smaller: real, larger: real)
    requires |axes| == |range| && smaller <= larger
    ensures AllBelow(range, axes, smaller) ==> AllBelow(range, axes, larger)
  {
  }

  /** One guarded `test_point!`, the `k`-th of the search: the cell that is
      far on `axes` is tested only when every one of those axes is nearer
      than the best distance so far; otherwise nothing changes. What the
      earlier tests guarantee survives, since the best distance only
      falls. */
  method TestFarAxes(t: PermutationTable, dist: (seq<real>, seq<real>) -> real, point: seq<real>,
                     near: seq<int>, far: seq<int>, range: seq<real>, k: nat,
                     ghost first: real, best: real, cell: seq<int>)
    returns (newBest: real, newCell: seq<int>)
    requires t.Valid() && 2 <= |range| <= 4 && |near| == |far| == |range|
    requires k < FarTestCount(|range|)
    requires Best(t, dist, point, near, far, first, best, cell)
    requires TestedUpTo(t, dist, point, near, far, range, k, best)
    ensures Best(t, dist, point, near, far, first, newBest, newCell) && newBest <= best
    ensures AllBelow(range, FarAxis(|range|, k), best) ==>
              newBest <= dist(point, FeaturePoint(t, FarOn(FarAxis(|range|, k), near, far)))
    ensures !AllBelow(range, FarAxis(|range|, k), best) ==> newBest == best && newCell == cell
    ensures TestedUpTo(t, dist, point, near, far, range, k + 1, newBest)
  {
    var axes := FarAxis(|range|, k);
    newBest, newCell := best, cell;
    if AllBelow(range, axes, best) {
      newBest, newCell := TestPoint(t, dist, point, near, far, first, FarOn(axes, near, far), best, cell);
    }
    AllBelowShrinks(range, axes, newBest, best);
    TestedUpToShrinks(t, dist, point, near, far, range, k, best, newBest);
    TestedUpToExtends(t, dist, point, near, far, range, k, newBest);
  }

  /** What the tests guarantee for one best distance they guarantee for any
      smaller one. */
  lemma TestedUpToShrinks(t: PermutationTable, dist: (seq<real>, seq<real>) -> real, point: seq<real>,
                          near: seq<int>, far: seq<int>, range: seq<real>, count: nat, best: real, smaller: real)
    requires t.Valid() && 2 <= |range| <= 4 && |range| == |near| == |far|
    requires count <= FarTestCount(|range|) && smaller <= best
    requires TestedUpTo(t, dist, point, near, far, range, count, best)
    ensures TestedUpTo(t, dist, point, near, far, range, count, smaller)
  {
    forall j | 0 <= j < count
      ensures NoNearer(t, dist, point, near, far, range, FarAxis(|range|, j), smaller)
    {
      var other := FarAxis(|range|, j);
      AllBelowShrinks(range, other, smaller, best);
      assert NoNearer(t, dist, point, near, far, range, other, best);
    }
  }

  /** The guarantee of the `count`-th test joins those before it. */
  lemma TestedUpToExtends(t: PermutationTable, dist: (seq<real>, seq<real>) -> real, point: seq<real>,
                          near: seq<int>, far: seq<int>, range: seq<real>, count: nat, best: real)
    requires t.Valid() && 2 <= |range| <= 4 && |range| == |near| == |far|
    requires count < FarTestCount(|range|)
    requires TestedUpTo(t, dist, point, near, far, range, count, best)
    requires NoNearer(t, dist, point, near, far, range, FarAxis(|range|, count), best)
    ensures TestedUpTo(t, dist, point, near, far, range, count + 1, best)
  {
  }

  /** The result: the distance, or the hash of the chosen cell scaled to
      [0, 1], mapped by `value * 2 - 1`. With `Value` it lies in [-1, 1]. */
  function Output(returnType: ReturnType, distance: real, hash: int): (r: real)
    requires 0 <= hash < TABLE_SIZE
    ensures returnType == Value ==> -1.0 <= r <= 1.0
    ensures returnType == Distance ==> r + 1.0 == distance * 2.0
  {
    var value := if returnType == Distance then distance else hash as real / 255.0;
    value * 2.0 - 1.0
  }

  /** The three `test_point!` blocks of `worley_2d`, in the source's
      order: one far axis, then both. */
  method FarTests2D(t: PermutationTable, dist: (seq<real>, seq<real>) -> real, point: seq<real>,
                    near: seq<int>, far: seq<int>, range: seq<real>, ghost first: real, best: real, cell: seq<int>)
    returns (newBest: real, newCell: seq<int>)
    requires t.Valid() && |near| == |far| == |range| == 2
    requires Best(t, dist, point, near, far, first, best, cell)
    ensures Best(t, dist, point, near, far, first, newBest, newCell) && newBest <= best
    ensures TestedUpTo(t, dist, point, near, far, range, 3, newBest)
  {
    newBest, newCell := best, cell;
    newBest, newCell := TestFarAxes(t, dist, point, near, far, range, 0, first, newBest, newCell);  // far on x
    newBest, newCell := TestFarAxes(t, dist, point, near, far, range, 1, first, newBest, newCell);  // far on y
    newBest, newCell := TestFarAxes(t, dist, point, near, far, range, 2, first, newBest, newCell);  // far on x, y
  }

  /** `worley_2d`: the search starts at the near cell, then tests the cells
      across each boundary whose squared distance `range` is below the best
      distance so far, in the order the source lists them. The chosen cell and
      its distance are returned as ghost results for the contract. */
  method Worley2D(t: PermutationTable, dist: (seq<real>, seq<real>) -> real, returnType: ReturnType, point: seq<real>)
    returns (value: real, ghost seedCell: seq<int>, ghost distance: real)
    requires t.Valid() && |point| == 2
    ensures Between(seedCell, Near(point), Far(point))
    ensures distance == dist(point, FeaturePoint(t, seedCell))
    ensures distance <= dist(point, FeaturePoint(t, Near(point)))
    ensures NoneNearer(t, dist, point, distance)
    ensures value == Output(returnType, distance, Hash(t, seedCell))
  {
    var near := Near(point);
    var far := Far(point);
    var cell := near;
    var seedIndex := Hash(t, near);
    var seedPoint := Add(GetVec(seedIndex, 2), ToReal(near));
    var best := dist(point, seedPoint);
    ghost var first := best;
    assert Best(t, dist, point, near, far, first, best, cell);
    var range := Range(point);
    best, cell := FarTests2D(t, dist, point, near, far, range, first, best, cell);
    var v := if returnType == Distance then best else Hash(t, cell) as real / 255.0;
    value := v * 2.0 - 1.0;
    seedCell, distance := cell, best;
  }

  /** The seven `test_point!` blocks of `worley_3d`, in the source's
      order: one far axis, then two and all three. */
  method FarTests3D(t: PermutationTable, dist: (seq<real>, seq<real>) -> real, point: seq<real>,
                    near: seq<int>, far: seq<int>, range: seq<real>, ghost first: real, best: real, cell: seq<int>)
    returns (newBest: real, newCell: seq<int>)
    requires t.Valid() && |near| == |far| == |range| == 3
    requires Best(t, dist, point, near, far, first, best, cell)
    ensures Best(t, dist, point, near, far, first, newBest, newCell) && newBest <= best
    ensures TestedUpTo(t, dist, point, near, far, range, 7, newBest)
  {
    newBest, newCell := OneFarAxis3D(t, dist, point, near, far, range, first, best, cell);
    newBest, newCell := MoreFarAxes3D(t, dist, point, near, far, range, first, newBest, newCell);
  }

  /** The three blocks of `worley_3d` with one far axis. */
  method OneFarAxis3D(t: PermutationTable, dist: (seq<real>, seq<real>) -> real, point: seq<real>,
                      near: seq<int>, far: seq<int>, range: seq<real>, ghost first: real, best: real, cell: seq<int>)
    returns (newBest: real, newCell: seq<int>)
    requires t.Valid() && |near| == |far| == |range| == 3
    requires Best(t, dist, point, near, far, first, best, cell)
    requires TestedUpTo(t, dist, point, near, far, range, 0, best)
    ensures Best(t, dist, point, near, far, first, newBest, newCell) && newBest <= best
    ensures TestedUpTo(t, dist, point, near, far, range, 3, newBest)
  {
    newBest, newCell := best, cell;
    newBest, newCell := TestFarAxes(t, dist, point, near, far, range, 0, first, newBest, newCell);  // far on x
    newBest, newCell := TestFarAxes(t, dist, point, near, far, range, 1, first, newBest, newCell);  // far on y
    newBest, newCell := TestFarAxes(t, dist, point, near, far, range, 2, first, newBest, newCell);  // far on z
  }

  /** The four blocks of `worley_3d` with two or three far axes. */
  method MoreFarAxes3D(t: PermutationTable, dist: (seq<real>, seq<real>) -> real, point: seq<real>,
                       near: seq<int>, far: seq<int>, range: seq<real>, ghost first: real, best: real, cell: seq<int>)
    returns (newBest: real, newCell: seq<int>)
    requires t.Valid() && |near| == |far| == |range| == 3
    requires Best(t, dist, point, near, far, first, best, cell)
    requires TestedUpTo(t, dist, point, near, far, range, 3, best)
    ensures Best(t, dist, point, near, far, first, newBest, newCell) && newBest <= best
    ensures TestedUpTo(t, dist, point, near, far, range, 7, newBest)
  {
    newBest, newCell := best, cell;
    newBest, newCell := TestFarAxes(t, dist, point, near, far, range, 3, first, newBest, newCell);  // far on x, y
    newBest, newCell := TestFarAxes(t, dist, point, near, far, range, 4, first, newBest, newCell);  // far on x, z
    newBest, newCell := TestFarAxes(t, dist, point, near, far, range, 5, first, newBest, newCell);  // far on y, z
    newBest, newCell := TestFarAxes(t, dist, point, near, far, range, 6, first, newBest, newCell);  // far on x, y, z
  }

  /** `worley_3d`: the search starts at the near cell, then tests the cells
      across each boundary whose squared distance `range` is below the best
      distance so far: first those one axis away, then two, and so on, in the
      order the source lists them. The chosen cell and its distance are
      returned as ghost results for the contract. */
  method Worley3D(t: PermutationTable, dist: (seq<real>, seq<real>) -> real, returnType: ReturnType, point: seq<real>)
    returns (value: real, ghost seedCell: seq<int>, ghost distance: real)
    requires t.Valid() && |point| == 3
    ensures Between(seedCell, Near(point), Far(point))
    ensures distance == dist(point, FeaturePoint(t, seedCell))
    ensures distance <= dist(point, FeaturePoint(t, Near(point)))
    ensures NoneNearer(t, dist, point, distance)
    ensures value == Output(returnType, distance, Hash(t, seedCell))
  {
    var near := Near(point);
    var far := Far(point);
    var cell := near;
    var seedIndex := Hash(t, near);
    var seedPoint := Add(GetVec(seedIndex, 3), ToReal(near));
    var best := dist(point, seedPoint);
    ghost var first := best;
    assert Best(t, dist, point, near, far, first, best, cell);
    var range := Range(point);
    best, cell := FarTests3D(t, dist, point, near, far, range, first, best, cell);
    var v := if returnType == Distance then best else Hash(t, cell) as real / 255.0;
    value := v * 2.0 - 1.0;
    seedCell, distance := cell, best;
  }

  /** The fifteen `test_point!` blocks of `worley_4d`, in the source's
      order: one far axis, then two, three and all four. */
  method FarTests4D(t: PermutationTable, dist: (seq<real>, seq<real>) -> real, point: seq<real>,
                    near: seq<int>, far: seq<int>, range: seq<real>, ghost first: real, best: real, cell: seq<int>)
    returns (newBest: real, newCell: seq<int>)
    requires t.Valid() && |near| == |far| == |range| == 4
    requires Best(t, dist, point, near, far, first, best, cell)
    ensures Best(t, dist, point, near, far, first, newBest, newCell) && newBest <= best
    ensures TestedUpTo(t, dist, point, near, far, range, 15, newBest)
  {
    newBest, newCell := OneFarAxis4D(t, dist, point, near, far, range, first, best, cell);
    newBest, newCell := TwoFarAxes4D(t, dist, point, near, far, range, first, newBest, newCell);
    newBest, newCell := MoreFarAxes4D(t, dist, point, near, far, range, first, newBest, newCell);
  }

  /** The four blocks of `worley_4d` with one far axis. */
  method OneFarAxis4D(t: PermutationTable, dist: (seq<real>, seq<real>) -> real, point: seq<real>,
                      near: seq<int>, far: seq<int>, range: seq<real>, ghost first: real, best: real, cell: seq<int>)
    returns (newBest: real, newCell: seq<int>)
    requires t.Valid() && |near| == |far| == |range| == 4
    requires Best(t, dist, point, near, far, first, best, cell)
    requires TestedUpTo(t, dist, point, near, far, range, 0, best)
    ensures Best(t, dist, point, near, far, first, newBest, newCell) && newBest <= best
    ensures TestedUpTo(t, dist, point, near, far, range, 4, newBest)
  {
    newBest, newCell := best, cell;
    newBest, newCell := TestFarAxes(t, dist, point, near, far, range, 0, first, newBest, newCell);  // far on x
    newBest, newCell := TestFarAxes(t, dist, point, near, far, range, 1, first, newBest, newCell);  // far on y
    newBest, newCell := TestFarAxes(t, dist, point, near, far, range, 2, first, newBest, newCell);  // far on z
    newBest, newCell := TestFarAxes(t, dist, point, near, far, range, 3, first, newBest, newCell);  // far on w
  }

  /** The six blocks of `worley_4d` with two far axes. */
  method TwoFarAxes4D(t: PermutationTable, dist: (seq<real>, seq<real>) -> real, point: seq<real>,
                      near: seq<int>, far: seq<int>, range: seq<real>, ghost first: real, best: real, cell: seq<int>)
    returns (newBest: real, newCell: seq<int>)
    requires t.Valid() && |near| == |far| == |range| == 4
    requires Best(t, dist, point, near, far, first, best, cell)
    requires TestedUpTo(t, dist, point, near, far, range, 4, best)
    ensures Best(t, dist, point, near, far, first, newBest, newCell) && newBest <= best
    ensures TestedUpTo(t, dist, point, near, far, range, 10, newBest)
  {
    newBest, newCell := best, cell;
    newBest, newCell := TestFarAxes(t, dist, point, near, far, range, 4, first, newBest, newCell);  // far on x, y
    newBest, newCell := TestFarAxes(t, dist, point, near, far, range, 5, first, newBest, newCell);  // far on x, z
    newBest, newCell := TestFarAxes(t, dist, point, near, far, range, 6, first, newBest, newCell);  // far on x, w
    newBest, newCell := TestFarAxes(t, dist, point, near, far, range, 7, first, newBest, newCell);  // far on y, z
    newBest, newCell := TestFarAxes(t, dist, point, near, far, range, 8, first, newBest, newCell);  // far on y, w
    newBest, newCell := TestFarAxes(t, dist, point, near, far, range, 9, first, newBest, newCell);  // far on z, w
  }

  /** The five blocks of `worley_4d` with three or four far axes. */
  method MoreFarAxes4D(t: PermutationTable, dist: (seq<real>, seq<real>) -> real, point: seq<real>,
                       near: seq<int>, far: seq<int>, range: seq<real>, ghost first: real, best: real, cell: seq<int>)
    returns (newBest: real, newCell: seq<int>)
    requires t.Valid() && |near| == |far| == |range| == 4
    requires Best(t, dist, point, near, far, first, best, cell)
    requires TestedUpTo(t, dist, point, near, far, range, 10, best)
    ensures Best(t, dist, point, near, far, first, newBest, newCell) && newBest <= best
    ensures TestedUpTo(t, dist, point, near, far, range, 15, newBest)
  {
    newBest, newCell := best, cell;
    newBest, newCell := TestFarAxes(t, dist, point, near, far, range, 10, first, newBest, newCell);  // far on x, y, z
    newBest, newCell := TestFarAxes(t, dist, point, near, far, range, 11, first, newBest, newCell);  // far on x, y, w
    newBest, newCell := TestFarAxes(t, dist, point, near, far, range, 12, first, newBest, newCell);  // far on x, z, w
    newBest, newCell := TestFarAxes(t, dist, point, near, far, range, 13, first, newBest, newCell);  // far on y, z, w
    newBest, newCell := TestFarAxes(t, dist, point, near, far, range, 14, first, newBest, newCell);  // far on x, y, z, w
  }

  /** `worley_4d`: the search starts at the near cell, then tests the cells
      across each boundary whose squared distance `range` is below the best
      distance so far: first those one axis away, then two, and so on, in the
      order the source lists them. The chosen cell and its distance are
      returned as ghost results for the contract. */
  method Worley4D(t: PermutationTable, dist: (seq<real>, seq<real>) -> real, returnType: ReturnType, point: seq<real>)
    returns (value: real, ghost seedCell: seq<int>, ghost distance: real)
    requires t.Valid() && |point| == 4
    ensures Between(seedCell, Near(point), Far(point))
    ensures distance == dist(point, FeaturePoint(t, seedCell))
    ensures distance <= dist(point, FeaturePoint(t, Near(point)))
    ensures NoneNearer(t, dist, point, distance)
    ensures value == Output(returnType, distance, Hash(t, seedCell))
  {
    var near := Near(point);
    var far := Far(point);
    var cell := near;
    var seedIndex := Hash(t, near);
    var seedPoint := Add(GetVec(seedIndex, 4), ToReal(near));
    var best := dist(point, seedPoint);
    ghost var first := best;
    assert Best(t, dist, point, near, far, first, best, cell);
    var range := Range(point);
    best, cell := FarTests4D(t, dist, point, near, far, range, first, best, cell);
    var v := if returnType == Distance then best else Hash(t, cell) as real / 255.0;
    value := v * 2.0 - 1.0;
    seedCell, distance := cell, best;
  }

}
