/** The fixed-size vectors `Vector2`, `Vector3` and `Vector4`, generated by one
    macro: a vector of dimension N is a sequence of N reals (or N integers once
    floored), and the macro's per-component repetition is a loop over indices. */
module Vectors {
  import opened Numeric

  /** `floor_to_isize`: truncation, minus one when the component is <= 0,
      so it agrees with the mathematical floor except at integers <= 0,
      which land one cell lower (0.0 maps to -1). */
  function FloorToIsize(x: real): (r: int)
    ensures r as real <= x <= r as real + 1.0
    ensures (0.0 < x || x != x.Floor as real) ==> r == x.Floor
    ensures (x <= 0.0 && x == x.Floor as real) ==> r == x.Floor - 1
  {
    if x <= 0.0 then Trunc(x) - 1 else Trunc(x)
  }

  lemma FloorToIsizeOfZero()
    ensures FloorToIsize(0.0) == -1
  {
  }

  /** Componentwise `floor_to_isize`. */
  function FloorAll(v: seq<real>): seq<int>
  {
    seq(|v|, i requires 0 <= i < |v| => FloorToIsize(v[i]))
  }

  /** Componentwise conversion of a lattice point back to `f64`. */
  function ToReal(c: seq<int>): seq<real>
  {
    seq(|c|, i requires 0 <= i < |c| => c[i] as real)
  }

  lemma FloorAllDistance(v: seq<real>)
    ensures |FloorAll(v)| == |v|
    ensures forall i :: 0 <= i < |v| ==> 0.0 <= v[i] - FloorAll(v)[i] as real <= 1.0
  {
  }

  /** The offset of a point from its `floor_to_isize` corner,
      `point - corner.numcast()`, lies in [0, 1] in every component. */
  function CellDistance(v: seq<real>): (d: seq<real>)
    ensures |d| == |v|
    ensures forall i :: 0 <= i < |v| ==> 0.0 <= d[i] <= 1.0
    ensures forall i :: 0 <= i < |v| ==> d[i] == v[i] - FloorToIsize(v[i]) as real
  {
    seq(|v|, i requires 0 <= i < |v| => v[i] - FloorToIsize(v[i]) as real)
  }

  /** Componentwise sum of two lattice points (`corner + offset`). */
  function AddInt(a: seq<int>, b: seq<int>): seq<int>
    requires |a| == |b|
  {
    seq(|a|, i requires 0 <= i < |a| => a[i] + b[i])
  }

  /** `floor()` componentwise followed by `numcast()`: the exact floor. */
  function Floor(v: seq<real>): (c: seq<int>)
    ensures |c| == |v|
    ensures forall i :: 0 <= i < |v| ==> c[i] as real <= v[i] < c[i] as real + 1.0
  {
    seq(|v|, i requires 0 <= i < |v| => v[i].Floor)
  }

  /** `numcast()` from floats to `isize`: truncation toward zero, componentwise. */
  function NumCast(v: seq<real>): (c: seq<int>)
    ensures |c| == |v|
    ensures forall i :: 0 <= i < |v| ==> c[i] == Trunc(v[i])
  {
    seq(|v|, i requires 0 <= i < |v| => Trunc(v[i]))
  }

  /** Reference definition of the sum of components, left to right. */
  function SumOf(v: seq<real>): real
  {
    if |v| == 0 then 0.0 else SumOf(v[..|v| - 1]) + v[|v| - 1]
  }

  /** Reference definition of the dot product. */
  function DotOf(a: seq<real>, b: seq<real>): real
    requires |a| == |b|
  {
    if |a| == 0 then 0.0 else DotOf(a[..|a| - 1], b[..|b| - 1]) + a[|a| - 1] * b[|b| - 1]
  }

  /** `sum`: an accumulator that adds every component once. */
  method Sum(v: seq<real>) returns (result: real)
    ensures result == SumOf(v)
  {
    result := 0.0;
    var i := 0;
    while i < |v|
      invariant 0 <= i <= |v|
      invariant result == SumOf(v[..i])
    {
      assert v[..i + 1][..i] == v[..i];
      result := result + v[i];
      i := i + 1;
    }
    assert v[..|v|] == v;
  }

  /** `dot`: an accumulator of the componentwise products. */
  method Dot(a: seq<real>, b: seq<real>) returns (result: real)
    requires |a| == |b|
    ensures result == DotOf(a, b)
  {
    result := 0.0;
    var i := 0;
    while i < |a|
      invariant 0 <= i <= |a|
      invariant result == DotOf(a[..i], b[..i])
    {
      assert a[..i + 1][..i] == a[..i];
      assert b[..i + 1][..i] == b[..i];
      result := result + a[i] * b[i];
      i := i + 1;
    }
    assert a[..|a|] == a && b[..|b|] == b;
  }

  /** `magnitude_squared`: the dot product of a vector with itself, never negative. */
  function MagnitudeSquared(v: seq<real>): (r: real)
    ensures r >= 0.0
  {
    DotSelfNonNegative(v);
    DotOf(v, v)
  }

  lemma {:induction false} DotSelfNonNegative(v: seq<real>)
    ensures DotOf(v, v) >= 0.0
  {
    if |v| > 0 {
      DotSelfNonNegative(v[..|v| - 1]);
    }
  }

  function Broadcast(value: real, n: nat): seq<real>
  {
    seq(n, _ => value)
  }

  function Add(a: seq<real>, b: seq<real>): seq<real>
    requires |a| == |b|
  {
    seq(|a|, i requires 0 <= i < |a| => a[i] + b[i])
  }

  function AddScalar(a: seq<real>, t: real): seq<real>
  {
    seq(|a|, i requires 0 <= i < |a| => a[i] + t)
  }

  function Sub(a: seq<real>, b: seq<real>): seq<real>
    requires |a| == |b|
  {
    seq(|a|, i requires 0 <= i < |a| => a[i] - b[i])
  }

  function SubScalar(a: seq<real>, t: real): seq<real>
  {
    seq(|a|, i requires 0 <= i < |a| => a[i] - t)
  }

  function Mul(a: seq<real>, b: seq<real>): seq<real>
    requires |a| == |b|
  {
    seq(|a|, i requires 0 <= i < |a| => a[i] * b[i])
  }

  function MulScalar(a: seq<real>, t: real): seq<real>
  {
    seq(|a|, i requires 0 <= i < |a| => a[i] * t)
  }

  function DivScalar(a: seq<real>, t: real): seq<real>
    requires t != 0.0
  {
    seq(|a|, i requires 0 <= i < |a| => a[i] / t)
  }

  /** Adding then subtracting the same vector gives back the original. */
  lemma AddSubCancel(a: seq<real>, b: seq<real>)
    requires |a| == |b|
    ensures Sub(Add(a, b), b) == a
  {
  }

  /** `n` copies of `value` added up: multiplication by a count, kept as
      repeated addition so that sums over vectors stay linear. */
  function Times(n: nat, value: real): real
  {
    if n == 0 then 0.0 else Times(n - 1, value) + value
  }

  lemma {:induction false} TimesIsProduct(n: nat, value: real)
    ensures Times(n, value) == n as real * value
  {
    if n > 0 {
      TimesIsProduct(n - 1, value);
    }
  }

  /** The sum of a broadcast vector is N times the broadcast value. */
  lemma {:induction false} SumOfBroadcast(value: real, n: nat)
    ensures SumOf(Broadcast(value, n)) == Times(n, value)
  {
    if n > 0 {
      assert Broadcast(value, n)[..n - 1] == Broadcast(value, n - 1);
      SumOfBroadcast(value, n - 1);
    }
  }

  /** `sum` is additive: each component is counted exactly once. */
  lemma {:induction false} SumOfAdd(a: seq<real>, b: seq<real>)
    requires |a| == |b|
    ensures SumOf(Add(a, b)) == SumOf(a) + SumOf(b)
  {
    if |a| > 0 {
      var n := |a| - 1;
      assert Add(a, b)[..n] == Add(a[..n], b[..n]);
      SumOfAdd(a[..n], b[..n]);
    }
  }

  /** `sum` distributes over subtraction. */
  lemma {:induction false} SumOfSub(a: seq<real>, b: seq<real>)
    requires |a| == |b|
    ensures SumOf(Sub(a, b)) == SumOf(a) - SumOf(b)
  {
    if |a| > 0 {
      var n := |a| - 1;
      assert Sub(a, b)[..n] == Sub(a[..n], b[..n]);
      SumOfSub(a[..n], b[..n]);
    }
  }

  /** The dot product with a zero vector is zero. */
  lemma {:induction false} DotWithZero(a: seq<real>, b: seq<real>)
    requires |a| == |b| && forall i :: 0 <= i < |b| ==> b[i] == 0.0
    ensures DotOf(a, b) == 0.0
  {
    if |a| > 0 {
      DotWithZero(a[..|a| - 1], b[..|b| - 1]);
    }
  }

  /** The dot product with a broadcast one-vector is the component sum. */
  lemma {:induction false} DotWithOnes(v: seq<real>)
    ensures DotOf(v, Broadcast(1.0, |v|)) == SumOf(v)
  {
    if |v| > 0 {
      var n := |v| - 1;
      assert Broadcast(1.0, |v|)[..n] == Broadcast(1.0, n);
      DotWithOnes(v[..n]);
    }
  }

  /** The squared length of a vector of two to four components, written out. */
  lemma MagnitudeSquaredUnrolled(v: seq<real>)
    requires 2 <= |v| <= 4
    ensures |v| == 2 ==> MagnitudeSquared(v) == v[0] * v[0] + v[1] * v[1]
    ensures |v| == 3 ==> MagnitudeSquared(v) == v[0] * v[0] + v[1] * v[1] + v[2] * v[2]
    ensures |v| == 4 ==> MagnitudeSquared(v) == v[0] * v[0] + v[1] * v[1] + v[2] * v[2] + v[3] * v[3]
  {
    assert v[..1][..0] == [];
    assert DotOf(v[..1], v[..1]) == v[0] * v[0];
    assert v[..2][..1] == v[..1];
    assert DotOf(v[..2], v[..2]) == v[0] * v[0] + v[1] * v[1];
    if |v| >= 3 {
      assert v[..3][..2] == v[..2];
      assert DotOf(v[..3], v[..3]) == DotOf(v[..2], v[..2]) + v[2] * v[2];
    }
    if |v| == 4 {
      assert v[..4][..3] == v[..3];
      assert v[..4] == v;
    }
    if |v| == 3 {
      assert v[..3] == v;
    }
    if |v| == 2 {
      assert v[..2] == v;
    }
  }

  /** `add_assign` with a vector: every component is increased in place. */
  method AddAssign(v: array<real>, rhs: seq<real>)
    requires v.Length == |rhs|
    modifies v
    ensures v[..] == Add(old(v[..]), rhs)
  {
    for i := 0 to v.Length
      invariant v[..i] == Add(old(v[..]), rhs)[..i]
      invariant v[i..] == old(v[..])[i..]
    {
      v[i] := v[i] + rhs[i];
    }
  }

  /** `sub_assign` with a vector. */
  method SubAssign(v: array<real>, rhs: seq<real>)
    requires v.Length == |rhs|
    modifies v
    ensures v[..] == Sub(old(v[..]), rhs)
  {
    for i := 0 to v.Length
      invariant v[..i] == Sub(old(v[..]), rhs)[..i]
      invariant v[i..] == old(v[..])[i..]
    {
      v[i] := v[i] - rhs[i];
    }
  }

  /** `mul_assign` with a scalar. */
  method MulAssignScalar(v: array<real>, t: real)
    modifies v
    ensures v[..] == MulScalar(old(v[..]), t)
  {
    for i := 0 to v.Length
      invariant forall k :: 0 <= k < i ==> v[k] == old(v[k]) * t
      invariant forall k :: i <= k < v.Length ==> v[k] == old(v[k])
    {
      v[i] := v[i] * t;
    }
    assert forall k :: 0 <= k < v.Length ==> v[..][k] == MulScalar(old(v[..]), t)[k];
    assert v[..] == MulScalar(old(v[..]), t);
  }

  /** `div_assign` with a scalar. */
  method DivAssignScalar(v: array<real>, t: real)
    requires t != 0.0
    modifies v
    ensures v[..] == DivScalar(old(v[..]), t)
  {
    for i := 0 to v.Length
      invariant forall k :: 0 <= k < i ==> v[k] == old(v[k]) / t
      invariant forall k :: i <= k < v.Length ==> v[k] == old(v[k])
    {
      v[i] := v[i] / t;
    }
    assert forall k :: 0 <= k < v.Length ==> v[..][k] == DivScalar(old(v[..]), t)[k];
    assert v[..] == DivScalar(old(v[..]), t);
  }

  /** `apply`: replaces every component by `f` of it. */
  method Apply(v: array<real>, f: real -> real)
    modifies v
    ensures |old(v[..])| == v.Length
    ensures forall i :: 0 <= i < v.Length ==> v[i] == f(old(v[i]))
  {
    for i := 0 to v.Length
      invariant forall k :: 0 <= k < i ==> v[k] == f(old(v[k]))
      invariant forall k :: i <= k < v.Length ==> v[k] == old(v[k])
    {
      v[i] := f(v[i]);
    }
  }

  // Unit offsets between lattice points.

  /** Lattice point `a` plus the unit offset `o`. */
  function Step(a: seq<int>, o: seq<int>): (r: seq<int>)
    requires |a| == |o|
    ensures |r| == |a|
  {
    AddInt(a, o)
  }

  /** The number of ones in an offset. */
  function Ones(o: seq<int>): nat
  {
    if |o| == 0 then 0 else Ones(o[..|o| - 1]) + (if o[|o| - 1] == 1 then 1 else 0)
  }

  /** Offset `a` is componentwise at most offset `b`. */
  predicate Below(a: seq<int>, b: seq<int>)
  {
    |a| == |b| && forall i :: 0 <= i < |a| ==> a[i] <= b[i]
  }

  /** An offset is a 0/1 vector. */
  predicate Unit(o: seq<int>)
  {
    forall i :: 0 <= i < |o| ==> o[i] == 0 || o[i] == 1
  }

  lemma OnesOf3(o: seq<int>)
    requires |o| == 3
    ensures Ones(o) == (if o[0] == 1 then 1 else 0) + (if o[1] == 1 then 1 else 0) + (if o[2] == 1 then 1 else 0)
  {
    assert o[..2][..1] == o[..1];
    assert o[..1][..0] == [];
    assert Ones(o[..1]) == (if o[0] == 1 then 1 else 0);
    assert Ones(o[..2]) == Ones(o[..1]) + (if o[1] == 1 then 1 else 0);
  }

  lemma OnesOf4(o: seq<int>)
    requires |o| == 4 && Unit(o)
    ensures Ones(o) == o[0] + o[1] + o[2] + o[3]
  {
    assert o[..3][..2] == o[..2];
    OnesOf3(o[..3]);
  }
}
