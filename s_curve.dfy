/** The quintic and cubic S-curves. Both assert that their argument lies in
    [0, 1] and panic otherwise; the `f32` and `f64` forms compute the same
    polynomial, so one function over `real` models both. */
module SCurve {
  import opened Wrappers
  import opened Numeric

  /** The quintic polynomial in the nested form the library evaluates. */
  function Quintic(x: real): real
  {
    x * x * x * (x * (x * 6.0 - 15.0) + 10.0)
  }

  /** The nested form is the polynomial 6x⁵ − 15x⁴ + 10x³. */
  lemma QuinticExpanded(x: real)
    ensures Quintic(x) == 6.0 * x * x * x * x * x - 15.0 * x * x * x * x + 10.0 * x * x * x
  {
  }

  lemma QuinticEndpoints()
    ensures Quintic(0.0) == 0.0 && Quintic(1.0) == 1.0
  {
  }

  /** The quintic maps [0, 1] into [0, 1]. */
  lemma QuinticBounds(x: real)
    requires 0.0 <= x <= 1.0
    ensures 0.0 <= Quintic(x) <= 1.0
  {
    var c := x * x * x;
    assert c >= 0.0 by { MulNonNegative(x, x); MulNonNegative(x * x, x); }
    var k := x * (x * 6.0 - 15.0) + 10.0;
    assert k == 6.0 * (x - 1.25) * (x - 1.25) + 0.625;
    assert (x - 1.25) * (x - 1.25) >= 0.0;
    MulNonNegative(c, k);
    var y := 1.0 - x;
    var d := y * y * y;
    assert d >= 0.0 by { MulNonNegative(y, y); MulNonNegative(y * y, y); }
    var m := 6.0 * x * x + 3.0 * x + 1.0;
    assert m >= 1.0;
    assert 1.0 - Quintic(x) == d * m;
    MulNonNegative(d, m);
  }

  /** `map_quintic` on a scalar: panics (None) outside [0, 1]. */
  function MapQuintic(x: real): (r: Option<real>)
    ensures r.Some? <==> 0.0 <= x <= 1.0
    ensures r.Some? ==> 0.0 <= r.value <= 1.0
    ensures x == 0.0 ==> r == Some(0.0)
    ensures x == 1.0 ==> r == Some(1.0)
  {
    if 0.0 <= x && x <= 1.0 then QuinticBounds(x); Some(Quintic(x)) else None
  }

  predicate InUnit(v: seq<real>)
  {
    forall i :: 0 <= i < |v| ==> 0.0 <= v[i] <= 1.0
  }

  /** `map_quintic` on an array or vector: each component in turn, so the
      whole call panics as soon as one component is outside [0, 1]. */
  function MapQuinticAll(v: seq<real>): (r: Option<seq<real>>)
    ensures r.Some? <==> InUnit(v)
    ensures r.Some? ==> |r.value| == |v| && InUnit(r.value)
    ensures r.Some? ==> forall i :: 0 <= i < |v| ==> MapQuintic(v[i]) == Some(r.value[i])
  {
    if |v| == 0 then Some([])
    else
      match MapQuintic(v[0])
      case None => None
      case Some(h) =>
        match MapQuinticAll(v[1..])
        case None => None
        case Some(t) => Some([h] + t)
  }

  /** The cubic polynomial `x·x·(3 − 2x)`. */
  function Cubic(x: real): real
  {
    x * x * (3.0 - x * 2.0)
  }

  lemma CubicExpanded(x: real)
    ensures Cubic(x) == 3.0 * x * x - 2.0 * x * x * x
  {
  }

  lemma CubicBounds(x: real)
    requires 0.0 <= x <= 1.0
    ensures 0.0 <= Cubic(x) <= 1.0
  {
    assert x * x >= 0.0;
    MulNonNegative(x * x, 3.0 - x * 2.0);
    var y := 1.0 - x;
    assert 1.0 - Cubic(x) == y * y * (1.0 + 2.0 * x);
    assert y * y >= 0.0;
    MulNonNegative(y * y, 1.0 + 2.0 * x);
  }

  /** `map_cubic` on a scalar: panics (None) outside [0, 1]. */
  function MapCubic(x: real): (r: Option<real>)
    ensures r.Some? <==> 0.0 <= x <= 1.0
    ensures r.Some? ==> 0.0 <= r.value <= 1.0
    ensures x == 0.0 ==> r == Some(0.0)
    ensures x == 1.0 ==> r == Some(1.0)
  {
    if 0.0 <= x && x <= 1.0 then CubicBounds(x); Some(Cubic(x)) else None
  }

  /** `map_cubic` on an array: componentwise, panicking on any component
      outside [0, 1]. */
  function MapCubicAll(v: seq<real>): (r: Option<seq<real>>)
    ensures r.Some? <==> InUnit(v)
    ensures r.Some? ==> |r.value| == |v| && InUnit(r.value)
    ensures r.Some? ==> forall i :: 0 <= i < |v| ==> MapCubic(v[i]) == Some(r.value[i])
  {
    if |v| == 0 then Some([])
    else
      match MapCubic(v[0])
      case None => None
      case Some(h) =>
        match MapCubicAll(v[1..])
        case None => None
        case Some(t) => Some([h] + t)
  }
}
