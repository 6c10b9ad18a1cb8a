/** `CyclePoint`: loops each coordinate over `[0, period]` before reading the
    source, and blends the source at the wrapped coordinate `c0` and at its
    mirror `period − c0` so that the output joins up across the ends of the
    period. The 1D to 4D `get` nest one `lerp` per axis, the last axis
    outermost. */
module CyclePoint {
  import opened Wrappers
  import opened Numeric
  import opened Interpolate

  const DEFAULT_PERIOD: real := 1.0

  /** `lerp(t, start, end) = t·end + (−t·start + start)` (two fused
      multiply-adds): the same blend as `interpolate::linear`. */
  function Lerp(t: real, start: real, end: real): (r: real)
    ensures r == Linear(start, end, t)
    ensures t == 0.0 ==> r == start
    ensures t == 1.0 ==> r == end
  {
    t * end + (-t * start + start)
  }

  /** `q − q.trunc()`: the fractional part of `q`, with the sign of `q`. */
  function Fraction(q: real): real
  {
    q - Trunc(q) as real
  }

  /** `x % period` on `f64`: the remainder of the division truncated toward
      zero, which has the sign of `x`. Written as the fractional part of
      `x / period` scaled back by the period; `FmodAsWritten` shows it is
      `x − period·trunc(x / period)`. */
  function Fmod(x: real, period: real): real
    requires period != 0.0
  {
    Fraction(x / period) * period
  }

  /** The remainder is `x − period·trunc(x / period)`: it differs from `x`
      by a whole number of periods. */
  lemma FmodAsWritten(x: real, period: real)
    requires period != 0.0
    ensures Fmod(x, period) == x - period * (Trunc(x / period) as real)
  {
    var q := x / period;
    assert q * period == x;
  }

  /** One axis of the lookup: the wrapped coordinate `low` (`x0`), its
      mirror `high = period − low` (`x1`) and the blend weight
      `t = low / period` (`xt`). */
  datatype Axis = Axis(low: real, high: real, t: real)

  /** The axis of a coordinate: `x % period`, plus `period` when the
      coordinate is negative. */
  function Wrap(x: real, period: real): Axis
    requires period != 0.0
  {
    var low := if x >= 0.0 then Fmod(x, period) else Fmod(x, period) + period;
    Axis(low, period - low, low / period)
  }

  /** For a positive period the wrapped coordinate lies in `[0, period)`
      for a non-negative coordinate and in `(0, period]` for a negative one,
      its mirror completes it to the period, and the blend weight lies in
      [0, 1]. */
  lemma WrapRange(x: real, period: real)
    requires period > 0.0
    ensures var a := Wrap(x, period);
      && (x >= 0.0 ==> 0.0 <= a.low < period)
      && (x < 0.0 ==> 0.0 < a.low <= period)
      && 0.0 <= a.t <= 1.0
      && a.low + a.high == period
  {
    WrapLow(x, period);
    WeightInUnit(Wrap(x, period).low, period);
  }

  lemma WrapLow(x: real, period: real)
    requires period > 0.0
    ensures x >= 0.0 ==> 0.0 <= Wrap(x, period).low < period
    ensures x < 0.0 ==> 0.0 < Wrap(x, period).low <= period
  {
    if x >= 0.0 {
      FmodNonNegative(x, period);
    } else {
      FmodNegative(x, period);
    }
  }

  /** For a non-negative `x` the remainder lies in `[0, period)`. */
  lemma FmodNonNegative(x: real, period: real)
    requires period > 0.0 && x >= 0.0
    ensures 0.0 <= Fmod(x, period) < period
  {
    QuotientSign(x, period);
    ScaledFraction(x / period, period);
  }

  /** For a negative `x` the remainder lies in `(−period, 0]`: the
      remainder of `−x` negated. */
  lemma FmodNegative(x: real, period: real)
    requires period > 0.0 && x < 0.0
    ensures -period < Fmod(x, period) <= 0.0
  {
    FmodNonNegative(-x, period);
    FmodOdd(x, period);
  }

  /** Truncation toward zero makes the remainder an odd function of `x`. */
  lemma FmodOdd(x: real, period: real)
    requires period != 0.0
    ensures Fmod(-x, period) == -Fmod(x, period)
  {
    NegatedQuotient(x, period);
    FractionOdd(x / period);
    NegatedProduct(Fraction(x / period), period);
  }

  lemma NegatedQuotient(x: real, period: real)
    requires period != 0.0
    ensures (-x) / period == -(x / period)
  {
    var q := x / period;
    assert q * period == x;
    assert (-q) * period == -x;
  }

  lemma FractionOdd(q: real)
    ensures Fraction(-q) == -Fraction(q)
  {
  }

  lemma NegatedProduct(f: real, period: real)
    ensures (-f) * period == -(f * period)
  {
  }

  /** Dividing by a positive number keeps the sign. */
  lemma QuotientSign(x: real, period: real)
    requires period > 0.0
    ensures x >= 0.0 ==> x / period >= 0.0
    ensures x < 0.0 ==> x / period < 0.0
  {
    var q := x / period;
    assert q * period == x;
    if x >= 0.0 && q < 0.0 {
      MulPositive(-q, period);
    }
    if x < 0.0 && q >= 0.0 {
      MulNonNegative(q, period);
    }
  }

  /** The fractional part of a non-negative `q`, scaled by a positive
      period, lies in `[0, period)`. */
  lemma ScaledFraction(q: real, period: real)
    requires period > 0.0 && q >= 0.0
    ensures 0.0 <= Fraction(q) * period < period
  {
    var f := Fraction(q);
    assert 0.0 <= f < 1.0;
    MulNonNegative(f, period);
    MulPositive(1.0 - f, period);
  }

  lemma WeightInUnit(low: real, period: real)
    requires 0.0 <= low <= period && period > 0.0
    ensures 0.0 <= low / period <= 1.0
  {
    if low > 0.0 {
      DivUnit(low, period);
    }
  }

  /** Adding a period to a non-negative coordinate does not change its
      axis: the lookup repeats with the period. */
  lemma WrapPeriodic(x: real, period: real)
    requires period > 0.0 && x >= 0.0
    ensures Wrap(x + period, period) == Wrap(x, period)
  {
    DivAddDivisor(x, period);
    QuotientSign(x, period);
    FractionShift(x / period);
  }

  /** Whole steps do not change the fractional part of a non-negative
      number. */
  lemma FractionShift(q: real)
    requires q >= 0.0
    ensures Fraction(q + 1.0) == Fraction(q)
  {
    assert Trunc(q + 1.0) == Trunc(q) + 1;
  }

  /** The blend over `axes` (the first axes of the point), with the
      coordinates of the later axes already chosen as `suffix`: the last
      axis blends the lookups at its `low` and at its `high`. */
  function Blend(source: seq<real> -> real, axes: seq<Axis>, suffix: seq<real>): real
    decreases |axes|
  {
    if |axes| == 0 then source(suffix)
    else
      var a := axes[|axes| - 1];
      Lerp(a.t, Blend(source, axes[..|axes| - 1], [a.low] + suffix),
                Blend(source, axes[..|axes| - 1], [a.high] + suffix))
  }

  /** With every blend weight in [0, 1], the blend stays within the bounds
      of the source. */
  lemma {:induction false} BlendBounded(source: seq<real> -> real, axes: seq<Axis>, suffix: seq<real>, lo: real, hi: real)
    requires forall q :: lo <= source(q) <= hi
    requires forall k :: 0 <= k < |axes| ==> 0.0 <= axes[k].t <= 1.0
    ensures lo <= Blend(source, axes, suffix) <= hi
  {
    if |axes| > 0 {
      var a := axes[|axes| - 1];
      BlendBounded(source, axes[..|axes| - 1], [a.low] + suffix, lo, hi);
      BlendBounded(source, axes[..|axes| - 1], [a.high] + suffix, lo, hi);
    }
  }

  datatype CyclePoint = CyclePoint(xPeriod: real, yPeriod: real, zPeriod: real, uPeriod: real)
  {
    /** `CyclePoint::new`: every period is 1. */
    static function New(): (c: CyclePoint)
      ensures c.xPeriod == 1.0 && c.yPeriod == 1.0 && c.zPeriod == 1.0 && c.uPeriod == 1.0
    {
      CyclePoint(DEFAULT_PERIOD, DEFAULT_PERIOD, DEFAULT_PERIOD, DEFAULT_PERIOD)
    }

    /** `set_x_period`: only the x period changes. */
    function SetXPeriod(value: real): (r: CyclePoint)
      ensures r.xPeriod == value && r.yPeriod == yPeriod && r.zPeriod == zPeriod && r.uPeriod == uPeriod
    {
      this.(xPeriod := value)
    }

    /** `set_y_period`: only the y period changes. */
    function SetYPeriod(value: real): (r: CyclePoint)
      ensures r.yPeriod == value && r.xPeriod == xPeriod && r.zPeriod == zPeriod && r.uPeriod == uPeriod
    {
      this.(yPeriod := value)
    }

    /** `set_z_period`: only the z period changes. */
    function SetZPeriod(value: real): (r: CyclePoint)
      ensures r.zPeriod == value && r.xPeriod == xPeriod && r.yPeriod == yPeriod && r.uPeriod == uPeriod
    {
      this.(zPeriod := value)
    }

    /** `set_u_period`: only the u period changes. */
    function SetUPeriod(value: real): (r: CyclePoint)
      ensures r.uPeriod == value && r.xPeriod == xPeriod && r.yPeriod == yPeriod && r.zPeriod == zPeriod
    {
      this.(uPeriod := value)
    }

    /** The period of axis `k`: x, y, z, u for 0, 1, 2, 3. */
    function Period(k: nat): real
      requires k < 4
    {
      if k == 0 then xPeriod else if k == 1 then yPeriod else if k == 2 then zPeriod else uPeriod
    }

    /** No period of the first `n` axes is zero. */
    predicate NonZeroPeriods(n: nat)
      requires n <= 4
    {
      forall k :: 0 <= k < n ==> Period(k) != 0.0
    }

    /** The axes of a point. */
    function Axes(point: seq<real>): (axes: seq<Axis>)
      requires |point| <= 4 && NonZeroPeriods(|point|)
      ensures |axes| == |point|
    {
      seq(|point|, k requires 0 <= k < |point| => Wrap(point[k], Period(k)))
    }

    /** `get` for 1 to 4 dimensions; `None` when a period is zero, where
        `f64`'s `%` gives NaN. */
    function Value(source: seq<real> -> real, point: seq<real>): Option<real>
      requires 1 <= |point| <= 4
    {
      if NonZeroPeriods(|point|) then Some(Blend(source, Axes(point), [])) else None
    }

    /** With positive periods the output stays within the bounds of the
        source. */
    lemma ValueBounded(source: seq<real> -> real, point: seq<real>, lo: real, hi: real)
      requires 1 <= |point| <= 4
      requires forall k :: 0 <= k < |point| ==> Period(k) > 0.0
      requires forall q :: lo <= source(q) <= hi
      ensures Value(source, point).Some?
      ensures lo <= Value(source, point).value <= hi
    {
      var axes := Axes(point);
      forall k | 0 <= k < |axes|
        ensures 0.0 <= axes[k].t <= 1.0
      {
        WrapRange(point[k], Period(k));
      }
      BlendBounded(source, axes, [], lo, hi);
    }

    /** The output repeats along every axis with a positive period: moving a
        non-negative coordinate on by its period does not change it. */
    lemma ValuePeriodic(source: seq<real> -> real, point: seq<real>, k: nat)
      requires 1 <= |point| <= 4 && k < |point|
      requires NonZeroPeriods(|point|) && Period(k) > 0.0 && point[k] >= 0.0
      ensures Value(source, point[k := point[k] + Period(k)]) == Value(source, point)
    {
      WrapPeriodic(point[k], Period(k));
      assert Axes(point[k := point[k] + Period(k)]) == Axes(point);
    }

    /** In one dimension the output joins up across the ends of the period:
        the coordinate `−period` wraps to `period` and reads the same as 0. */
    lemma SeamJoins(source: seq<real> -> real)
      requires xPeriod > 0.0
      ensures Value(source, [-xPeriod]) == Value(source, [0.0])
    {
      assert -xPeriod / xPeriod == -1.0;
      assert Trunc(-xPeriod / xPeriod) == -1;
      assert Trunc(0.0 / xPeriod) == 0;
      assert xPeriod / xPeriod == 1.0;
      assert Wrap(-xPeriod, xPeriod) == Axis(xPeriod, 0.0, 1.0);
      assert Wrap(0.0, xPeriod) == Axis(0.0, xPeriod, 0.0);
      assert Axes([-xPeriod]) == [Axis(xPeriod, 0.0, 1.0)];
      assert Axes([0.0]) == [Axis(0.0, xPeriod, 0.0)];
    }
  }
}
