/** `Select`: outputs the value of `source2` when the control function's
    value lies within the selection range `[lower_bound, upper_bound]`, and
    the value of `source1` outside it. A positive edge falloff replaces each
    bound with a band `2·falloff` wide in which the two values are blended
    along the cubic S-curve. The three source functions are evaluated by
    the caller: `get` is given the control value and the two source
    values. */
module Select {
  import opened Numeric
  import opened Interpolate
  import opened SCurve

  const DEFAULT_LOWER_BOUND: real := 0.0
  const DEFAULT_UPPER_BOUND: real := 1.0
  const DEFAULT_EDGE_FALLOFF: real := 0.0

  /** The blend weight across the band `[lowerCurve, upperCurve)`: the
      S-curve of the relative position of `control` in it. */
  function BandAlpha(control: real, lowerCurve: real, upperCurve: real): real
    requires lowerCurve < upperCurve
  {
    SCurve.Cubic((control - lowerCurve) / (upperCurve - lowerCurve))
  }

  datatype Select = Select(lowerBound: real, upperBound: real, edgeFalloff: real)
  {
    /** `Select::new`: bounds (0, 1), no falloff. */
    static function New(): (s: Select)
      ensures s.lowerBound == 0.0 && s.upperBound == 1.0 && s.edgeFalloff == 0.0
    {
      Select(DEFAULT_LOWER_BOUND, DEFAULT_UPPER_BOUND, DEFAULT_EDGE_FALLOFF)
    }

    /** `set_bounds`: both bounds change, the falloff does not. */
    function SetBounds(lower: real, upper: real): (r: Select)
      ensures r.lowerBound == lower && r.upperBound == upper
      ensures r.edgeFalloff == edgeFalloff
    {
      this.(lowerBound := lower, upperBound := upper)
    }

    /** `set_edge_falloff`: only the falloff changes. */
    function SetEdgeFalloff(falloff: real): (r: Select)
      ensures r.edgeFalloff == falloff
      ensures r.lowerBound == lowerBound && r.upperBound == upperBound
    {
      this.(edgeFalloff := falloff)
    }

    /** `get`, given the control value and the values of `source1` and
        `source2` at the point. */
    function Value(control: real, value1: real, value2: real): real
    {
      if edgeFalloff > 0.0 then
        if control < lowerBound - edgeFalloff then value1
        else if control < lowerBound + edgeFalloff then
          Linear(value1, value2, BandAlpha(control, lowerBound - edgeFalloff, lowerBound + edgeFalloff))
        else if control < upperBound - edgeFalloff then value2
        else if control < upperBound + edgeFalloff then
          Linear(value2, value1, BandAlpha(control, upperBound - edgeFalloff, upperBound + edgeFalloff))
        else value1
      else if control < lowerBound || control > upperBound then value1
      else value2
    }

    /** Without falloff the selection is sharp: `source2` inside the closed
        range, `source1` outside it. */
    lemma SharpSelection(control: real, value1: real, value2: real)
      requires edgeFalloff <= 0.0
      ensures lowerBound <= control <= upperBound ==> Value(control, value1, value2) == value2
      ensures !(lowerBound <= control <= upperBound) ==> Value(control, value1, value2) == value1
    {
    }

    /** With a falloff, a control value below `lower − falloff`, or at or
        above both `lower + falloff` and `upper + falloff`, selects
        `source1`; one in `[lower + falloff, upper − falloff)` selects
        `source2`. */
    lemma FalloffSelection(control: real, value1: real, value2: real)
      requires edgeFalloff > 0.0
      ensures control < lowerBound - edgeFalloff ==> Value(control, value1, value2) == value1
      ensures lowerBound + edgeFalloff <= control < upperBound - edgeFalloff ==>
        Value(control, value1, value2) == value2
      ensures lowerBound + edgeFalloff <= control && upperBound + edgeFalloff <= control ==>
        Value(control, value1, value2) == value1
    {
    }

    /** The output is never outside the two source values: the bands blend
        them with a weight in [0, 1]. */
    lemma ValueBetweenSources(control: real, value1: real, value2: real)
      ensures Min(value1, value2) <= Value(control, value1, value2) <= Max(value1, value2)
    {
      if edgeFalloff > 0.0 {
        if lowerBound - edgeFalloff <= control < lowerBound + edgeFalloff {
          BandAlphaInUnit(control, lowerBound - edgeFalloff, lowerBound + edgeFalloff);
        } else if upperBound - edgeFalloff <= control < upperBound + edgeFalloff {
          BandAlphaInUnit(control, upperBound - edgeFalloff, upperBound + edgeFalloff);
        }
      }
    }

    /** The lower band starts at `source1`: at `lower − falloff` the blend
        weight is 0. */
    lemma LowerBandStartsAtSource1(value1: real, value2: real)
      requires edgeFalloff > 0.0
      ensures Value(lowerBound - edgeFalloff, value1, value2) == value1
    {
      assert BandAlpha(lowerBound - edgeFalloff, lowerBound - edgeFalloff, lowerBound + edgeFalloff) == 0.0;
    }
  }

  /** Inside its band the blend weight lies in [0, 1]. */
  lemma BandAlphaInUnit(control: real, lowerCurve: real, upperCurve: real)
    requires lowerCurve <= control < upperCurve
    ensures 0.0 <= BandAlpha(control, lowerCurve, upperCurve) <= 1.0
  {
    if lowerCurve < control {
      DivUnit(control - lowerCurve, upperCurve - lowerCurve);
    }
    CubicBounds((control - lowerCurve) / (upperCurve - lowerCurve));
  }
}
