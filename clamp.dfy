/** The `Clamp` modifier: clamps its source's value to `bounds`, by
    `math::clamp` (lower bound tested first). The source is evaluated by
    the caller: `get` is given its value. */
module ClampModifier {
  import Numeric

  const DEFAULT_LOWER_BOUND: real := -1.0
  const DEFAULT_UPPER_BOUND: real := 1.0

  /** `bounds = (lower, upper)`. */
  datatype Clamp = Clamp(lower: real, upper: real)
  {
    /** `Clamp::new`: bounds (−1, 1). */
    static function New(): (c: Clamp)
      ensures c.lower == -1.0 && c.upper == 1.0
    {
      Clamp(DEFAULT_LOWER_BOUND, DEFAULT_UPPER_BOUND)
    }

    /** `set_lower_bound`: only `bounds.0` changes. */
    function SetLowerBound(value: real): (r: Clamp)
      ensures r.lower == value && r.upper == upper
    {
      this.(lower := value)
    }

    /** `set_upper_bound`: only `bounds.1` changes. */
    function SetUpperBound(value: real): (r: Clamp)
      ensures r.upper == value && r.lower == lower
    {
      this.(upper := value)
    }

    /** `set_bounds`: both bounds change. */
    function SetBounds(lowerBound: real, upperBound: real): (r: Clamp)
      ensures r.lower == lowerBound && r.upper == upperBound
    {
      Clamp(lowerBound, upperBound)
    }

    /** `get`, given the source's value. */
    function Value(v: real): real
    {
      Numeric.Clamp(v, lower, upper)
    }

    /** With ordered bounds the output lies within them, a value already
        within them passes through unchanged, and clamping twice is
        clamping once. */
    lemma ValueInBounds(v: real)
      requires lower <= upper
      ensures lower <= Value(v) <= upper
      ensures lower <= v <= upper ==> Value(v) == v
      ensures Value(Value(v)) == Value(v)
    {
    }

    /** With crossed bounds the lower bound wins below it and the upper
        bound everywhere else. */
    lemma CrossedBounds(v: real)
      requires upper < lower
      ensures v < lower ==> Value(v) == lower
      ensures lower <= v ==> Value(v) == upper
    {
    }
  }
}
