/** Scalar arithmetic as the library performs it on `f64`, `isize` and `u32`,
    with `real` standing in for `f64` and unbounded integers for the machine
    integers; the conversions and wrap-arounds that matter are written out. */
module Numeric {

  /** `x as isize` on an `f64`: truncation toward zero (saturation at the ends of
      the isize range is not modelled). */
  function Trunc(x: real): (r: int)
    ensures 0.0 <= x ==> r as real <= x < r as real + 1.0
    ensures x < 0.0 ==> r as real - 1.0 < x <= r as real
  {
    if x >= 0.0 then x.Floor else -((-x).Floor)
  }

  /** `clamp(val, min, max)`: lower bound tested first, then upper bound. */
  function Clamp(v: real, lo: real, hi: real): (r: real)
    ensures lo <= hi ==> lo <= r <= hi
    ensures lo <= v <= hi ==> r == v
    ensures v < lo ==> r == lo
    ensures lo <= v && hi < v ==> r == hi
  {
    if v < lo then lo else if v > hi then hi else v
  }

  function Abs(x: real): (r: real)
    ensures r >= 0.0 && (r == x || r == -x)
  {
    if x < 0.0 then -x else x
  }

  function Max(a: real, b: real): (r: real)
    ensures r >= a && r >= b && (r == a || r == b)
  {
    if a < b then b else a
  }

  function Min(a: real, b: real): (r: real)
    ensures r <= a && r <= b && (r == a || r == b)
  {
    if a < b then a else b
  }

  lemma MulNonNegative(a: real, b: real)
    requires 0.0 <= a && 0.0 <= b
    ensures 0.0 <= a * b
  {
  }

  lemma MulPositive(a: real, b: real)
    requires 0.0 < a && 0.0 < b
    ensures 0.0 < a * b
  {
  }

  lemma MulNonZero(a: real, b: real)
    requires a != 0.0 && b != 0.0
    ensures a * b != 0.0
  {
    if a > 0.0 {
      if b > 0.0 { MulPositive(a, b); } else { MulPositive(a, -b); }
    } else {
      if b > 0.0 { MulPositive(-a, b); } else { MulPositive(-a, -b); }
    }
  }

  /** Dividing `a + g` by `g` is one more than dividing `a`. */
  lemma DivAddDivisor(a: real, g: real)
    requires g != 0.0
    ensures (a + g) / g == a / g + 1.0
  {
    var z := (a + g) / g - a / g - 1.0;
    assert z * g == ((a + g) / g) * g - (a / g) * g - g;
    if z != 0.0 {
      if g > 0.0 {
        if z > 0.0 { MulPositive(z, g); } else { MulPositive(-z, g); }
      } else {
        if z > 0.0 { MulPositive(z, -g); } else { MulPositive(-z, -g); }
      }
    }
  }

  /** `powi`: `b` raised to a natural exponent. */
  function Pow(b: real, n: nat): real
  {
    if n == 0 then 1.0 else b * Pow(b, n - 1)
  }

  lemma {:induction false} PowBounds(b: real, n: nat)
    requires 0.0 <= b <= 1.0
    ensures 0.0 <= Pow(b, n) <= 1.0
  {
    if n > 0 {
      PowBounds(b, n - 1);
      assert b * Pow(b, n - 1) <= 1.0 * Pow(b, n - 1);
    }
  }

  lemma {:induction false} PowNonNegative(b: real, n: nat)
    requires b >= 0.0
    ensures Pow(b, n) >= 0.0
  {
    if n > 0 {
      PowNonNegative(b, n - 1);
      MulNonNegative(b, Pow(b, n - 1));
    }
  }

  /** A number in [0, 1] scales a non-negative `b` into [0, b]. */
  lemma ScaledUnit(a: real, b: real)
    requires 0.0 <= a <= 1.0 && 0.0 <= b
    ensures 0.0 <= a * b <= b
  {
    MulNonNegative(a, b);
    MulNonNegative(1.0 - a, b);
  }

  /** A non-zero number over itself is 1. */
  lemma DivSelf(d: real)
    requires d != 0.0
    ensures d / d == 1.0
  {
  }

  /** A positive number over a larger one lies in (0, 1]. */
  lemma DivUnit(a: real, s: real)
    requires 0.0 < a <= s
    ensures 0.0 < a / s <= 1.0
  {
    var q := a / s;
    assert q * s == a;
    if q <= 0.0 {
      MulNonNegative(-q, s);
    } else if q > 1.0 {
      MulPositive(q - 1.0, s);
    }
  }

  /** A factor in [-1, 1] keeps a value within `[-b, b]`. */
  lemma SignedUnit(w: real, s: real, b: real)
    requires -1.0 <= w <= 1.0 && -b <= s <= b
    ensures -b <= w * s <= b
  {
    MulNonNegative(1.0 - w, b - s);
    MulNonNegative(1.0 + w, b + s);
    MulNonNegative(1.0 - w, b + s);
    MulNonNegative(1.0 + w, b - s);
  }

  /** `x & 0xff` on a two's-complement integer: the low eight bits, which are
      the Euclidean remainder modulo 256 for negative `x` as well. */
  function Low8(x: int): (r: int)
    ensures 0 <= r < 256
    ensures (x - r) % 256 == 0
  {
    x % 256
  }

  /** Exclusive or of two byte values. */
  function Xor8(a: int, b: int): (r: int)
    requires 0 <= a < 256 && 0 <= b < 256
    ensures 0 <= r < 256
  {
    ((a as bv8) ^ (b as bv8)) as int
  }

  const U32_MODULUS: int := 0x1_0000_0000

  /** `a + b` on `u32` with wrap-around on overflow. */
  function WrappingAddU32(a: nat, b: nat): (r: nat)
    requires a < U32_MODULUS && b < U32_MODULUS
    ensures r < U32_MODULUS
    ensures a + b < U32_MODULUS ==> r == a + b
    ensures a + b >= U32_MODULUS ==> r == a + b - U32_MODULUS
  {
    (a + b) % U32_MODULUS
  }

  /** `f64::MAX` (`max_value()`). */
  const F64_MAX: real := 179769313486231570000000000000000000000000000000000000000000000000000000000000000000000000000000000000000000000000000000000000000000000000000000000000000000000000000000000000000000000000000000000000000000000000000000000000000000000000000000000000000000000000000000000000000000000000000000000000000.0

  /** `f64::EPSILON`, 2^-52: the spacing the control-point lists keep. */
  const F64_EPSILON: real := 0.0000000000000002220446049250313080847263336181640625
}
