/** The interpolation helpers shared by the noise functions. */
module Interpolate {
  import opened Numeric

  /** `linear(a, b, alpha)`: the blend `b·alpha + a·(1 − alpha)`. */
  function Linear(a: real, b: real, alpha: real): (r: real)
    ensures alpha == 0.0 ==> r == a
    ensures alpha == 1.0 ==> r == b
    ensures a == b ==> r == a
    ensures 0.0 <= alpha <= 1.0 ==> Min(a, b) <= r <= Max(a, b)
  {
    LinearBetween(a, b, alpha);
    b * alpha + a * (1.0 - alpha)
  }

  lemma LinearBetween(a: real, b: real, alpha: real)
    ensures 0.0 <= alpha <= 1.0 ==> Min(a, b) <= b * alpha + a * (1.0 - alpha) <= Max(a, b)
  {
    if !(0.0 <= alpha <= 1.0) {
      return;
    }
    var r := b * alpha + a * (1.0 - alpha);
    assert r - a == alpha * (b - a);
    assert r - b == (1.0 - alpha) * (a - b);
    if a <= b {
      MulNonNegative(alpha, b - a);
      MulNonNegative(1.0 - alpha, b - a);
    } else {
      MulNonNegative(alpha, a - b);
      MulNonNegative(1.0 - alpha, a - b);
    }
  }

  /** `cubic(n0, n1, n2, n3, alpha)`: the cubic through the two middle values,
      shaped by the outer ones. */
  function Cubic(n0: real, n1: real, n2: real, n3: real, alpha: real): (r: real)
    ensures alpha == 0.0 ==> r == n1
    ensures alpha == 1.0 ==> r == n2
  {
    var p := (n3 - n2) - (n0 - n1);
    var q := (n0 - n1) - p;
    var r := n2 - n0;
    var s := n1;
    p * alpha * alpha * alpha + q * alpha * alpha + r * alpha + s
  }
}
