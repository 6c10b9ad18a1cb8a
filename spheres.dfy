/** Spheres noise: concentric shells around the origin, one unit apart. The
    point is scaled by the frequency, and the output falls from 1 on a shell
    to -1 halfway between two shells. */
module Spheres {
  import opened Numeric
  import opened Vectors

  /** `magnitude` is the length of `v`: the non-negative square root of its
      squared magnitude (the square root itself is not modelled). */
  predicate IsMagnitude(v: seq<real>, magnitude: real)
  {
    magnitude >= 0.0 && magnitude * magnitude == MagnitudeSquared(v)
  }

  /** The distance from `d` to the nearer of the two whole numbers around
      it: `min(d − floor(d), 1 − (d − floor(d)))`. */
  function NearestShell(d: real): (r: real)
    ensures 0.0 <= r <= 0.5
    ensures r == 0.0 <==> d == d.Floor as real
    ensures r == 0.5 <==> d - d.Floor as real == 0.5
  {
    var smaller := d - d.Floor as real;
    var larger := 1.0 - smaller;
    Min(smaller, larger)
  }

  /** `spheres_2d`, `spheres_3d`, `spheres_4d`: with the scaled point's
      length given as `magnitude`, `1 − 4·nearest_dist`. */
  function Spheres(point: seq<real>, frequency: real, magnitude: real): (r: real)
    requires 2 <= |point| <= 4 && IsMagnitude(MulScalar(point, frequency), magnitude)
    ensures -1.0 <= r <= 1.0
    ensures r == 1.0 <==> magnitude == magnitude.Floor as real
    ensures r == -1.0 <==> magnitude - magnitude.Floor as real == 0.5
  {
    1.0 - NearestShell(magnitude) * 4.0
  }

  /** A non-negative number is fixed by its square. */
  lemma RootIsUnique(a: real, b: real)
    requires a >= 0.0 && b >= 0.0 && a * a == b * b
    ensures a == b
  {
    if a < b {
      assert (b - a) * (b + a) == b * b - a * a;
      MulPositive(b - a, b + a);
    } else if b < a {
      assert (a - b) * (a + b) == a * a - b * b;
      MulPositive(a - b, a + b);
    }
  }

  /** The output depends on the point only through the length of the scaled
      point: two points whose scaled squared magnitudes agree give the same
      output. */
  lemma SpheresDependsOnMagnitude(p: seq<real>, q: seq<real>, frequency: real, mp: real, mq: real)
    requires 2 <= |p| <= 4 && IsMagnitude(MulScalar(p, frequency), mp)
    requires 2 <= |q| <= 4 && IsMagnitude(MulScalar(q, frequency), mq)
    requires MagnitudeSquared(MulScalar(p, frequency)) == MagnitudeSquared(MulScalar(q, frequency))
    ensures Spheres(p, frequency, mp) == Spheres(q, frequency, mq)
  {
    RootIsUnique(mp, mq);
  }

  /** The origin lies on a shell: the output there is 1. */
  lemma SpheresAtOrigin(point: seq<real>, frequency: real, magnitude: real)
    requires 2 <= |point| <= 4 && IsMagnitude(MulScalar(point, frequency), magnitude)
    requires forall i :: 0 <= i < |point| ==> point[i] == 0.0
    ensures Spheres(point, frequency, magnitude) == 1.0
  {
    var scaled := MulScalar(point, frequency);
    assert scaled == Broadcast(0.0, |point|);
    DotOfZero(|point|);
    assert MagnitudeSquared(scaled) == 0.0;
    RootIsUnique(magnitude, 0.0);
  }

  lemma {:induction false} DotOfZero(n: nat)
    ensures DotOf(Broadcast(0.0, n), Broadcast(0.0, n)) == 0.0
  {
    if n > 0 {
      assert Broadcast(0.0, n)[..n - 1] == Broadcast(0.0, n - 1);
      DotOfZero(n - 1);
    }
  }

  /** Scaling happens before measuring: the output for `point` at
      `frequency` is the output for the scaled point at frequency 1. */
  lemma SpheresScalesFirst(point: seq<real>, frequency: real, magnitude: real)
    requires 2 <= |point| <= 4 && IsMagnitude(MulScalar(point, frequency), magnitude)
    ensures IsMagnitude(MulScalar(MulScalar(point, frequency), 1.0), magnitude)
    ensures Spheres(point, frequency, magnitude) == Spheres(MulScalar(point, frequency), 1.0, magnitude)
  {
    assert MulScalar(MulScalar(point, frequency), 1.0) == MulScalar(point, frequency);
  }
}
