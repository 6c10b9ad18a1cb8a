/** What the fractal generators share: one Perlin source per octave, each
    seeded one higher than the last; the octave-count clamp; the point each
    octave samples; and `powi`. Every generator has the four `MultiFractal`
    setters (octaves, frequency, lacunarity, persistence) and `set_seed`. */
module Fractals {
  import opened Wrappers
  import opened Numeric
  import opened Vectors

  /** The most octaves a generator accepts (`FBM_MAX_OCTAVES` and its
      siblings). */
  const MAX_OCTAVES: nat := 32

  /** A Perlin source is fixed by its seed, so a generator's sources are the
      list of their seeds, and evaluating source `s` at a point is the
      caller-supplied function `noise(s, point)`. */
  type NoiseSource = (nat, seq<real>) -> real

  /** Every source value lies in [-1, 1]. */
  ghost predicate Bounded(noise: NoiseSource)
  {
    forall s: nat, q: seq<real> :: -1.0 <= noise(s, q) <= 1.0
  }

  /** The seed of octave `x`: `seed + x as u32`, wrapping on overflow. */
  function OctaveSeed(seed: nat, x: nat): (s: nat)
    requires seed < U32_MODULUS
    ensures s < U32_MODULUS
  {
    WrappingAddU32(seed, x % U32_MODULUS)
  }

  /** The sources `build_sources(seed, octaves)` returns. */
  function Sources(seed: nat, octaves: nat): seq<nat>
    requires seed < U32_MODULUS
  {
    seq(octaves, x requires 0 <= x < octaves => OctaveSeed(seed, x))
  }

  /** `build_sources`: one source per octave, pushed in order, octave `x`
      seeded with `seed + x`. */
  method BuildSources(seed: nat, octaves: nat) returns (sources: seq<nat>)
    requires seed < U32_MODULUS
    ensures |sources| == octaves
    ensures forall x :: 0 <= x < octaves ==> sources[x] == OctaveSeed(seed, x)
    ensures sources == Sources(seed, octaves)
  {
    sources := [];
    for x := 0 to octaves
      invariant |sources| == x
      invariant forall k :: 0 <= k < x ==> sources[k] == OctaveSeed(seed, k)
    {
      sources := sources + [OctaveSeed(seed, x)];
    }
  }

  /** While there are no more than 2^32 octaves, no two octaves share a
      seed. */
  lemma SourcesDistinct(seed: nat, octaves: nat, i: nat, j: nat)
    requires seed < U32_MODULUS && octaves <= U32_MODULUS
    requires i < j < octaves
    ensures Sources(seed, octaves)[i] != Sources(seed, octaves)[j]
  {
    assert i % U32_MODULUS == i && j % U32_MODULUS == j;
  }

  /** `math::clamp(octaves, 1, MAX_OCTAVES)`. */
  function ClampOctaves(octaves: nat): (r: nat)
    ensures 1 <= r <= MAX_OCTAVES
    ensures 1 <= octaves <= MAX_OCTAVES ==> r == octaves
    ensures octaves < 1 ==> r == 1
    ensures octaves > MAX_OCTAVES ==> r == MAX_OCTAVES
  {
    if octaves < 1 then 1 else if octaves > MAX_OCTAVES then MAX_OCTAVES else octaves
  }

  /** The point octave `x` samples: `point · frequency`, then multiplied by
      the lacunarity once after each earlier octave. */
  function OctavePoint(point: seq<real>, frequency: real, lacunarity: real, x: nat): (p: seq<real>)
    ensures |p| == |point|
  {
    if x == 0 then MulScalar(point, frequency)
    else MulScalar(OctavePoint(point, frequency, lacunarity, x - 1), lacunarity)
  }

  /** Octave `x` samples the point scaled by `frequency · lacunarity^x`. */
  lemma {:induction false} OctavePointIsGeometric(point: seq<real>, frequency: real, lacunarity: real, x: nat, i: nat)
    requires i < |point|
    ensures OctavePoint(point, frequency, lacunarity, x)[i] == point[i] * frequency * Pow(lacunarity, x)
  {
    if x > 0 {
      OctavePointIsGeometric(point, frequency, lacunarity, x - 1, i);
    }
  }

  /** `powi` with an `i32` exponent: a negative exponent divides, and `None`
      stands for the infinity that dividing by a zero power gives. */
  function PowI(b: real, n: int): (r: Option<real>)
    ensures n >= 0 ==> r == Some(Pow(b, n))
    ensures r.None? <==> n < 0 && b == 0.0
    ensures n < 0 && b != 0.0 ==> r.Some? && r.value * Pow(b, -n) == 1.0
  {
    if n >= 0 then Some(Pow(b, n))
    else if b == 0.0 then None
    else
      PowNonZero(b, -n);
      Some(1.0 / Pow(b, -n))
  }

  lemma {:induction false} PowNonZero(b: real, n: nat)
    requires b != 0.0
    ensures Pow(b, n) != 0.0
  {
    if n > 0 {
      PowNonZero(b, n - 1);
      MulNonZero(b, Pow(b, n - 1));
    }
  }

  /** The sum of the first `n` powers of `b`, `Σ_{x<n} b^x`. */
  function GeometricSum(b: real, n: nat): real
  {
    if n == 0 then 0.0 else GeometricSum(b, n - 1) + Pow(b, n - 1)
  }

  /** The sum of the first `n >= 1` powers of 1/2 is `2 − (1/2)^(n−1)`: the
      scale fbm and ridged-multi noise divide by is the largest amplitude
      their octaves can add up to. */
  lemma {:induction false} HalfGeometricSum(n: nat)
    requires n >= 1
    ensures GeometricSum(0.5, n) == 2.0 - Pow(0.5, n - 1)
  {
    if n > 1 {
      HalfGeometricSum(n - 1);
      assert Pow(0.5, n - 1) == 0.5 * Pow(0.5, n - 2);
    }
  }

  /** The scale `2 − (1/2)^(octaves−1)` lies in [1, 2) for one octave or
      more. */
  lemma HalfScaleBounds(octaves: nat)
    requires octaves >= 1
    ensures 1.0 <= 2.0 - Pow(0.5, octaves - 1) < 2.0
  {
    PowBounds(0.5, octaves - 1);
    PowPositive(0.5, octaves - 1);
  }

  lemma {:induction false} PowPositive(b: real, n: nat)
    requires b > 0.0
    ensures Pow(b, n) > 0.0
  {
    if n > 0 {
      PowPositive(b, n - 1);
      MulPositive(b, Pow(b, n - 1));
    }
  }

  /** A quotient of a number by a larger positive one lies in [-1, 1]. */
  lemma DivWithinUnit(a: real, s: real)
    requires s > 0.0 && -s <= a <= s
    ensures -1.0 <= a / s <= 1.0
  {
    var q := a / s;
    assert q * s == a;
    if q > 1.0 {
      MulPositive(q - 1.0, s);
    } else if q < -1.0 {
      MulPositive(-1.0 - q, s);
    }
  }
}
