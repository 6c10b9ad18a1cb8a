/** Fractal Brownian motion: the sum of the octaves' source values, octave
    `x` sampled at `point · frequency · lacunarity^x` and weighted by
    `persistence^x`, divided by `2 − persistence^(octaves−1)`. */
module Fbm {
  import opened Wrappers
  import opened Numeric
  import opened Vectors
  import opened Fractals

  const DEFAULT_SEED: nat := 0
  const DEFAULT_OCTAVE_COUNT: nat := 6
  const DEFAULT_FREQUENCY: real := 1.0
  const DEFAULT_LACUNARITY: real := 2.0
  const DEFAULT_PERSISTENCE: real := 0.5

  /** The generator's fields; the setters consume the value and return an
      updated one. `seed` and `sources` are private, the rest public. */
  datatype Fbm = Fbm(octaves: nat, frequency: real, lacunarity: real, persistence: real,
                     seed: nat, sources: seq<nat>)
  {
    /** What `new` establishes and every setter keeps: a `u32` seed, an
        octave count in [1, MAX_OCTAVES], and the sources built for both. */
    predicate Valid()
    {
      seed < U32_MODULUS && 1 <= octaves <= MAX_OCTAVES && sources == Sources(seed, octaves)
    }

    /** `Fbm::new`. */
    static function New(): (f: Fbm)
      ensures f.Valid()
      ensures f.octaves == DEFAULT_OCTAVE_COUNT && f.seed == DEFAULT_SEED
      ensures f.frequency == DEFAULT_FREQUENCY && f.lacunarity == DEFAULT_LACUNARITY
      ensures f.persistence == DEFAULT_PERSISTENCE
    {
      Fbm(DEFAULT_OCTAVE_COUNT, DEFAULT_FREQUENCY, DEFAULT_LACUNARITY, DEFAULT_PERSISTENCE,
          DEFAULT_SEED, Sources(DEFAULT_SEED, DEFAULT_OCTAVE_COUNT))
    }

    /** `set_octaves`: the current count returns the generator unchanged;
        any other count is clamped to [1, MAX_OCTAVES] and the sources are
        rebuilt for it. No other field changes. */
    function SetOctaves(count: nat): (r: Fbm)
      requires seed < U32_MODULUS
      ensures count == octaves ==> r == this
      ensures count != octaves ==> 1 <= r.octaves <= MAX_OCTAVES && |r.sources| == r.octaves
      ensures count != octaves && 1 <= count <= MAX_OCTAVES ==> r.octaves == count
      ensures r.frequency == frequency && r.lacunarity == lacunarity
      ensures r.persistence == persistence && r.seed == seed
      ensures Valid() ==> r.Valid()
    {
      if count == octaves then this
      else
        var clamped := ClampOctaves(count);
        this.(octaves := clamped, sources := Sources(seed, clamped))
    }

    /** `set_frequency`: only the frequency changes. */
    function SetFrequency(value: real): (r: Fbm)
      ensures r.frequency == value
      ensures r == this.(frequency := r.frequency)
      ensures Valid() ==> r.Valid()
    {
      this.(frequency := value)
    }

    /** `set_lacunarity`: only the lacunarity changes. */
    function SetLacunarity(value: real): (r: Fbm)
      ensures r.lacunarity == value
      ensures r == this.(lacunarity := r.lacunarity)
      ensures Valid() ==> r.Valid()
    {
      this.(lacunarity := value)
    }

    /** `set_persistence`: only the persistence changes. */
    function SetPersistence(value: real): (r: Fbm)
      ensures r.persistence == value
      ensures r == this.(persistence := r.persistence)
      ensures Valid() ==> r.Valid()
    {
      this.(persistence := value)
    }

    /** `set_seed`: the current seed returns the generator unchanged; any
        other seed rebuilds the sources for the same octave count. */
    function SetSeed(value: nat): (r: Fbm)
      requires value < U32_MODULUS
      ensures value == seed ==> r == this
      ensures r.seed == value && |r.sources| == (if value == seed then |sources| else octaves)
      ensures value != seed ==> forall x :: 0 <= x < octaves ==> r.sources[x] == OctaveSeed(value, x)
      ensures r.octaves == octaves && r.frequency == frequency
      ensures r.lacunarity == lacunarity && r.persistence == persistence
      ensures Valid() ==> r.Valid()
    {
      if value == seed then this
      else this.(seed := value, sources := Sources(value, octaves))
    }

    /** The sum of the first `n` octaves: octave `x` adds the value of
        source `x` at its octave point, times `persistence^x`. */
    function OctaveSum(noise: NoiseSource, point: seq<real>, n: nat): real
      requires n <= |sources|
    {
      if n == 0 then 0.0
      else
        OctaveSum(noise, point, n - 1)
        + noise(sources[n - 1], OctavePoint(point, frequency, lacunarity, n - 1)) * Pow(persistence, n - 1)
    }

    /** What `get` returns: `None` when the loop indexes past the sources (a
        panic) or when the scale `2 − persistence^(octaves−1)` is zero or
        infinite, so that the `f64` quotient is not a finite number. */
    function Value(noise: NoiseSource, point: seq<real>): Option<real>
    {
      if octaves > |sources| then None
      else
        match PowI(persistence, octaves - 1)
        case None => None
        case Some(q) =>
          if 2.0 - q == 0.0 then None else Some(OctaveSum(noise, point, octaves) / (2.0 - q))
    }

    /** `get` for 2, 3 and 4 dimensions. */
    method Get(noise: NoiseSource, point: seq<real>) returns (r: Option<real>)
      ensures r == Value(noise, point)
    {
      var result := 0.0;
      var p := MulScalar(point, frequency);
      for x := 0 to octaves
        invariant x <= |sources|
        invariant result == OctaveSum(noise, point, x)
        invariant p == OctavePoint(point, frequency, lacunarity, x)
      {
        if x >= |sources| {
          return None;
        }
        var signal := noise(sources[x], p);
        signal := signal * Pow(persistence, x);
        result := result + signal;
        p := MulScalar(p, lacunarity);
      }
      var q := PowI(persistence, octaves - 1);
      if q.None? {
        return None;
      }
      var scale := 2.0 - q.value;
      if scale == 0.0 {
        return None;
      }
      r := Some(result / scale);
    }

    /** With one octave the scale is `2 − persistence^0 = 1`, so `get` is the
        first source at `point · frequency`. */
    lemma SingleOctave(noise: NoiseSource, point: seq<real>)
      requires Valid() && octaves == 1
      ensures Value(noise, point) == Some(noise(seed, MulScalar(point, frequency)))
    {
      assert sources[0] == OctaveSeed(seed, 0);
      assert OctaveSum(noise, point, 1) == noise(sources[0], MulScalar(point, frequency));
    }

    /** With source values in [-1, 1] and a non-negative persistence, the
        first `n` octaves add up to at most `Σ_{x<n} persistence^x` in
        magnitude. */
    lemma {:induction false} OctaveSumBounded(noise: NoiseSource, point: seq<real>, n: nat)
      requires Bounded(noise) && 0.0 <= persistence && n <= |sources|
      ensures -GeometricSum(persistence, n) <= OctaveSum(noise, point, n) <= GeometricSum(persistence, n)
    {
      if n > 0 {
        OctaveSumBounded(noise, point, n - 1);
        OctaveAdds(noise, point, n - 1);
      }
    }

    /** Octave `x` adds at most its amplitude `persistence^x` in magnitude. */
    lemma OctaveAdds(noise: NoiseSource, point: seq<real>, x: nat)
      requires 0.0 <= persistence && x < |sources|
      requires -1.0 <= noise(sources[x], OctavePoint(point, frequency, lacunarity, x)) <= 1.0
      ensures var d := OctaveSum(noise, point, x + 1) - OctaveSum(noise, point, x);
        -Pow(persistence, x) <= d <= Pow(persistence, x)
    {
      PowNonNegative(persistence, x);
      SignedUnit(noise(sources[x], OctavePoint(point, frequency, lacunarity, x)), Pow(persistence, x), Pow(persistence, x));
    }

    /** With the default persistence of 1/2 and source values in [-1, 1],
        the scale is exactly the largest sum the octaves can reach, so `get`
        never panics and its output lies in [-1, 1]. */
    lemma HalfPersistenceInRange(noise: NoiseSource, point: seq<real>)
      requires Valid() && persistence == 0.5 && Bounded(noise)
      ensures Value(noise, point).Some?
      ensures -1.0 <= Value(noise, point).value <= 1.0
    {
      OctaveSumBounded(noise, point, octaves);
      HalfGeometricSum(octaves);
      HalfScaleBounds(octaves);
      DivWithinUnit(OctaveSum(noise, point, octaves), 2.0 - Pow(0.5, octaves - 1));
    }
  }

  /** The default generator's output lies in [-1, 1] for sources in
      [-1, 1]. */
  lemma DefaultInRange(noise: NoiseSource, point: seq<real>)
    requires Bounded(noise)
    ensures Fbm.New().Value(noise, point).Some?
    ensures -1.0 <= Fbm.New().Value(noise, point).value <= 1.0
  {
    Fbm.New().HalfPersistenceInRange(noise, point);
  }
}
