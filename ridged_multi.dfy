/** Ridged multifractal noise: each octave's source value is folded into a
    ridge `(1 − |v|)²`, weighted by a weight carried over from the previous
    octave, and the weight for the next octave is this octave's signal
    attenuated and clamped to [0, 1]. */
module RidgedMulti {
  import opened Wrappers
  import opened Numeric
  import opened Vectors
  import opened Fractals

  const DEFAULT_SEED: nat := 0
  const DEFAULT_OCTAVE_COUNT: nat := 6
  const DEFAULT_FREQUENCY: real := 1.0
  const DEFAULT_LACUNARITY: real := 2.0
  const DEFAULT_PERSISTENCE: real := 1.0
  const DEFAULT_ATTENUATION: real := 2.0

  /** How the next weight is derived from the signal: divided by the
      attenuation (2D and 3D) or multiplied by it (4D as written). */
  datatype WeightRule = DivideByAttenuation | MultiplyByAttenuation

  /** The weight for the next octave, before the clamp. */
  function RawWeight(rule: WeightRule, signal: real, attenuation: real): real
    requires rule.DivideByAttenuation? ==> attenuation != 0.0
  {
    match rule
    case DivideByAttenuation => signal / attenuation
    case MultiplyByAttenuation => signal * attenuation
  }

  /** The running `result` and `weight` of the octave loop. */
  datatype Accum = Accum(result: real, weight: real)

  /** The ridge of a source value: `(1 − |v|)²`, never negative. */
  function Ridge(v: real): (r: real)
    ensures r >= 0.0
    ensures -1.0 <= v <= 1.0 ==> r <= 1.0
  {
    var s := 1.0 - Abs(v);
    SquareBounds(s);
    s * s
  }

  /** The signal of an octave: the ridge of its source value times the
      weight carried into it. */
  function Signal(v: real, weight: real): real
  {
    Ridge(v) * weight
  }

  /** For a source value in [-1, 1] and a weight in [0, 1] the signal lies
      in [0, weight]. */
  lemma SignalBounds(v: real, weight: real)
    requires -1.0 <= v <= 1.0 && 0.0 <= weight <= 1.0
    ensures 0.0 <= Signal(v, weight) <= weight
  {
    ScaledUnit(Ridge(v), weight);
  }

  lemma SquareBounds(s: real)
    ensures s * s >= 0.0
    ensures 0.0 <= s <= 1.0 ==> s * s <= 1.0
  {
    MulNonNegative(Abs(s), Abs(s));
    assert s * s == Abs(s) * Abs(s);
    if 0.0 <= s <= 1.0 {
      MulNonNegative(1.0 - s, s);
    }
  }

  datatype RidgedMulti = RidgedMulti(octaves: nat, frequency: real, lacunarity: real, persistence: real,
                                     attenuation: real, seed: nat, sources: seq<nat>)
  {
    /** What `new` establishes and every setter keeps. */
    predicate Valid()
    {
      seed < U32_MODULUS && 1 <= octaves <= MAX_OCTAVES && sources == Sources(seed, octaves)
    }

    /** `RidgedMulti::new`. */
    static function New(): (f: RidgedMulti)
      ensures f.Valid()
      ensures f.octaves == DEFAULT_OCTAVE_COUNT && f.seed == DEFAULT_SEED
      ensures f.frequency == DEFAULT_FREQUENCY && f.lacunarity == DEFAULT_LACUNARITY
      ensures f.persistence == DEFAULT_PERSISTENCE && f.attenuation == DEFAULT_ATTENUATION
    {
      RidgedMulti(DEFAULT_OCTAVE_COUNT, DEFAULT_FREQUENCY, DEFAULT_LACUNARITY, DEFAULT_PERSISTENCE,
                  DEFAULT_ATTENUATION, DEFAULT_SEED, Sources(DEFAULT_SEED, DEFAULT_OCTAVE_COUNT))
    }

    /** `set_attenuation`: only the attenuation changes. */
    function SetAttenuation(value: real): (r: RidgedMulti)
      ensures r.attenuation == value
      ensures r == this.(attenuation := r.attenuation)
      ensures Valid() ==> r.Valid()
    {
      this.(attenuation := value)
    }

    /** `set_octaves`: the current count returns the generator unchanged;
        any other count is clamped to [1, MAX_OCTAVES] and the sources are
        rebuilt for it. No other field changes. */
    function SetOctaves(count: nat): (r: RidgedMulti)
      requires seed < U32_MODULUS
      ensures count == octaves ==> r == this
      ensures count != octaves ==> 1 <= r.octaves <= MAX_OCTAVES && |r.sources| == r.octaves
      ensures count != octaves && 1 <= count <= MAX_OCTAVES ==> r.octaves == count
      ensures r.frequency == frequency && r.lacunarity == lacunarity && r.persistence == persistence
      ensures r.attenuation == attenuation && r.seed == seed
      ensures Valid() ==> r.Valid()
    {
      if count == octaves then this
      else
        var clamped := ClampOctaves(count);
        this.(octaves := clamped, sources := Sources(seed, clamped))
    }

    /** `set_frequency`: only the frequency changes. */
    function SetFrequency(value: real): (r: RidgedMulti)
      ensures r.frequency == value
      ensures r == this.(frequency := r.frequency)
      ensures Valid() ==> r.Valid()
    {
      this.(frequency := value)
    }

    /** `set_lacunarity`: only the lacunarity changes. */
    function SetLacunarity(value: real): (r: RidgedMulti)
      ensures r.lacunarity == value
      ensures r == this.(lacunarity := r.lacunarity)
      ensures Valid() ==> r.Valid()
    {
      this.(lacunarity := value)
    }

    /** `set_persistence`: only the persistence changes. */
    function SetPersistence(value: real): (r: RidgedMulti)
      ensures r.persistence == value
      ensures r == this.(persistence := r.persistence)
      ensures Valid() ==> r.Valid()
    {
      this.(persistence := value)
    }

    /** `set_seed`: the current seed returns the generator unchanged; any
        other seed rebuilds the sources for the same octave count. */
    function SetSeed(value: nat): (r: RidgedMulti)
      requires value < U32_MODULUS
      ensures value == seed ==> r == this
      ensures r.seed == value && |r.sources| == (if value == seed then |sources| else octaves)
      ensures value != seed ==> forall x :: 0 <= x < octaves ==> r.sources[x] == OctaveSeed(value, x)
      ensures r.octaves == octaves && r.frequency == frequency && r.lacunarity == lacunarity
      ensures r.persistence == persistence && r.attenuation == attenuation
      ensures Valid() ==> r.Valid()
    {
      if value == seed then this
      else this.(seed := value, sources := Sources(value, octaves))
    }

    /** The source value octave `x` reads. */
    function Sample(noise: NoiseSource, point: seq<real>, x: nat): real
      requires x < |sources|
    {
      noise(sources[x], OctavePoint(point, frequency, lacunarity, x))
    }

    /** `result` and `weight` after the first `n` octaves under `rule`. */
    function Accumulate(rule: WeightRule, noise: NoiseSource, point: seq<real>, n: nat): Accum
      requires rule.DivideByAttenuation? ==> attenuation != 0.0
      requires n <= |sources|
    {
      if n == 0 then Accum(0.0, 1.0)
      else
        var prev := Accumulate(rule, noise, point, n - 1);
        Next(rule, prev, Signal(Sample(noise, point, n - 1), prev.weight), Pow(persistence, n - 1))
    }

    /** One octave's update: the signal times the octave's amplitude
        `persistence^x` is added to the result, and the signal under the
        weight rule, clamped to [0, 1], becomes the next weight. */
    function Next(rule: WeightRule, prev: Accum, signal: real, amplitude: real): Accum
      requires rule.DivideByAttenuation? ==> attenuation != 0.0
    {
      Accum(prev.result + signal * amplitude, Clamp(RawWeight(rule, signal, attenuation), 0.0, 1.0))
    }

    /** What `get` returns under a weight rule: `None` when the loop indexes
        past the sources (a panic) or when the scale is zero (no octaves), so
        that `2 / scale` is infinite. The final `scale_shift` is the
        caller-supplied `scaleShift`. */
    function Value(rule: WeightRule, noise: NoiseSource, scaleShift: (real, real) -> real, point: seq<real>): Option<real>
      requires rule.DivideByAttenuation? ==> attenuation != 0.0
    {
      if octaves > |sources| then None
      else
        var scale := 2.0 - PowI(0.5, octaves - 1).value;
        if scale == 0.0 then None
        else Some(scaleShift(Accumulate(rule, noise, point, octaves).result, 2.0 / scale))
    }

    /** `get`: `Get(DivideByAttenuation, ..)` is the 2D and 3D `get`,
        `Get(MultiplyByAttenuation, ..)` the 4D one as written. */
    method Get(rule: WeightRule, noise: NoiseSource, scaleShift: (real, real) -> real, point: seq<real>)
      returns (r: Option<real>)
      requires rule.DivideByAttenuation? ==> attenuation != 0.0
      ensures r == Value(rule, noise, scaleShift, point)
    {
      var result := 0.0;
      var weight := 1.0;
      var p := MulScalar(point, frequency);
      for x := 0 to octaves
        invariant x <= |sources|
        invariant Accum(result, weight) == Accumulate(rule, noise, point, x)
        invariant p == OctavePoint(point, frequency, lacunarity, x)
      {
        if x >= |sources| {
          return None;
        }
        AccumulateStep(rule, noise, point, x);
        result, weight := Octave(rule, noise(sources[x], p), x, result, weight);
        p := MulScalar(p, lacunarity);
      }
      var scale := 2.0 - PowI(0.5, octaves - 1).value;
      if scale == 0.0 {
        return None;
      }
      r := Some(scaleShift(result, 2.0 / scale));
    }

    /** The body of `get`'s loop for octave `x`, whose source value is `v`:
        the ridge of `v`, weighted, attenuated into the next weight and
        scaled by `persistence^x` into the result. */
    method Octave(rule: WeightRule, v: real, x: nat, result: real, weight: real) returns (result': real, weight': real)
      requires rule.DivideByAttenuation? ==> attenuation != 0.0
      ensures Accum(result', weight') == Next(rule, Accum(result, weight), Signal(v, weight), Pow(persistence, x))
    {
      var signal := Abs(v);
      signal := 1.0 - signal;
      signal := signal * signal;
      assert signal == Ridge(v);
      signal := signal * weight;
      assert signal == Signal(v, weight);
      if rule == DivideByAttenuation {
        weight' := signal / attenuation;
      } else {
        weight' := signal * attenuation;
      }
      weight' := Clamp(weight', 0.0, 1.0);
      signal := signal * Pow(persistence, x);
      result' := result + signal;
    }

    /** Every octave adds a non-negative amount no larger than its
        amplitude `persistence^x`, so for sources in [-1, 1] the unscaled
        result of `n` octaves lies in [0, Σ_{x<n} persistence^x], and the
        weight carried into the next octave lies in [0, 1]. */
    lemma {:induction false} ResultBounded(rule: WeightRule, noise: NoiseSource, point: seq<real>, n: nat)
      requires rule.DivideByAttenuation? ==> attenuation != 0.0
      requires Bounded(noise) && 0.0 <= persistence && n <= |sources|
      ensures 0.0 <= Accumulate(rule, noise, point, n).result <= GeometricSum(persistence, n)
      ensures 0.0 <= Accumulate(rule, noise, point, n).weight <= 1.0
    {
      if n > 0 {
        ResultBounded(rule, noise, point, n - 1);
        OctaveAdds(rule, noise, point, n - 1);
      }
    }

    /** Octave `x` adds between 0 and `persistence^x` to the result, and
        leaves a weight in [0, 1]. */
    lemma OctaveAdds(rule: WeightRule, noise: NoiseSource, point: seq<real>, x: nat)
      requires rule.DivideByAttenuation? ==> attenuation != 0.0
      requires 0.0 <= persistence && x < |sources|
      requires -1.0 <= Sample(noise, point, x) <= 1.0
      requires 0.0 <= Accumulate(rule, noise, point, x).weight <= 1.0
      ensures var r := Accumulate(rule, noise, point, x + 1).result - Accumulate(rule, noise, point, x).result;
        0.0 <= r <= Pow(persistence, x)
      ensures 0.0 <= Accumulate(rule, noise, point, x + 1).weight <= 1.0
    {
      var prev := Accumulate(rule, noise, point, x);
      SignalBounds(Sample(noise, point, x), prev.weight);
      PowNonNegative(persistence, x);
      NextAdds(rule, prev, Signal(Sample(noise, point, x), prev.weight), Pow(persistence, x));
      AccumulateStep(rule, noise, point, x);
    }

    /** A signal in [0, 1] adds between 0 and the amplitude to the result;
        the next weight lies in [0, 1] whatever the signal. */
    lemma NextAdds(rule: WeightRule, prev: Accum, signal: real, amplitude: real)
      requires rule.DivideByAttenuation? ==> attenuation != 0.0
      requires 0.0 <= signal <= 1.0 && 0.0 <= amplitude
      ensures 0.0 <= Next(rule, prev, signal, amplitude).result - prev.result <= amplitude
      ensures 0.0 <= Next(rule, prev, signal, amplitude).weight <= 1.0
    {
      ScaledUnit(signal, amplitude);
    }

    /** One octave's step of the loop. */
    lemma AccumulateStep(rule: WeightRule, noise: NoiseSource, point: seq<real>, x: nat)
      requires rule.DivideByAttenuation? ==> attenuation != 0.0
      requires x < |sources|
      ensures var prev := Accumulate(rule, noise, point, x);
        Accumulate(rule, noise, point, x + 1) == Next(rule, prev, Signal(Sample(noise, point, x), prev.weight), Pow(persistence, x))
    {
    }

    /** With at least one octave the scale lies in [1, 2), so the factor
        `2 / scale` handed to `scale_shift` lies in (1, 2]. */
    lemma ScaleFactor()
      requires octaves >= 1
      ensures var scale := 2.0 - PowI(0.5, octaves - 1).value;
        1.0 <= scale < 2.0 && 1.0 < 2.0 / scale <= 2.0
    {
      HalfScaleBounds(octaves);
      var scale := 2.0 - Pow(0.5, octaves - 1);
      var f := 2.0 / scale;
      assert f * scale == 2.0;
      if f <= 1.0 {
        MulNonNegative(1.0 - f, scale);
      }
      if f > 2.0 {
        MulPositive(f - 2.0, scale);
      }
    }
  }

  /** As written, the 4D `get` multiplies the signal by the attenuation:
      with the default attenuation 2 a signal of 1/4 carries a weight of
      1/2 into the next octave, larger than the signal itself, where
      dividing gives 1/8. */
  lemma MultipliedWeightGrows()
    ensures Clamp(RawWeight(MultiplyByAttenuation, 0.25, DEFAULT_ATTENUATION), 0.0, 1.0) == 0.5
    ensures Clamp(RawWeight(DivideByAttenuation, 0.25, DEFAULT_ATTENUATION), 0.0, 1.0) == 0.125
  {
  }

  /** The same discrepancy over two octaves of a generator with the
      default persistence and attenuation, whose first two octaves read 0
      (a full ridge of 1): multiplying keeps the second octave's weight at 1
      and the result reaches 2. */
  lemma MultipliedWeightKeepsFullRidges(g: RidgedMulti, noise: NoiseSource, point: seq<real>)
    requires g.persistence == DEFAULT_PERSISTENCE && g.attenuation == DEFAULT_ATTENUATION
    requires |g.sources| >= 2
    requires g.Sample(noise, point, 0) == 0.0 && g.Sample(noise, point, 1) == 0.0
    ensures g.Accumulate(MultiplyByAttenuation, noise, point, 2).result == 2.0
  {
    var first := Accum(1.0, 1.0);
    assert Signal(0.0, 1.0) == 1.0;
    assert Pow(g.persistence, 0) == 1.0 && Pow(g.persistence, 1) == 1.0;
    assert RawWeight(MultiplyByAttenuation, 1.0, g.attenuation) == 2.0;
    g.AccumulateStep(MultiplyByAttenuation, noise, point, 0);
    assert g.Accumulate(MultiplyByAttenuation, noise, point, 1) == first;
    g.AccumulateStep(MultiplyByAttenuation, noise, point, 1);
  }

  /** For the same generator and sources, dividing halves the second
      octave's weight and the result is 3/2. */
  lemma DividedWeightHalvesSecondRidge(g: RidgedMulti, noise: NoiseSource, point: seq<real>)
    requires g.persistence == DEFAULT_PERSISTENCE && g.attenuation == DEFAULT_ATTENUATION
    requires |g.sources| >= 2
    requires g.Sample(noise, point, 0) == 0.0 && g.Sample(noise, point, 1) == 0.0
    ensures g.Accumulate(DivideByAttenuation, noise, point, 2).result == 1.5
  {
    var first := Accum(1.0, 0.5);
    assert Signal(0.0, 1.0) == 1.0 && Signal(0.0, 0.5) == 0.5;
    assert Pow(g.persistence, 0) == 1.0 && Pow(g.persistence, 1) == 1.0;
    assert RawWeight(DivideByAttenuation, 1.0, g.attenuation) == 0.5;
    g.AccumulateStep(DivideByAttenuation, noise, point, 0);
    assert g.Accumulate(DivideByAttenuation, noise, point, 1) == first;
    g.AccumulateStep(DivideByAttenuation, noise, point, 1);
  }

  /** Dividing by an attenuation of at least 1, as the 2D and 3D `get` do
      and as the attenuation is documented to act, never lets the weight
      exceed the signal it comes from, so each octave's ridges are at most
      as strong as the previous octave's. */
  lemma DividedWeightAttenuates(signal: real, attenuation: real)
    requires 0.0 <= signal <= 1.0 && attenuation >= 1.0
    ensures 0.0 <= Clamp(RawWeight(DivideByAttenuation, signal, attenuation), 0.0, 1.0) <= signal
  {
    var w := signal / attenuation;
    assert w * attenuation == signal;
    if w < 0.0 {
      MulPositive(-w, attenuation);
    }
    if w > signal {
      MulNonNegative(w, attenuation - 1.0);
    }
  }
}
