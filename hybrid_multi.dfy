/** Hybrid multifractal noise: the first octave sets both the result and a
    weight; every later octave is added in multiplied by the weight, which
    is then multiplied by that octave's signal, so valleys (small signals)
    damp the octaves that follow. */
module HybridMulti {
  import opened Wrappers
  import opened Numeric
  import opened Vectors
  import opened Fractals

  const DEFAULT_SEED: nat := 0
  const DEFAULT_OCTAVE_COUNT: nat := 6
  const DEFAULT_FREQUENCY: real := 2.0
  const DEFAULT_LACUNARITY: real := 2.0
  const DEFAULT_PERSISTENCE: real := 0.25

  /** The "prevent divergence" step applied to the weight before each later
      octave: raised to at least 1 (`weight.max(1.0)`, as written) or capped
      at 1 (as the comment and the earlier `if weight > 1` intend). */
  datatype Guard = RaiseToOne | CapAtOne

  function Guarded(guard: Guard, weight: real): real
  {
    match guard
    case RaiseToOne => Max(weight, 1.0)
    case CapAtOne => if weight > 1.0 then 1.0 else weight
  }

  /** Raising never gives less than 1 and leaves exactly 1 for a weight of
      at most 1; capping never gives more than 1 or than the weight, and
      leaves a weight of at most 1 unchanged. */
  lemma GuardedBounds(guard: Guard, weight: real)
    ensures var w := Guarded(guard, weight);
      (guard.RaiseToOne? ==> w >= 1.0 && (weight <= 1.0 <==> w == 1.0))
      && (guard.CapAtOne? ==> w <= 1.0 && w <= weight && (weight <= 1.0 <==> w == weight))
  {
  }

  /** The running `result` and `weight` of the octave loop. */
  datatype Accum = Accum(result: real, weight: real)

  datatype HybridMulti = HybridMulti(octaves: nat, frequency: real, lacunarity: real, persistence: real,
                                     seed: nat, sources: seq<nat>)
  {
    /** What `new` establishes and every setter keeps. */
    predicate Valid()
    {
      seed < U32_MODULUS && 1 <= octaves <= MAX_OCTAVES && sources == Sources(seed, octaves)
    }

    /** `HybridMulti::new`. */
    static function New(): (f: HybridMulti)
      ensures f.Valid()
      ensures f.octaves == DEFAULT_OCTAVE_COUNT && f.seed == DEFAULT_SEED
      ensures f.frequency == DEFAULT_FREQUENCY && f.lacunarity == DEFAULT_LACUNARITY
      ensures f.persistence == DEFAULT_PERSISTENCE
    {
      HybridMulti(DEFAULT_OCTAVE_COUNT, DEFAULT_FREQUENCY, DEFAULT_LACUNARITY, DEFAULT_PERSISTENCE,
                  DEFAULT_SEED, Sources(DEFAULT_SEED, DEFAULT_OCTAVE_COUNT))
    }

    /** `set_octaves`: the current count returns the generator unchanged;
        any other count is clamped to [1, MAX_OCTAVES] and the sources are
        rebuilt for it. No other field changes. */
    function SetOctaves(count: nat): (r: HybridMulti)
      requires seed < U32_MODULUS
      ensures count == octaves ==> r == this
      ensures count != octaves ==> 1 <= r.octaves <= MAX_OCTAVES && |r.sources| == r.octaves
      ensures count != octaves && 1 <= count <= MAX_OCTAVES ==> r.octaves == count
      ensures r.frequency == frequency && r.lacunarity == lacunarity
      ensures r.persistence == persistence && r.seed == seed
      ensures Valid() ==> r.Valid()
    {
      if count == octaves then this
      else
        var clamped := ClampOctaves(count);
        this.(octaves := clamped, sources := Sources(seed, clamped))
    }

    /** `set_frequency`: only the frequency changes. */
    function SetFrequency(value: real): (r: HybridMulti)
      ensures r.frequency == value
      ensures r == this.(frequency := r.frequency)
      ensures Valid() ==> r.Valid()
    {
      this.(frequency := value)
    }

    /** `set_lacunarity`: only the lacunarity changes. */
    function SetLacunarity(value: real): (r: HybridMulti)
      ensures r.lacunarity == value
      ensures r == this.(lacunarity := r.lacunarity)
      ensures Valid() ==> r.Valid()
    {
      this.(lacunarity := value)
    }

    /** `set_persistence`: only the persistence changes. */
    function SetPersistence(value: real): (r: HybridMulti)
      ensures r.persistence == value
      ensures r == this.(persistence := r.persistence)
      ensures Valid() ==> r.Valid()
    {
      this.(persistence := value)
    }

    /** `set_seed`: the current seed returns the generator unchanged; any
        other seed rebuilds the sources for the same octave count. */
    function SetSeed(value: nat): (r: HybridMulti)
      requires value < U32_MODULUS
      ensures value == seed ==> r == this
      ensures r.seed == value && |r.sources| == (if value == seed then |sources| else octaves)
      ensures value != seed ==> forall x :: 0 <= x < octaves ==> r.sources[x] == OctaveSeed(value, x)
      ensures r.octaves == octaves && r.frequency == frequency
      ensures r.lacunarity == lacunarity && r.persistence == persistence
      ensures Valid() ==> r.Valid()
    {
      if value == seed then this
      else this.(seed := value, sources := Sources(value, octaves))
    }

    /** The value of source `x` at its octave point. */
    function Sample(noise: NoiseSource, point: seq<real>, x: nat): real
      requires x < |sources|
    {
      noise(sources[x], OctavePoint(point, frequency, lacunarity, x))
    }

    /** The first octave's value: source 0 times the persistence. */
    function First(noise: NoiseSource, point: seq<real>): real
      requires 1 <= |sources|
    {
      Sample(noise, point, 0) * persistence
    }

    /** `result` and `weight` after the first `n >= 1` octaves: the first
        octave sets both to its value times the persistence; octave `x >= 1`
        adds its value times `persistence^x` multiplied by the guarded
        weight, and multiplies the guarded weight by the same amount. */
    function Accumulate(guard: Guard, noise: NoiseSource, point: seq<real>, n: nat): Accum
      requires 1 <= n <= |sources|
    {
      if n == 1 then Accum(First(noise, point), First(noise, point))
      else
        Step(guard, Accumulate(guard, noise, point, n - 1), Sample(noise, point, n - 1), n - 1)
    }

    /** What `get` returns under a guard: `None` when `sources[0]` or the
        loop indexes past the sources (a panic); otherwise the result of
        `max(octaves, 1)` octaves (with no octaves the loop does not run),
        times 3. */
    function Value(guard: Guard, noise: NoiseSource, point: seq<real>): Option<real>
    {
      if |sources| == 0 || octaves > |sources| then None
      else Some(Accumulate(guard, noise, point, if octaves == 0 then 1 else octaves).result * 3.0)
    }

    /** `get` for 2, 3 and 4 dimensions under a guard: `Get(RaiseToOne, ..)`
        is the source as written (`weight.max(1.0)`), `Get(CapAtOne, ..)`
        the weight capped at 1 as intended. */
    method Get(guard: Guard, noise: NoiseSource, point: seq<real>) returns (r: Option<real>)
      ensures r == Value(guard, noise, point)
    {
      if |sources| == 0 {
        return None;
      }
      var p := MulScalar(point, frequency);
      var result := noise(sources[0], p) * persistence;
      assert result == First(noise, point);
      var weight := result;
      var x := 1;
      while x < octaves
        invariant 1 <= x <= |sources|
        invariant x <= octaves || x == 1
        invariant Accum(result, weight) == Accumulate(guard, noise, point, x)
        invariant p == OctavePoint(point, frequency, lacunarity, x - 1)
      {
        if x >= |sources| {
          return None;
        }
        AccumulateStep(guard, noise, point, x);
        p := MulScalar(p, lacunarity);
        result, weight := Octave(guard, noise(sources[x], p), x, result, weight);
        x := x + 1;
      }
      r := Some(result * 3.0);
    }

    /** The body of `get`'s loop for a later octave `x` whose source value
        is `v`: guard the weight, then add the weighted, `persistence^x`-scaled
        value to the result and make it the next weight. */
    method Octave(guard: Guard, v: real, x: nat, result: real, weight: real) returns (result': real, weight': real)
      ensures Accum(result', weight') == Step(guard, Accum(result, weight), v, x)
    {
      var w := Guarded(guard, weight);
      var signal := v;
      signal := signal * Pow(persistence, x);
      result' := result + w * signal;
      weight' := w * signal;
    }

    /** One later octave `x` whose source value is `v`: its value times
        `persistence^x`, times the guarded weight, is added to the result
        and becomes the next weight. */
    function Step(guard: Guard, prev: Accum, v: real, x: nat): Accum
    {
      var w := Guarded(guard, prev.weight);
      var signal := v * Pow(persistence, x);
      Accum(prev.result + w * signal, w * signal)
    }

    /** One later octave's step of the loop. */
    lemma AccumulateStep(guard: Guard, noise: NoiseSource, point: seq<real>, x: nat)
      requires 1 <= x < |sources|
      ensures Accumulate(guard, noise, point, x + 1)
        == Step(guard, Accumulate(guard, noise, point, x), Sample(noise, point, x), x)
    {
    }

    /** With one octave the loop does not run: `get` is the first source at
        `point · frequency`, times the persistence, times 3. */
    lemma SingleOctave(guard: Guard, noise: NoiseSource, point: seq<real>)
      requires Valid() && octaves == 1
      ensures Value(guard, noise, point) == Some(noise(seed, MulScalar(point, frequency)) * persistence * 3.0)
    {
      assert sources[0] == OctaveSeed(seed, 0) == seed;
      assert Sample(noise, point, 0) == noise(seed, MulScalar(point, frequency));
      assert Accumulate(guard, noise, point, 1).result == noise(seed, MulScalar(point, frequency)) * persistence;
      assert Value(guard, noise, point) == Some(Accumulate(guard, noise, point, 1).result * 3.0);
    }

    /** The sum of the octaves with no weighting: the first octave's value
        times the persistence, plus octave `x`'s value times
        `persistence^x` for each later octave. */
    function Unweighted(noise: NoiseSource, point: seq<real>, n: nat): real
      requires 1 <= n <= |sources|
    {
      if n == 1 then Sample(noise, point, 0) * persistence
      else Unweighted(noise, point, n - 1) + Sample(noise, point, n - 1) * Pow(persistence, n - 1)
    }

    /** As written, raising the weight to at least 1 switches the weighting
        off: for sources in [-1, 1] and a persistence in [0, 1] every weight
        stays in [-1, 1], so the guarded weight is always exactly 1 and the
        result is the unweighted sum of the octaves. */
    lemma {:induction false} RaisedWeightIsOne(noise: NoiseSource, point: seq<real>, n: nat)
      requires Bounded(noise) && 0.0 <= persistence <= 1.0 && 1 <= n <= |sources|
      ensures -1.0 <= Accumulate(RaiseToOne, noise, point, n).weight <= 1.0
      ensures Guarded(RaiseToOne, Accumulate(RaiseToOne, noise, point, n).weight) == 1.0
      ensures Accumulate(RaiseToOne, noise, point, n).result == Unweighted(noise, point, n)
    {
      var cur := Accumulate(RaiseToOne, noise, point, n);
      if n == 1 {
        SampleBounded(noise, point, 0);
        FirstOctaveBounded(noise, point);
        assert cur.result == cur.weight == First(noise, point) == Unweighted(noise, point, 1);
      } else {
        RaisedWeightIsOne(noise, point, n - 1);
        SampleBounded(noise, point, n - 1);
        RaisedOctave(noise, point, n - 1);
        var amount := Sample(noise, point, n - 1) * Pow(persistence, n - 1);
        assert Unweighted(noise, point, n) == Unweighted(noise, point, n - 1) + amount;
      }
      GuardedBounds(RaiseToOne, cur.weight);
    }

    /** A later octave under the raised guard, entered with a weight in
        [-1, 1], adds its unweighted amount and leaves the weight in
        [-1, 1]. */
    lemma RaisedOctave(noise: NoiseSource, point: seq<real>, x: nat)
      requires 0.0 <= persistence <= 1.0 && 1 <= x < |sources|
      requires -1.0 <= Sample(noise, point, x) <= 1.0
      requires -1.0 <= Accumulate(RaiseToOne, noise, point, x).weight <= 1.0
      ensures -1.0 <= Accumulate(RaiseToOne, noise, point, x + 1).weight <= 1.0
      ensures Accumulate(RaiseToOne, noise, point, x + 1).result
        == Accumulate(RaiseToOne, noise, point, x).result + Sample(noise, point, x) * Pow(persistence, x)
    {
      var prev := Accumulate(RaiseToOne, noise, point, x);
      GuardedBounds(RaiseToOne, prev.weight);
      PowBounds(persistence, x);
      SignedUnit(Sample(noise, point, x), Pow(persistence, x), 1.0);
      AccumulateStep(RaiseToOne, noise, point, x);
      var signal := Sample(noise, point, x) * Pow(persistence, x);
      assert Guarded(RaiseToOne, prev.weight) == 1.0;
      assert Accumulate(RaiseToOne, noise, point, x + 1).weight == 1.0 * signal == signal;
    }

    /** The first octave's value lies within the persistence. */
    lemma FirstOctaveBounded(noise: NoiseSource, point: seq<real>)
      requires 0.0 <= persistence <= 1.0 && 1 <= |sources|
      requires -1.0 <= Sample(noise, point, 0) <= 1.0
      ensures -persistence <= First(noise, point) <= persistence
    {
      SignedUnit(Sample(noise, point, 0), persistence, persistence);
    }

    /** With the weight capped at 1 as intended, for sources in [-1, 1] and
        a persistence in [0, 1] the weight stays in [-1, 1] and octave `x`
        adds at most its amplitude `persistence^x` in magnitude. */
    lemma {:induction false} CappedWeightBounded(noise: NoiseSource, point: seq<real>, n: nat)
      requires Bounded(noise) && 0.0 <= persistence <= 1.0 && 1 <= n <= |sources|
      ensures -1.0 <= Accumulate(CapAtOne, noise, point, n).weight <= 1.0
      ensures -GeometricSum(persistence, n) <= Accumulate(CapAtOne, noise, point, n).result <= GeometricSum(persistence, n)
    {
      if n == 1 {
        SampleBounded(noise, point, 0);
        FirstOctaveBounded(noise, point);
        assert GeometricSum(persistence, 1) == 1.0;
      } else {
        CappedWeightBounded(noise, point, n - 1);
        SampleBounded(noise, point, n - 1);
        CappedOctaveAdds(noise, point, n - 1);
      }
    }

    /** A later octave under the cap, entered with a weight in [-1, 1], adds
        at most `persistence^x` in magnitude and leaves the weight in
        [-1, 1]. */
    lemma CappedOctaveAdds(noise: NoiseSource, point: seq<real>, x: nat)
      requires 0.0 <= persistence <= 1.0 && 1 <= x < |sources|
      requires -1.0 <= Sample(noise, point, x) <= 1.0
      requires -1.0 <= Accumulate(CapAtOne, noise, point, x).weight <= 1.0
      ensures -1.0 <= Accumulate(CapAtOne, noise, point, x + 1).weight <= 1.0
      ensures var d := Accumulate(CapAtOne, noise, point, x + 1).result - Accumulate(CapAtOne, noise, point, x).result;
        -Pow(persistence, x) <= d <= Pow(persistence, x)
    {
      var prev := Accumulate(CapAtOne, noise, point, x);
      var w := Guarded(CapAtOne, prev.weight);
      GuardedBounds(CapAtOne, prev.weight);
      var a := Pow(persistence, x);
      PowBounds(persistence, x);
      SignedUnit(Sample(noise, point, x), a, a);
      var signal := Sample(noise, point, x) * a;
      SignedUnit(w, signal, a);
      SignedUnit(w, signal, 1.0);
      AccumulateStep(CapAtOne, noise, point, x);
      assert Accumulate(CapAtOne, noise, point, x + 1) == Accum(prev.result + w * signal, w * signal);
    }

    /** Every sample of a source in [-1, 1] lies in [-1, 1]. */
    lemma SampleBounded(noise: NoiseSource, point: seq<real>, x: nat)
      requires Bounded(noise) && x < |sources|
      ensures -1.0 <= Sample(noise, point, x) <= 1.0
    {
    }
  }

  /** Every source value 1/2, persistence 1 and two octaves: as written the
      second octave's weight is raised from 1/2 to 1 and `get` gives 3;
      with the cap the weight stays 1/2 and `get` gives 9/4. */
  lemma RaisedWeightExample(point: seq<real>)
    ensures var g := HybridMulti.New().SetOctaves(2).SetPersistence(1.0);
      var half: NoiseSource := (s, q) => 0.5;
      g.Value(RaiseToOne, half, point) == Some(3.0) && g.Value(CapAtOne, half, point) == Some(2.25)
  {
    var g := HybridMulti.New().SetOctaves(2).SetPersistence(1.0);
    var half: NoiseSource := (s, q) => 0.5;
    assert g.Sample(half, point, 0) == 0.5 && g.Sample(half, point, 1) == 0.5;
    assert Pow(1.0, 1) == 1.0;
    assert g.Accumulate(RaiseToOne, half, point, 2) == Accum(1.0, 0.5);
    assert g.Accumulate(CapAtOne, half, point, 2) == Accum(0.75, 0.25);
  }
}
