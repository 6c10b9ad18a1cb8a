/** Turbulence: before reading its source, the point is displaced along
    each axis by a fractal Brownian motion "distort function" sampled at the
    point plus a fixed offset, times the power. The x, y, z and u distort
    functions are seeded `seed`, `seed + 1`, `seed + 2` and `seed + 3`; the
    roughness is their octave count. */
module Turbulence {
  import opened Wrappers
  import opened Numeric
  import opened Fractals
  import Fbm

  const DEFAULT_SEED: nat := 0
  const DEFAULT_FREQUENCY: real := 1.0
  const DEFAULT_POWER: real := 1.0
  const DEFAULT_ROUGHNESS: nat := 3

  /** The numerators, over 65536, of the offsets added to the point before
      sampling distort function `k` (row) along axis `i` (column). The 2D
      and 3D `get` use the leading rows and columns of this table. */
  const OFFSET_NUMERATORS: seq<seq<nat>> := [
    [12414, 65124, 31337, 57948],
    [26519, 18128, 60943, 48513],
    [53820, 11213, 44845, 39357],
    [18128, 44845, 12414, 60943]
  ]

  /** The offset for distort function `k` along axis `i`. */
  function Offset(k: nat, i: nat): real
    requires k < 4 && i < 4
  {
    OFFSET_NUMERATORS[k][i] as real / 65536.0
  }

  /** The point distort function `k` samples: the point plus row `k` of the
      offsets. */
  function SamplePoint(point: seq<real>, k: nat): (q: seq<real>)
    requires |point| <= 4 && k < 4
    ensures |q| == |point|
  {
    seq(|point|, i requires 0 <= i < |point| => point[i] + Offset(k, i))
  }

  /** Every offset lies strictly between 0 and 1. */
  lemma OffsetInUnit(k: nat, i: nat)
    requires k < 4 && i < 4
    ensures 0.0 < Offset(k, i) < 1.0
  {
    var row := OFFSET_NUMERATORS[k];
    assert 0 < row[i] < 65536 by {
      assert row == OFFSET_NUMERATORS[0] || row == OFFSET_NUMERATORS[1]
        || row == OFFSET_NUMERATORS[2] || row == OFFSET_NUMERATORS[3];
    }
  }

  /** The offsets keep a sampled coordinate away from the integers: an
      integer coordinate `c` is sampled strictly between `c` and `c + 1`,
      where Perlin noise is not pinned to zero. */
  lemma SampleOffLattice(point: seq<real>, k: nat, i: nat, c: int)
    requires |point| <= 4 && k < 4 && i < |point| && point[i] == c as real
    ensures c as real < SamplePoint(point, k)[i] < c as real + 1.0
    ensures SamplePoint(point, k)[i].Floor == c
  {
    OffsetInUnit(k, i);
  }

  /** A distort function as turbulence keeps it: a valid generator seeded
      `seed + k` (wrapping), with the turbulence's roughness as its octave
      count (clamped as `set_octaves` does), the turbulence's frequency and
      the default fBm persistence. */
  predicate DistortValid(f: Fbm.Fbm, seed: nat, k: nat, roughness: nat, frequency: real)
    requires seed < U32_MODULUS && k < 4
  {
    f.Valid() && f.seed == WrappingAddU32(seed, k) && f.octaves == ClampOctaves(roughness)
    && f.frequency == frequency && f.persistence == Fbm.DEFAULT_PERSISTENCE
  }

  /** The distort function `Fbm::default().set_seed(seed).set_octaves(roughness)
      .set_frequency(frequency)` that `new` builds. */
  function NewDistort(seed: nat): (f: Fbm.Fbm)
    requires seed < U32_MODULUS
    ensures f.Valid() && f.seed == seed && f.octaves == DEFAULT_ROUGHNESS
    ensures f.frequency == DEFAULT_FREQUENCY && f.persistence == Fbm.DEFAULT_PERSISTENCE
  {
    Fbm.Fbm.New().SetSeed(seed).SetOctaves(DEFAULT_ROUGHNESS).SetFrequency(DEFAULT_FREQUENCY)
  }

  datatype Turbulence = Turbulence(frequency: real, power: real, roughness: nat, seed: nat,
                                   xDistort: Fbm.Fbm, yDistort: Fbm.Fbm, zDistort: Fbm.Fbm, uDistort: Fbm.Fbm)
  {
    /** What `new` establishes and every setter keeps: distort function `k`
        is seeded `seed + k` and follows the roughness and frequency. */
    predicate Valid()
    {
      seed < U32_MODULUS
      && DistortValid(xDistort, seed, 0, roughness, frequency)
      && DistortValid(yDistort, seed, 1, roughness, frequency)
      && DistortValid(zDistort, seed, 2, roughness, frequency)
      && DistortValid(uDistort, seed, 3, roughness, frequency)
    }

    /** Distort function `k`: x, y, z, u for 0, 1, 2, 3. */
    function Distort(k: nat): Fbm.Fbm
      requires k < 4
    {
      if k == 0 then xDistort else if k == 1 then yDistort else if k == 2 then zDistort else uDistort
    }

    /** `Turbulence::new`. */
    static function New(): (t: Turbulence)
      ensures t.Valid()
      ensures t.seed == DEFAULT_SEED && t.frequency == DEFAULT_FREQUENCY
      ensures t.power == DEFAULT_POWER && t.roughness == DEFAULT_ROUGHNESS
    {
      Turbulence(DEFAULT_FREQUENCY, DEFAULT_POWER, DEFAULT_ROUGHNESS, DEFAULT_SEED,
                 NewDistort(DEFAULT_SEED), NewDistort(DEFAULT_SEED + 1),
                 NewDistort(DEFAULT_SEED + 2), NewDistort(DEFAULT_SEED + 3))
    }

    /** `set_frequency`: the frequency of the turbulence and of its four
        distort functions changes, and nothing else. */
    function SetFrequency(value: real): (r: Turbulence)
      ensures r.frequency == value && r.power == power && r.roughness == roughness && r.seed == seed
      ensures forall k :: 0 <= k < 4 ==> r.Distort(k) == Distort(k).SetFrequency(value)
      ensures Valid() ==> r.Valid()
    {
      this.(frequency := value,
            xDistort := xDistort.SetFrequency(value), yDistort := yDistort.SetFrequency(value),
            zDistort := zDistort.SetFrequency(value), uDistort := uDistort.SetFrequency(value))
    }

    /** `set_power`: only the power changes. */
    function SetPower(value: real): (r: Turbulence)
      ensures r.power == value
      ensures r == this.(power := r.power)
      ensures Valid() ==> r.Valid()
    {
      this.(power := value)
    }

    /** `set_roughness`: the roughness becomes the octave count of all four
        distort functions. */
    function SetRoughness(value: nat): (r: Turbulence)
      requires Valid()
      ensures r.roughness == value && r.frequency == frequency && r.power == power && r.seed == seed
      ensures forall k :: 0 <= k < 4 ==> r.Distort(k) == Distort(k).SetOctaves(value)
      ensures r.Valid()
    {
      this.(roughness := value,
            xDistort := xDistort.SetOctaves(value), yDistort := yDistort.SetOctaves(value),
            zDistort := zDistort.SetOctaves(value), uDistort := uDistort.SetOctaves(value))
    }

    /** `set_seed`: distort function `k` is reseeded with `value + k`. */
    function SetSeed(value: nat): (r: Turbulence)
      requires value < U32_MODULUS
      ensures r.seed == value && r.frequency == frequency && r.power == power && r.roughness == roughness
      ensures forall k :: 0 <= k < 4 ==> r.Distort(k) == Distort(k).SetSeed(WrappingAddU32(value, k))
      ensures Valid() ==> r.Valid()
    {
      this.(seed := value,
            xDistort := xDistort.SetSeed(value), yDistort := yDistort.SetSeed(WrappingAddU32(value, 1)),
            zDistort := zDistort.SetSeed(WrappingAddU32(value, 2)), uDistort := uDistort.SetSeed(WrappingAddU32(value, 3)))
    }

    /** Coordinate `k` of the displaced point: the coordinate plus distort
        function `k` at the sample point, times the power; `None` when that
        distort function panics. */
    function Displaced(noise: NoiseSource, point: seq<real>, k: nat): Option<real>
      requires k < |point| <= 4
    {
      match Distort(k).Value(noise, SamplePoint(point, k))
      case None => None
      case Some(d) => Some(point[k] + d * power)
    }

    /** `get` for 2, 3 and 4 dimensions: the source read at the displaced
        point, `None` when a distort function panics. The source is the
        caller-supplied `source`. */
    function Value(noise: NoiseSource, source: seq<real> -> real, point: seq<real>): Option<real>
      requires 2 <= |point| <= 4
    {
      if forall k :: 0 <= k < |point| ==> Displaced(noise, point, k).Some? then
        Some(source(seq(|point|, k requires 0 <= k < |point| => Displaced(noise, point, k).value)))
      else None
    }

    /** For sources in [-1, 1] no distort function panics, and every
        coordinate moves by at most the power. */
    lemma DisplacementBounded(noise: NoiseSource, point: seq<real>, k: nat)
      requires Valid() && Bounded(noise) && 0.0 <= power && k < |point| <= 4
      ensures Displaced(noise, point, k).Some?
      ensures -power <= Displaced(noise, point, k).value - point[k] <= power
    {
      var f := Distort(k);
      f.HalfPersistenceInRange(noise, SamplePoint(point, k));
      SignedUnit(f.Value(noise, SamplePoint(point, k)).value, power, power);
    }

    /** With a power of 0 the point is not moved: `get` reads the source at
        the point itself. */
    lemma ZeroPowerReadsPoint(noise: NoiseSource, source: seq<real> -> real, point: seq<real>)
      requires Valid() && Bounded(noise) && power == 0.0 && 2 <= |point| <= 4
      ensures Value(noise, source, point) == Some(source(point))
    {
      forall k | 0 <= k < |point|
        ensures Displaced(noise, point, k) == Some(point[k])
      {
        DisplacementBounded(noise, point, k);
      }
      assert seq(|point|, k requires 0 <= k < |point| => Displaced(noise, point, k).value) == point;
    }
  }
}
