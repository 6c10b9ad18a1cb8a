/** Value noise in two to four dimensions: every lattice corner hashes to a
    value in [0, 1], the corner values are blended with the quintic S-curve
    of the in-cell position, and the blend is mapped to [-1, 1]. */
module ValueNoise {
  import opened Interpolate
  import opened SCurve
  import opened PermTable
  import opened Vectors

  /** `(point - floored).map_quintic()`: the weights are defined because the
      in-cell position lies in [0, 1). */
  function Weights(p: seq<real>): (w: seq<real>)
    ensures |w| == |p| && InUnit(w)
    ensures forall i :: 0 <= i < |p| ==> w[i] == Quintic(p[i] - p[i].Floor as real)
  {
    var f := seq(|p|, i requires 0 <= i < |p| => p[i] - p[i].Floor as real);
    MapQuinticAll(f).value
  }

  /** `hash(corner + offset) as f64 / 255.0`, in [0, 1]. */
  function CornerValue(t: PermutationTable, corner: seq<int>, off: seq<int>): (v: real)
    requires t.Valid() && |corner| >= 1 && |off| == |corner|
    ensures 0.0 <= v <= 1.0
    ensures v == Hash(t, AddInt(corner, off)) as real / 255.0
  {
    Hash(t, AddInt(corner, off)) as real / 255.0
  }

  /** A blend of two values in [0, 1] with a weight in [0, 1] stays in [0, 1]. */
  lemma LinearInUnit(a: real, b: real, alpha: real)
    requires 0.0 <= a <= 1.0 && 0.0 <= b <= 1.0 && 0.0 <= alpha <= 1.0
    ensures 0.0 <= Linear(a, b, alpha) <= 1.0
  {
  }

  /** `value_2d`: the output lies in [-1, 1] without any clamp, because the
      blended value `d` lies in [0, 1]. */
  function Value2D(t: PermutationTable, point: seq<real>): (r: real)
    requires t.Valid() && |point| == 2
    ensures -1.0 <= r <= 1.0
  {
    var corner := Floor(point);
    var w := Weights(point);
    var f00 := CornerValue(t, corner, [0, 0]);
    var f10 := CornerValue(t, corner, [1, 0]);
    var f01 := CornerValue(t, corner, [0, 1]);
    var f11 := CornerValue(t, corner, [1, 1]);
    var d0 := Linear(f00, f10, w[0]);
    var d1 := Linear(f01, f11, w[0]);
    LinearInUnit(f00, f10, w[0]);
    LinearInUnit(f01, f11, w[0]);
    var d := Linear(d0, d1, w[1]);
    LinearInUnit(d0, d1, w[1]);
    d * 2.0 - 1.0
  }

  /** At integer coordinates `value_2d` is the hashed corner value mapped to
      [-1, 1]. */
  lemma Value2DAtLattice(t: PermutationTable, point: seq<real>)
    requires t.Valid() && |point| == 2
    requires forall i :: 0 <= i < 2 ==> point[i] == point[i].Floor as real
    ensures Value2D(t, point) == Hash(t, Floor(point)) as real / 255.0 * 2.0 - 1.0
  {
    var corner := Floor(point);
    var w := Weights(point);
    assert w[0] == 0.0 && w[1] == 0.0;
    assert AddInt(corner, [0, 0]) == corner;
  }

  /** `value_3d`: blended along x, then y, then z; the output lies in [-1, 1]. */
  function Value3D(t: PermutationTable, point: seq<real>): (r: real)
    requires t.Valid() && |point| == 3
    ensures -1.0 <= r <= 1.0
  {
    var corner := Floor(point);
    var w := Weights(point);
    var f000 := CornerValue(t, corner, [0, 0, 0]);
    var f100 := CornerValue(t, corner, [1, 0, 0]);
    var f010 := CornerValue(t, corner, [0, 1, 0]);
    var f110 := CornerValue(t, corner, [1, 1, 0]);
    var f001 := CornerValue(t, corner, [0, 0, 1]);
    var f101 := CornerValue(t, corner, [1, 0, 1]);
    var f011 := CornerValue(t, corner, [0, 1, 1]);
    var f111 := CornerValue(t, corner, [1, 1, 1]);
    var d00 := Linear(f000, f100, w[0]);
    LinearInUnit(f000, f100, w[0]);
    var d01 := Linear(f001, f101, w[0]);
    LinearInUnit(f001, f101, w[0]);
    var d10 := Linear(f010, f110, w[0]);
    LinearInUnit(f010, f110, w[0]);
    var d11 := Linear(f011, f111, w[0]);
    LinearInUnit(f011, f111, w[0]);
    var d0 := Linear(d00, d10, w[1]);
    LinearInUnit(d00, d10, w[1]);
    var d1 := Linear(d01, d11, w[1]);
    LinearInUnit(d01, d11, w[1]);
    var d := Linear(d0, d1, w[2]);
    LinearInUnit(d0, d1, w[2]);
    d * 2.0 - 1.0
  }

  /** `value_4d`: blended along x, y, z, then w; the output lies in [-1, 1]. */
  function Value4D(t: PermutationTable, point: seq<real>): (r: real)
    requires t.Valid() && |point| == 4
    ensures -1.0 <= r <= 1.0
  {
    var corner := Floor(point);
    var w := Weights(point);
    var f0000 := CornerValue(t, corner, [0, 0, 0, 0]);
    var f0001 := CornerValue(t, corner, [0, 0, 0, 1]);
    var f0010 := CornerValue(t, corner, [0, 0, 1, 0]);
    var f0011 := CornerValue(t, corner, [0, 0, 1, 1]);
    var f0100 := CornerValue(t, corner, [0, 1, 0, 0]);
    var f0101 := CornerValue(t, corner, [0, 1, 0, 1]);
    var f0110 := CornerValue(t, corner, [0, 1, 1, 0]);
    var f0111 := CornerValue(t, corner, [0, 1, 1, 1]);
    var f1000 := CornerValue(t, corner, [1, 0, 0, 0]);
    var f1001 := CornerValue(t, corner, [1, 0, 0, 1]);
    var f1010 := CornerValue(t, corner, [1, 0, 1, 0]);
    var f1011 := CornerValue(t, corner, [1, 0, 1, 1]);
    var f1100 := CornerValue(t, corner, [1, 1, 0, 0]);
    var f1101 := CornerValue(t, corner, [1, 1, 0, 1]);
    var f1110 := CornerValue(t, corner, [1, 1, 1, 0]);
    var f1111 := CornerValue(t, corner, [1, 1, 1, 1]);
    var d000 := Linear(f0000, f1000, w[0]);
    LinearInUnit(f0000, f1000, w[0]);
    var d010 := Linear(f0010, f1010, w[0]);
    LinearInUnit(f0010, f1010, w[0]);
    var d100 := Linear(f0100, f1100, w[0]);
    LinearInUnit(f0100, f1100, w[0]);
    var d110 := Linear(f0110, f1110, w[0]);
    LinearInUnit(f0110, f1110, w[0]);
    var d001 := Linear(f0001, f1001, w[0]);
    LinearInUnit(f0001, f1001, w[0]);
    var d011 := Linear(f0011, f1011, w[0]);
    LinearInUnit(f0011, f1011, w[0]);
    var d101 := Linear(f0101, f1101, w[0]);
    LinearInUnit(f0101, f1101, w[0]);
    var d111 := Linear(f0111, f1111, w[0]);
    LinearInUnit(f0111, f1111, w[0]);
    var d00 := Linear(d000, d100, w[1]);
    LinearInUnit(d000, d100, w[1]);
    var d10 := Linear(d010, d110, w[1]);
    LinearInUnit(d010, d110, w[1]);
    var d01 := Linear(d001, d101, w[1]);
    LinearInUnit(d001, d101, w[1]);
    var d11 := Linear(d011, d111, w[1]);
    LinearInUnit(d011, d111, w[1]);
    var d0 := Linear(d00, d10, w[2]);
    LinearInUnit(d00, d10, w[2]);
    var d1 := Linear(d01, d11, w[2]);
    LinearInUnit(d01, d11, w[2]);
    var d := Linear(d0, d1, w[3]);
    LinearInUnit(d0, d1, w[3]);
    d * 2.0 - 1.0
  }
}
