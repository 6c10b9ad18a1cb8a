/** Classic gradient (Perlin) noise in one to four dimensions. Each corner of
    the lattice cell around the point hashes to a gradient, the gradients are
    dotted with the point's offset from the corner, blended with the quintic
    S-curve of the in-cell distance, scaled and finally clamped to [-1, 1]. */
module Perlin {
  import opened Wrappers
  import opened Numeric
  import opened Vectors
  import opened Interpolate
  import opened SCurve
  import opened PermTable

  const SCALE_2D: real := 2.0 / 1.4142135623730951
  const SCALE_3D: real := 1.1547005383792515
  const SCALE_4D: real := 1.0

  /** The 1D gradient: `hash & 0b1` selects +offset or -offset. */
  function Grad1Dot(hash: nat, offset: real): (r: Option<real>)
    ensures r.Some? && (r.value == offset || r.value == -offset)
  {
    var k := hash % 2;
    if k == 0 then Some(offset)
    else if k == 1 then Some(-offset)
    else None
  }

  /** The 2D gradient switch on `hash & 0b11`: all four arms are reachable
      and the `unreachable!` arm is not. */
  function Grad2Dot(hash: nat, o: seq<real>): (r: Option<real>)
    requires |o| == 2
    ensures r.Some?
  {
    var k := hash % 4;
    if k == 0 then Some(o[0] + o[1])
    else if k == 1 then Some(-o[0] + o[1])
    else if k == 2 then Some(o[0] - o[1])
    else if k == 3 then Some(-o[0] - o[1])
    else None
  }

  /** The 3D gradient switch on `hash & 0b1111`: the twelve cube edges,
      four of them twice, covering all sixteen values. */
  function Grad3Dot(hash: nat, o: seq<real>): (r: Option<real>)
    requires |o| == 3
    ensures r.Some?
  {
    var k := hash % 16;
    if k == 0 || k == 12 then Some(o[0] + o[1])
    else if k == 1 || k == 13 then Some(-o[0] + o[1])
    else if k == 2 then Some(o[0] - o[1])
    else if k == 3 then Some(-o[0] - o[1])
    else if k == 4 then Some(o[0] + o[2])
    else if k == 5 then Some(-o[0] + o[2])
    else if k == 6 then Some(o[0] - o[2])
    else if k == 7 then Some(-o[0] - o[2])
    else if k == 8 then Some(o[1] + o[2])
    else if k == 9 || k == 14 then Some(-o[1] + o[2])
    else if k == 10 then Some(o[1] - o[2])
    else if k == 11 || k == 15 then Some(-o[1] - o[2])
    else None
  }

  /** The 4D gradient switch on `hash & 0b11111`, arm by arm as written:
      arm 6 repeats arm 5, arms 10-12 and 17-19 coincide, and arms 26 and 27
      combine all four components. */
  function Grad4Dot(hash: nat, o: seq<real>): (r: Option<real>)
    requires |o| == 4
    ensures r.Some?
  {
    var k := hash % 32;
    if k == 0 || k == 28 then Some(o[0] + o[1] + o[2])
    else if k == 1 then Some(-o[0] + o[1] + o[2])
    else if k == 2 then Some(o[0] - o[1] + o[2])
    else if k == 3 then Some(o[0] + o[1] - o[2])
    else if k == 4 then Some(-o[0] + o[1] - o[2])
    else if k == 5 then Some(o[0] - o[1] - o[2])
    else if k == 6 then Some(o[0] - o[1] - o[2])
    else if k == 7 || k == 29 then Some(o[0] + o[1] + o[3])
    else if k == 8 then Some(-o[0] + o[1] + o[3])
    else if k == 9 then Some(o[0] - o[1] + o[3])
    else if k == 10 then Some(o[0] + o[1] - o[3])
    else if k == 11 then Some(o[0] + o[1] - o[3])
    else if k == 12 then Some(o[0] + o[1] - o[3])
    else if k == 13 then Some(-o[0] - o[1] - o[3])
    else if k == 14 || k == 30 then Some(o[0] + o[2] + o[3])
    else if k == 15 then Some(-o[0] + o[2] + o[3])
    else if k == 16 then Some(o[0] - o[2] + o[3])
    else if k == 17 then Some(o[0] + o[2] - o[3])
    else if k == 18 then Some(o[0] + o[2] - o[3])
    else if k == 19 then Some(o[0] + o[2] - o[3])
    else if k == 20 then Some(-o[0] - o[2] - o[3])
    else if k == 21 || k == 31 then Some(o[1] + o[2] + o[3])
    else if k == 22 then Some(-o[1] + o[2] + o[3])
    else if k == 23 then Some(o[1] - o[2] + o[3])
    else if k == 24 then Some(o[1] - o[2] - o[3])
    else if k == 25 then Some(-o[1] - o[2] - o[3])
    else if k == 26 then Some(o[0] + o[1] + o[2] - o[3])
    else if k == 27 then Some(-o[0] + o[1] + o[2] - o[3])
    else None
  }

  /** Every gradient switch gives 0 for a zero offset, whatever the hash. */
  lemma GradDotOfZero(hash: nat)
    ensures Grad2Dot(hash, [0.0, 0.0]).value == 0.0
    ensures Grad3Dot(hash, [0.0, 0.0, 0.0]).value == 0.0
    ensures Grad4Dot(hash, [0.0, 0.0, 0.0, 0.0]).value == 0.0
  {
  }

  /** Arm 26 of the 4D switch is not an edge gradient: all four components
      contribute. */
  lemma Grad4Arm26UsesFourComponents()
    ensures Grad4Dot(26, [1.0, 1.0, 1.0, 1.0]).value == 2.0
    ensures Grad4Dot(26, [1.0, 0.0, 0.0, 0.0]).value == 1.0
    ensures Grad4Dot(6, [-1.0, 0.0, 0.0, 0.0]).value == -1.0
  {
  }

  /** The corner `corner + off` hashed, its gradient dotted with
      `distance - off`. */
  function CornerGrad(t: PermutationTable, corner: seq<int>, distance: seq<real>, off: seq<int>): real
    requires t.Valid() && 2 <= |corner| <= 4 && |distance| == |corner| && |off| == |corner|
  {
    var h := Hash(t, AddInt(corner, off));
    var o := Sub(distance, ToReal(off));
    if |corner| == 2 then Grad2Dot(h, o).value
    else if |corner| == 3 then Grad3Dot(h, o).value
    else Grad4Dot(h, o).value
  }

  /** The quintic weights of an in-cell distance; the precondition of
      `map_quintic` holds because every component lies in [0, 1]. */
  function Curve(distance: seq<real>): (c: seq<real>)
    requires InUnit(distance)
    ensures |c| == |distance| && InUnit(c)
    ensures forall i :: 0 <= i < |c| ==> c[i] == Quintic(distance[i])
  {
    MapQuinticAll(distance).value
  }

  /** `perlin_1d` as written: the corner is `point as isize`, a truncation, so
      a negative non-integer point has a negative distance and
      `map_quintic` panics. */
  function Perlin1D(t: PermutationTable, point: real): (r: Option<real>)
    requires t.Valid()
    ensures r.Some? ==> -1.0 <= r.value <= 1.0
    ensures r.Some? <==> point - Trunc(point) as real >= 0.0
  {
    var corner := Trunc(point);
    var distance := point - corner as real;
    var g0 := Grad1Dot(Hash(t, [corner]), distance).value;
    var g1 := Grad1Dot(Hash(t, [corner + 1]), distance - 1.0).value;
    match MapQuintic(distance)
    case None => None
    case Some(curve) => Some(Clamp(Linear(g0, g1, curve) * 2.0, -1.0, 1.0))
  }

  /** The input -0.5 makes `perlin_1d` panic. */
  lemma Perlin1DPanicsOnNegative(t: PermutationTable)
    requires t.Valid()
    ensures Trunc(-0.5) == 0
    ensures Perlin1D(t, -0.5) == None
  {
  }

  /** Every negative non-integer point panics. */
  lemma Perlin1DPanicsBelowZero(t: PermutationTable, point: real)
    requires t.Valid()
    requires point < 0.0 && point != point.Floor as real
    ensures Perlin1D(t, point) == None
  {
  }

  /** `perlin_1d` with the corner taken by `floor_to_isize`, as the 2D-4D
      versions do: the distance lies in [0, 1], so it never panics. */
  function Perlin1DFloored(t: PermutationTable, point: real): (r: real)
    requires t.Valid()
    ensures -1.0 <= r <= 1.0
  {
    var corner := FloorToIsize(point);
    var distance := point - corner as real;
    var g0 := Grad1Dot(Hash(t, [corner]), distance).value;
    var g1 := Grad1Dot(Hash(t, [corner + 1]), distance - 1.0).value;
    var curve := MapQuintic(distance).value;
    Clamp(Linear(g0, g1, curve) * 2.0, -1.0, 1.0)
  }

  /** At a lattice point the floored `perlin_1d` is 0: the blend picks the
      corner whose offset is zero. */
  lemma Perlin1DFlooredAtLattice(t: PermutationTable, point: real)
    requires t.Valid() && point == point.Floor as real
    ensures Perlin1DFloored(t, point) == 0.0
  {
  }

  /** `perlin_2d`. */
  function Perlin2D(t: PermutationTable, point: seq<real>): (r: real)
    requires t.Valid() && |point| == 2
    ensures -1.0 <= r <= 1.0
  {
    var corner := FloorAll(point);
    var d := CellDistance(point);
    var c := Curve(d);
    Clamp(
      Linear(
        Linear(CornerGrad(t, corner, d, [0, 0]), CornerGrad(t, corner, d, [0, 1]), c[1]),
        Linear(CornerGrad(t, corner, d, [1, 0]), CornerGrad(t, corner, d, [1, 1]), c[1]),
        c[0]) * SCALE_2D,
      -1.0, 1.0)
  }

  /** At integer coordinates `perlin_2d` is 0: each distance component is 0
      or 1, its quintic weight equals it, so the blend returns the gradient
      of the one corner whose offset is zero. */
  lemma Perlin2DAtLattice(t: PermutationTable, point: seq<real>)
    requires t.Valid() && |point| == 2
    requires forall i :: 0 <= i < 2 ==> point[i] == point[i].Floor as real
    ensures Perlin2D(t, point) == 0.0
  {
    var corner := FloorAll(point);
    var d := CellDistance(point);
    var c := Curve(d);
    LatticeWeights(point);
    var g00 := CornerGrad(t, corner, d, [0, 0]);
    var g01 := CornerGrad(t, corner, d, [0, 1]);
    var g10 := CornerGrad(t, corner, d, [1, 0]);
    var g11 := CornerGrad(t, corner, d, [1, 1]);
    BilinearAtCorner(g00, g01, g10, g11, c[0], c[1]);
    if d[0] == 0.0 && d[1] == 0.0 {
      CornerGradAtZeroOffset(t, corner, d, [0, 0]);
    } else if d[0] == 0.0 {
      CornerGradAtZeroOffset(t, corner, d, [0, 1]);
    } else if d[1] == 0.0 {
      CornerGradAtZeroOffset(t, corner, d, [1, 0]);
    } else {
      CornerGradAtZeroOffset(t, corner, d, [1, 1]);
    }
  }

  /** At integer coordinates every distance component is 0 or 1, and its
      quintic weight equals it. */
  lemma LatticeWeights(point: seq<real>)
    requires forall i :: 0 <= i < |point| ==> point[i] == point[i].Floor as real
    ensures var d := CellDistance(point);
      forall i :: 0 <= i < |point| ==> (d[i] == 0.0 || d[i] == 1.0) && Quintic(d[i]) == d[i]
  {
    var d := CellDistance(point);
    forall i | 0 <= i < |point|
      ensures (d[i] == 0.0 || d[i] == 1.0) && Quintic(d[i]) == d[i]
    {
      assert d[i] == 0.0 || d[i] == 1.0;
    }
  }

  /** The corner whose offset equals the distance contributes 0. */
  lemma CornerGradAtZeroOffset(t: PermutationTable, corner: seq<int>, d: seq<real>, off: seq<int>)
    requires t.Valid() && 2 <= |corner| <= 4 && |d| == |corner| && |off| == |corner|
    requires forall i :: 0 <= i < |d| ==> d[i] == off[i] as real
    ensures CornerGrad(t, corner, d, off) == 0.0
  {
    var h := Hash(t, AddInt(corner, off));
    GradDotOfZero(h);
    var o := Sub(d, ToReal(off));
    if |d| == 2 {
      assert o == [0.0, 0.0];
    } else if |d| == 3 {
      assert o == [0.0, 0.0, 0.0];
    } else {
      assert o == [0.0, 0.0, 0.0, 0.0];
    }
  }

  /** A bilinear blend with weights 0 or 1 returns one of its four corners. */
  lemma BilinearAtCorner(g00: real, g01: real, g10: real, g11: real, u: real, v: real)
    requires u == 0.0 || u == 1.0
    requires v == 0.0 || v == 1.0
    ensures Linear(Linear(g00, g01, v), Linear(g10, g11, v), u) ==
      if u == 0.0 then (if v == 0.0 then g00 else g01) else (if v == 0.0 then g10 else g11)
  {
  }

  /** `perlin_3d`. */
  function Perlin3D(t: PermutationTable, point: seq<real>): (r: real)
    requires t.Valid() && |point| == 3
    ensures -1.0 <= r <= 1.0
  {
    var corner := FloorAll(point);
    var d := CellDistance(point);
    var c := Curve(d);
    Clamp(
      Linear(
        Linear(
          Linear(CornerGrad(t, corner, d, [0, 0, 0]), CornerGrad(t, corner, d, [0, 0, 1]), c[2]),
          Linear(CornerGrad(t, corner, d, [0, 1, 0]), CornerGrad(t, corner, d, [0, 1, 1]), c[2]),
          c[1]),
        Linear(
          Linear(CornerGrad(t, corner, d, [1, 0, 0]), CornerGrad(t, corner, d, [1, 0, 1]), c[2]),
          Linear(CornerGrad(t, corner, d, [1, 1, 0]), CornerGrad(t, corner, d, [1, 1, 1]), c[2]),
          c[1]),
        c[0]) * SCALE_3D,
      -1.0, 1.0)
  }

  /** `perlin_4d`. */
  function Perlin4D(t: PermutationTable, point: seq<real>): (r: real)
    requires t.Valid() && |point| == 4
    ensures -1.0 <= r <= 1.0
  {
    var corner := FloorAll(point);
    var d := CellDistance(point);
    var c := Curve(d);
    Clamp(
      Linear(
        Linear(
          Linear(
            Linear(CornerGrad(t, corner, d, [0, 0, 0, 0]), CornerGrad(t, corner, d, [0, 0, 0, 1]), c[3]),
            Linear(CornerGrad(t, corner, d, [0, 0, 1, 0]), CornerGrad(t, corner, d, [0, 0, 1, 1]), c[3]),
            c[2]),
          Linear(
            Linear(CornerGrad(t, corner, d, [0, 1, 0, 0]), CornerGrad(t, corner, d, [0, 1, 0, 1]), c[3]),
            Linear(CornerGrad(t, corner, d, [0, 1, 1, 0]), CornerGrad(t, corner, d, [0, 1, 1, 1]), c[3]),
            c[2]),
          c[1]),
        Linear(
          Linear(
            Linear(CornerGrad(t, corner, d, [1, 0, 0, 0]), CornerGrad(t, corner, d, [1, 0, 0, 1]), c[3]),
            Linear(CornerGrad(t, corner, d, [1, 0, 1, 0]), CornerGrad(t, corner, d, [1, 0, 1, 1]), c[3]),
            c[2]),
          Linear(
            Linear(CornerGrad(t, corner, d, [1, 1, 0, 0]), CornerGrad(t, corner, d, [1, 1, 0, 1]), c[3]),
            Linear(CornerGrad(t, corner, d, [1, 1, 1, 0]), CornerGrad(t, corner, d, [1, 1, 1, 1]), c[3]),
            c[2]),
          c[1]),
        c[0]) * SCALE_4D,
      -1.0, 1.0)
  }
}
