/** OpenSimplex noise: the point is stretched onto the simplectic
    honeycomb, the super-cell origin is the floor of the stretched point,
    the sum of the in-cell coordinates picks the region, and every lattice
    vertex of that region adds its attenuated gradient contribution. */
module OpenSimplex {
  import opened Numeric
  import opened Vectors
  import opened PermTable
  import opened Gradient

  const STRETCH_2D: real := -0.211324865405187
  const SQUISH_2D: real := 0.366025403784439
  const NORM_2D: real := 1.0 / 14.0
  const STRETCH_3D: real := -1.0 / 6.0
  const SQUISH_3D: real := 1.0 / 3.0
  const NORM_3D: real := 1.0 / 14.0
  const STRETCH_4D: real := -0.138196601125011
  const SQUISH_4D: real := 0.309016994374947
  const NORM_4D: real := 1.0 / 6.8699090070956625

  /** `grad2`, `grad3` or `grad4`, by the dimension of the point. */
  function GradientOf(index: nat, n: nat): (g: seq<real>)
    requires 2 <= n <= 4
    ensures |g| == n
  {
    if n == 2 then Grad2(index).value else if n == 3 then Grad3(index).value else Grad4(index).value
  }

  /** `gradient(hasher, vertex, pos)`: `attn⁴ · (pos · grad)` with
      `attn = 2 - |pos|²`, and 0 outside the radius. */
  function VertexGradient(t: PermutationTable, vertex: seq<int>, pos: seq<real>): (r: real)
    requires t.Valid() && 2 <= |vertex| <= 4 && |pos| == |vertex|
    ensures 2.0 - MagnitudeSquared(pos) <= 0.0 ==> r == 0.0
  {
    var attn := 2.0 - MagnitudeSquared(pos);
    if attn > 0.0 then Pow(attn, 4) * DotOf(pos, GradientOf(Hash(t, vertex), |vertex|))
    else 0.0
  }

  /** What the region branches need of a point: the floor of the stretched
      point (the super-cell origin on the honeycomb), the point relative to
      the squished origin, and the sum of the in-cell coordinates. */
  datatype Frame = Frame(floor: seq<int>, relPos: seq<real>, regionSum: real)

  /** `point.map(|v| v + point.sum() * stretch)`. */
  function Stretch(point: seq<real>, stretch: real): (s: seq<real>)
    ensures |s| == |point|
    ensures forall i :: 0 <= i < |point| ==> s[i] == point[i] + SumOf(point) * stretch
  {
    AddScalar(point, SumOf(point) * stretch)
  }

  /** `v.map(|x| x + v.sum() * squish)` for a lattice point. */
  function Squish(v: seq<int>, squish: real): (s: seq<real>)
    ensures |s| == |v|
    ensures forall i :: 0 <= i < |v| ==> s[i] == v[i] as real + SumOf(ToReal(v)) * squish
  {
    AddScalar(ToReal(v), SumOf(ToReal(v)) * squish)
  }

  function FrameOf(point: seq<real>, stretch: real, squish: real): (fr: Frame)
    ensures |fr.floor| == |point| && |fr.relPos| == |point|
  {
    var stretched := Stretch(point, stretch);
    var floor := Floor(stretched);
    Frame(floor, Sub(point, Squish(floor, squish)), SumOf(Sub(stretched, ToReal(floor))))
  }

  /** The in-cell coordinates lie in [0, 1), so the region sum lies in
      [0, n). */
  lemma RegionSumBounds(point: seq<real>, stretch: real, squish: real)
    requires |point| >= 1
    ensures 0.0 <= FrameOf(point, stretch, squish).regionSum < |point| as real
  {
    var stretched := Stretch(point, stretch);
    var rel := Sub(stretched, ToReal(Floor(stretched)));
    assert forall i :: 0 <= i < |rel| ==> 0.0 <= rel[i] < 1.0;
    SumOfUnitCoordinates(rel);
  }

  lemma {:induction false} SumOfUnitCoordinates(v: seq<real>)
    requires forall i :: 0 <= i < |v| ==> 0.0 <= v[i] < 1.0
    ensures 0.0 <= SumOf(v) <= |v| as real
    ensures |v| > 0 ==> SumOf(v) < |v| as real
  {
    if |v| > 0 {
      SumOfUnitCoordinates(v[..|v| - 1]);
    }
  }

  /** `rel_pos - broadcast(squish) * offset.sum() - offset`. */
  function Dpos(relPos: seq<real>, squish: real, offset: seq<int>): (d: seq<real>)
    requires |offset| == |relPos|
    ensures |d| == |relPos|
  {
    Sub(Sub(relPos, Broadcast(squish * SumOf(ToReal(offset)), |relPos|)), ToReal(offset))
  }

  /** The position a vertex is evaluated at is the point relative to the
      squished vertex `floor + offset`. */
  lemma DposRelativeToVertex(point: seq<real>, stretch: real, squish: real, offset: seq<int>)
    requires |offset| == |point|
    ensures var fr := FrameOf(point, stretch, squish);
      Dpos(fr.relPos, squish, offset) == Sub(point, Squish(Step(fr.floor, offset), squish))
  {
    var fr := FrameOf(point, stretch, squish);
    var a := SumOf(ToReal(fr.floor));
    var b := SumOf(ToReal(offset));
    SumOfLatticeSum(fr.floor, offset);
    Distribute(a, b, squish);
    var lhs := Dpos(fr.relPos, squish, offset);
    var rhs := Sub(point, Squish(Step(fr.floor, offset), squish));
    assert forall i :: 0 <= i < |point| ==> lhs[i] == rhs[i];
  }

  lemma Distribute(a: real, b: real, c: real)
    ensures (a + b) * c == a * c + c * b
  {
  }

  lemma SumOfLatticeSum(a: seq<int>, b: seq<int>)
    requires |a| == |b|
    ensures SumOf(ToReal(AddInt(a, b))) == SumOf(ToReal(a)) + SumOf(ToReal(b))
  {
    assert ToReal(AddInt(a, b)) == Add(ToReal(a), ToReal(b));
    SumOfAdd(ToReal(a), ToReal(b));
  }

  /** The contribution of the vertex `floor + offset`. */
  function Contribute(t: PermutationTable, fr: Frame, squish: real, offset: seq<int>): real
    requires t.Valid() && 2 <= |fr.floor| <= 4 && |fr.relPos| == |fr.floor| && |offset| == |fr.floor|
  {
    VertexGradient(t, Step(fr.floor, offset), Dpos(fr.relPos, squish, offset))
  }

  /** The contributions of the first `k` listed vertices, added in order. */
  function ContributionSum(t: PermutationTable, fr: Frame, squish: real, vs: seq<seq<int>>, k: nat): real
    requires t.Valid() && 2 <= |fr.floor| <= 4 && |fr.relPos| == |fr.floor|
    requires k <= |vs| && forall j :: 0 <= j < |vs| ==> |vs[j]| == |fr.floor|
  {
    if k == 0 then 0.0
    else ContributionSum(t, fr, squish, vs, k - 1) + Contribute(t, fr, squish, vs[k - 1])
  }

  lemma ContributionStep(t: PermutationTable, fr: Frame, squish: real, vs: seq<seq<int>>, k: nat)
    requires t.Valid() && 2 <= |fr.floor| <= 4 && |fr.relPos| == |fr.floor|
    requires k < |vs| && forall j :: 0 <= j < |vs| ==> |vs[j]| == |fr.floor|
    ensures ContributionSum(t, fr, squish, vs, k + 1)
         == ContributionSum(t, fr, squish, vs, k) + Contribute(t, fr, squish, vs[k])
  {
  }

  /** The offsets are distinct 0/1 vectors whose number of ones lies in
      [lo, hi]. */
  predicate Layer(vs: seq<seq<int>>, n: nat, lo: nat, hi: nat)
  {
    (forall k :: 0 <= k < |vs| ==> |vs[k]| == n && Unit(vs[k]) && lo <= Ones(vs[k]) <= hi)
    && (forall k, m :: 0 <= k < m < |vs| ==> vs[k] != vs[m])
  }

  /** The 2D vertices: (1, 0), (0, 1), then (1, 1) in region B
      (`region_sum > 1`) or (0, 0) in region A. */
  function Vertices2D(regionSum: real): (vs: seq<seq<int>>)
    ensures |vs| == 3 && vs[0] == [1, 0] && vs[1] == [0, 1]
    ensures vs[2] == (if regionSum > 1.0 then [1, 1] else [0, 0])
    ensures forall k :: 0 <= k < |vs| ==> |vs[k]| == 2
  {
    if regionSum > 1.0 then [[1, 0], [0, 1], [1, 1]] else [[1, 0], [0, 1], [0, 0]]
  }

  /** The 3D vertices: the tetrahedron at the origin (`region_sum <= 1`),
      the one at (1, 1, 1) (`region_sum >= 2`), or the octahedron between. */
  function Vertices3D(regionSum: real): (vs: seq<seq<int>>)
    ensures |vs| == (if regionSum <= 1.0 || regionSum >= 2.0 then 4 else 6)
    ensures forall k :: 0 <= k < |vs| ==> |vs[k]| == 3
  {
    if regionSum <= 1.0 then [[0, 0, 0], [1, 0, 0], [0, 1, 0], [0, 0, 1]]
    else if regionSum >= 2.0 then [[1, 1, 0], [1, 0, 1], [0, 1, 1], [1, 1, 1]]
    else [[1, 0, 0], [0, 1, 0], [0, 0, 1], [1, 1, 0], [1, 0, 1], [0, 1, 1]]
  }

  /** The 4D vertices: the pentachoron at the origin (`region_sum <= 1`),
      the one at (1, 1, 1, 1) (`region_sum >= 3`), or one of the two
      rectified pentachora between (`region_sum <= 2` or above). */
  function Vertices4D(regionSum: real): (vs: seq<seq<int>>)
    ensures |vs| == (if regionSum <= 1.0 || regionSum >= 3.0 then 5 else 10)
    ensures forall k :: 0 <= k < |vs| ==> |vs[k]| == 4
  {
    if regionSum <= 1.0 then [[0, 0, 0, 0], [1, 0, 0, 0], [0, 1, 0, 0], [0, 0, 1, 0], [0, 0, 0, 1]]
    else if regionSum >= 3.0 then [[1, 1, 1, 0], [1, 1, 0, 1], [1, 0, 1, 1], [0, 1, 1, 1], [1, 1, 1, 1]]
    else if regionSum <= 2.0 then [[1, 0, 0, 0], [0, 1, 0, 0], [0, 0, 1, 0], [0, 0, 0, 1], [1, 1, 0, 0], [1, 0, 1, 0], [1, 0, 0, 1], [0, 1, 1, 0], [0, 1, 0, 1], [0, 0, 1, 1]]
    else [[1, 1, 1, 0], [1, 1, 0, 1], [1, 0, 1, 1], [0, 1, 1, 1], [1, 1, 0, 0], [1, 0, 1, 0], [1, 0, 0, 1], [0, 1, 1, 0], [0, 1, 0, 1], [0, 0, 1, 1]]
  }

  /** The 2D vertices are three distinct 0/1 vectors. */
  lemma Vertices2DLayer(regionSum: real)
    ensures Layer(Vertices2D(regionSum), 2, 0, 2)
  {
    var vs := Vertices2D(regionSum);
    forall k | 0 <= k < 3
      ensures Unit(vs[k]) && Ones(vs[k]) <= 2
    {
      assert vs[k][..1][..0] == [];
    }
  }

  /** The 3D vertices of each region are distinct 0/1 vectors of the
      matching layers: at most one 1 at the origin tetrahedron, two or
      more at the far one, one or two in the octahedron. */
  lemma Vertices3DLayer(regionSum: real)
    ensures regionSum <= 1.0 ==> Layer(Vertices3D(regionSum), 3, 0, 1)
    ensures 1.0 < regionSum < 2.0 ==> Layer(Vertices3D(regionSum), 3, 1, 2)
    ensures 2.0 <= regionSum ==> Layer(Vertices3D(regionSum), 3, 2, 3)
  {
    if regionSum <= 1.0 {
      Vertices3DLayerLow(regionSum);
    }
    if 1.0 < regionSum < 2.0 {
      Vertices3DLayerMid(regionSum);
    }
    if 2.0 <= regionSum {
      Vertices3DLayerHigh(regionSum);
    }
  }

  lemma Vertices3DLayerLow(regionSum: real)
    requires regionSum <= 1.0
    ensures Layer(Vertices3D(regionSum), 3, 0, 1)
  {
    var vs := Vertices3D(regionSum);
    assert forall k, m :: 0 <= k < m < |vs| ==> Code3(vs[k]) != Code3(vs[m]);
    Vertices3DLayerOf(vs, 0, 1);
  }

  lemma Vertices3DLayerMid(regionSum: real)
    requires 1.0 < regionSum < 2.0
    ensures Layer(Vertices3D(regionSum), 3, 1, 2)
  {
    var vs := Vertices3D(regionSum);
    assert forall k, m :: 0 <= k < m < |vs| ==> Code3(vs[k]) != Code3(vs[m]);
    Vertices3DLayerOf(vs, 1, 2);
  }

  lemma Vertices3DLayerHigh(regionSum: real)
    requires 2.0 <= regionSum
    ensures Layer(Vertices3D(regionSum), 3, 2, 3)
  {
    var vs := Vertices3D(regionSum);
    assert forall k, m :: 0 <= k < m < |vs| ==> Code3(vs[k]) != Code3(vs[m]);
    Vertices3DLayerOf(vs, 2, 3);
  }

  /** A list of 3D offsets whose coordinate counts lie in [lo, hi] and whose
      binary codes differ is a layer. */
  lemma Vertices3DLayerOf(vs: seq<seq<int>>, lo: nat, hi: nat)
    requires forall k :: 0 <= k < |vs| ==> |vs[k]| == 3 && Unit(vs[k])
    requires forall k :: 0 <= k < |vs| ==> lo <= vs[k][0] + vs[k][1] + vs[k][2] <= hi
    requires forall k, m :: 0 <= k < m < |vs| ==> Code3(vs[k]) != Code3(vs[m])
    ensures Layer(vs, 3, lo, hi)
  {
    forall k | 0 <= k < |vs|
      ensures lo <= Ones(vs[k]) <= hi
    {
      OnesOf3(vs[k]);
    }
  }

  /** The binary number a 3D offset spells. */
  function Code3(o: seq<int>): int
    requires |o| == 3
  {
    4 * o[0] + 2 * o[1] + o[2]
  }

  /** The 4D vertices of each region are distinct 0/1 vectors of the
      matching layers. */
  lemma Vertices4DLayer(regionSum: real)
    ensures regionSum <= 1.0 ==> Layer(Vertices4D(regionSum), 4, 0, 1)
    ensures 1.0 < regionSum <= 2.0 ==> Layer(Vertices4D(regionSum), 4, 1, 2)
    ensures 2.0 < regionSum < 3.0 ==> Layer(Vertices4D(regionSum), 4, 2, 3)
    ensures 3.0 <= regionSum ==> Layer(Vertices4D(regionSum), 4, 3, 4)
  {
    if regionSum <= 1.0 {
      Vertices4DLayerLow(regionSum);
    }
    if 1.0 < regionSum <= 2.0 {
      Vertices4DLayerMid1(regionSum);
    }
    if 2.0 < regionSum < 3.0 {
      Vertices4DLayerMid2(regionSum);
    }
    if 3.0 <= regionSum {
      Vertices4DLayerHigh(regionSum);
    }
  }

  lemma Vertices4DLayerLow(regionSum: real)
    requires regionSum <= 1.0
    ensures Layer(Vertices4D(regionSum), 4, 0, 1)
  {
    var vs := Vertices4D(regionSum);
    assert forall k, m :: 0 <= k < m < |vs| ==> Code4(vs[k]) != Code4(vs[m]);
    Vertices4DLayerOf(vs, 0, 1);
  }

  lemma Vertices4DLayerMid1(regionSum: real)
    requires 1.0 < regionSum <= 2.0
    ensures Layer(Vertices4D(regionSum), 4, 1, 2)
  {
    var vs := Vertices4D(regionSum);
    assert forall k, m :: 0 <= k < m < |vs| ==> Code4(vs[k]) != Code4(vs[m]);
    Vertices4DLayerOf(vs, 1, 2);
  }

  lemma Vertices4DLayerMid2(regionSum: real)
    requires 2.0 < regionSum < 3.0
    ensures Layer(Vertices4D(regionSum), 4, 2, 3)
  {
    var vs := Vertices4D(regionSum);
    assert forall k, m :: 0 <= k < m < |vs| ==> Code4(vs[k]) != Code4(vs[m]);
    Vertices4DLayerOf(vs, 2, 3);
  }

  lemma Vertices4DLayerHigh(regionSum: real)
    requires 3.0 <= regionSum
    ensures Layer(Vertices4D(regionSum), 4, 3, 4)
  {
    var vs := Vertices4D(regionSum);
    assert forall k, m :: 0 <= k < m < |vs| ==> Code4(vs[k]) != Code4(vs[m]);
    Vertices4DLayerOf(vs, 3, 4);
  }

  /** A list of 4D offsets whose coordinate counts lie in [lo, hi] and whose
      binary codes differ is a layer. */
  lemma Vertices4DLayerOf(vs: seq<seq<int>>, lo: nat, hi: nat)
    requires forall k :: 0 <= k < |vs| ==> |vs[k]| == 4 && Unit(vs[k])
    requires forall k :: 0 <= k < |vs| ==> lo <= vs[k][0] + vs[k][1] + vs[k][2] + vs[k][3] <= hi
    requires forall k, m :: 0 <= k < m < |vs| ==> Code4(vs[k]) != Code4(vs[m])
    ensures Layer(vs, 4, lo, hi)
  {
    forall k | 0 <= k < |vs|
      ensures lo <= Ones(vs[k]) <= hi
    {
      OnesOf4(vs[k]);
    }
  }

  /** The binary number a 4D offset spells. */
  function Code4(o: seq<int>): int
    requires |o| == 4
  {
    8 * o[0] + 4 * o[1] + 2 * o[2] + o[3]
  }

  /** Each layer list holds every 0/1 vector of its layer: the middle
      regions use all six (3D) and all ten (4D) vertices with one or two,
      and two or three, ones. */
  lemma MiddleLayersComplete(regionSum: real, o: seq<int>)
    requires |o| == 3 || |o| == 4
    requires Unit(o)
    ensures |o| == 3 && 1.0 < regionSum < 2.0 && 1 <= Ones(o) <= 2 ==> o in Vertices3D(regionSum)
    ensures |o| == 4 && 1.0 < regionSum <= 2.0 && 1 <= Ones(o) <= 2 ==> o in Vertices4D(regionSum)
    ensures |o| == 4 && 2.0 < regionSum < 3.0 && 2 <= Ones(o) <= 3 ==> o in Vertices4D(regionSum)
  {
    if |o| == 3 {
      OnesOf3(o);
      assert o == [o[0], o[1], o[2]];
    } else {
      OnesOf4(o);
      assert o == [o[0], o[1], o[2], o[3]];
    }
  }

  /** `open_simplex_2d`: the contributions of the region's vertices,
      accumulated into `value` as the source does, scaled by the norm
      constant. */
  method OpenSimplex2D(t: PermutationTable, point: seq<real>) returns (value: real)
    requires t.Valid() && |point| == 2
    ensures var fr := FrameOf(point, STRETCH_2D, SQUISH_2D);
      value == ContributionSum(t, fr, SQUISH_2D, Vertices2D(fr.regionSum), |Vertices2D(fr.regionSum)|) * NORM_2D
  {
    var fr := FrameOf(point, STRETCH_2D, SQUISH_2D);
    value := 0.0;
    if fr.regionSum > 1.0 {
      ghost var vs := Vertices2D(fr.regionSum);
      value := value + Contribute(t, fr, SQUISH_2D, [1, 0]);
      ContributionStep(t, fr, SQUISH_2D, vs, 0);
      value := value + Contribute(t, fr, SQUISH_2D, [0, 1]);
      ContributionStep(t, fr, SQUISH_2D, vs, 1);
      value := value + Contribute(t, fr, SQUISH_2D, [1, 1]);
      ContributionStep(t, fr, SQUISH_2D, vs, 2);
    } else {
      ghost var vs := Vertices2D(fr.regionSum);
      value := value + Contribute(t, fr, SQUISH_2D, [1, 0]);
      ContributionStep(t, fr, SQUISH_2D, vs, 0);
      value := value + Contribute(t, fr, SQUISH_2D, [0, 1]);
      ContributionStep(t, fr, SQUISH_2D, vs, 1);
      value := value + Contribute(t, fr, SQUISH_2D, [0, 0]);
      ContributionStep(t, fr, SQUISH_2D, vs, 2);
    }
    value := value * NORM_2D;
  }

  /** `open_simplex_3d`: the contributions of the region's vertices,
      accumulated into `value` as the source does, scaled by the norm
      constant. */
  method OpenSimplex3D(t: PermutationTable, point: seq<real>) returns (value: real)
    requires t.Valid() && |point| == 3
    ensures var fr := FrameOf(point, STRETCH_3D, SQUISH_3D);
      value == ContributionSum(t, fr, SQUISH_3D, Vertices3D(fr.regionSum), |Vertices3D(fr.regionSum)|) * NORM_3D
  {
    var fr := FrameOf(point, STRETCH_3D, SQUISH_3D);
    if fr.regionSum <= 1.0 {
      value := Tetrahedron3DAtOrigin(t, fr);
    } else if fr.regionSum >= 2.0 {
      value := Tetrahedron3DAtOne(t, fr);
    } else {
      value := Octahedron3D(t, fr);
    }
    value := value * NORM_3D;
  }

  /** The branch of `open_simplex_3d` for a point inside
      the tetrahedron (3-simplex) at (0, 0, 0):
      the contributions of its vertices, in the source's order. */
  method Tetrahedron3DAtOrigin(t: PermutationTable, fr: Frame) returns (sum: real)
    requires t.Valid() && |fr.floor| == 3 && |fr.relPos| == 3 && fr.regionSum <= 1.0
    ensures sum == ContributionSum(t, fr, SQUISH_3D, Vertices3D(fr.regionSum), 4)
  {
    ghost var vs := Vertices3D(fr.regionSum);
    sum := 0.0;
    sum := sum + Contribute(t, fr, SQUISH_3D, [0, 0, 0]);
    ContributionStep(t, fr, SQUISH_3D, vs, 0);
    sum := sum + Contribute(t, fr, SQUISH_3D, [1, 0, 0]);
    ContributionStep(t, fr, SQUISH_3D, vs, 1);
    sum := sum + Contribute(t, fr, SQUISH_3D, [0, 1, 0]);
    ContributionStep(t, fr, SQUISH_3D, vs, 2);
    sum := sum + Contribute(t, fr, SQUISH_3D, [0, 0, 1]);
    ContributionStep(t, fr, SQUISH_3D, vs, 3);
  }

  /** The branch of `open_simplex_3d` for a point inside
      the tetrahedron (3-simplex) at (1, 1, 1):
      the contributions of its vertices, in the source's order. */
  method Tetrahedron3DAtOne(t: PermutationTable, fr: Frame) returns (sum: real)
    requires t.Valid() && |fr.floor| == 3 && |fr.relPos| == 3 && fr.regionSum >= 2.0
    ensures sum == ContributionSum(t, fr, SQUISH_3D, Vertices3D(fr.regionSum), 4)
  {
    ghost var vs := Vertices3D(fr.regionSum);
    sum := 0.0;
    sum := sum + Contribute(t, fr, SQUISH_3D, [1, 1, 0]);
    ContributionStep(t, fr, SQUISH_3D, vs, 0);
    sum := sum + Contribute(t, fr, SQUISH_3D, [1, 0, 1]);
    ContributionStep(t, fr, SQUISH_3D, vs, 1);
    sum := sum + Contribute(t, fr, SQUISH_3D, [0, 1, 1]);
    ContributionStep(t, fr, SQUISH_3D, vs, 2);
    sum := sum + Contribute(t, fr, SQUISH_3D, [1, 1, 1]);
    ContributionStep(t, fr, SQUISH_3D, vs, 3);
  }

  /** The branch of `open_simplex_3d` for a point inside
      the octahedron (rectified 3-simplex) in between:
      the contributions of its vertices, in the source's order. */
  method Octahedron3D(t: PermutationTable, fr: Frame) returns (sum: real)
    requires t.Valid() && |fr.floor| == 3 && |fr.relPos| == 3 && 1.0 < fr.regionSum < 2.0
    ensures sum == ContributionSum(t, fr, SQUISH_3D, Vertices3D(fr.regionSum), 6)
  {
    ghost var vs := Vertices3D(fr.regionSum);
    sum := 0.0;
    sum := sum + Contribute(t, fr, SQUISH_3D, [1, 0, 0]);
    ContributionStep(t, fr, SQUISH_3D, vs, 0);
    sum := sum + Contribute(t, fr, SQUISH_3D, [0, 1, 0]);
    ContributionStep(t, fr, SQUISH_3D, vs, 1);
    sum := sum + Contribute(t, fr, SQUISH_3D, [0, 0, 1]);
    ContributionStep(t, fr, SQUISH_3D, vs, 2);
    sum := sum + Contribute(t, fr, SQUISH_3D, [1, 1, 0]);
    ContributionStep(t, fr, SQUISH_3D, vs, 3);
    sum := sum + Contribute(t, fr, SQUISH_3D, [1, 0, 1]);
    ContributionStep(t, fr, SQUISH_3D, vs, 4);
    sum := sum + Contribute(t, fr, SQUISH_3D, [0, 1, 1]);
    ContributionStep(t, fr, SQUISH_3D, vs, 5);
  }

  /** `open_simplex_4d`: the contributions of the region's vertices,
      accumulated into `value` as the source does, scaled by the norm
      constant. */
  method OpenSimplex4D(t: PermutationTable, point: seq<real>) returns (value: real)
    requires t.Valid() && |point| == 4
    ensures var fr := FrameOf(point, STRETCH_4D, SQUISH_4D);
      value == ContributionSum(t, fr, SQUISH_4D, Vertices4D(fr.regionSum), |Vertices4D(fr.regionSum)|) * NORM_4D
  {
    var fr := FrameOf(point, STRETCH_4D, SQUISH_4D);
    if fr.regionSum <= 1.0 {
      value := Pentachoron4DAtOrigin(t, fr);
    } else if fr.regionSum >= 3.0 {
      value := Pentachoron4DAtOne(t, fr);
    } else if fr.regionSum <= 2.0 {
      value := FirstDispentachoron4D(t, fr);
    } else {
      value := SecondDispentachoron4D(t, fr);
    }
    value := value * NORM_4D;
  }

  /** The branch of `open_simplex_4d` for a point inside
      the pentachoron (4-simplex) at (0, 0, 0, 0):
      the contributions of its vertices, in the source's order. */
  method Pentachoron4DAtOrigin(t: PermutationTable, fr: Frame) returns (sum: real)
    requires t.Valid() && |fr.floor| == 4 && |fr.relPos| == 4 && fr.regionSum <= 1.0
    ensures sum == ContributionSum(t, fr, SQUISH_4D, Vertices4D(fr.regionSum), 5)
  {
    ghost var vs := Vertices4D(fr.regionSum);
    sum := 0.0;
    sum := sum + Contribute(t, fr, SQUISH_4D, [0, 0, 0, 0]);
    ContributionStep(t, fr, SQUISH_4D, vs, 0);
    sum := sum + Contribute(t, fr, SQUISH_4D, [1, 0, 0, 0]);
    ContributionStep(t, fr, SQUISH_4D, vs, 1);
    sum := sum + Contribute(t, fr, SQUISH_4D, [0, 1, 0, 0]);
    ContributionStep(t, fr, SQUISH_4D, vs, 2);
    sum := sum + Contribute(t, fr, SQUISH_4D, [0, 0, 1, 0]);
    ContributionStep(t, fr, SQUISH_4D, vs, 3);
    sum := sum + Contribute(t, fr, SQUISH_4D, [0, 0, 0, 1]);
    ContributionStep(t, fr, SQUISH_4D, vs, 4);
  }

  /** The branch of `open_simplex_4d` for a point inside
      the pentachoron (4-simplex) at (1, 1, 1, 1):
      the contributions of its vertices, in the source's order. */
  method Pentachoron4DAtOne(t: PermutationTable, fr: Frame) returns (sum: real)
    requires t.Valid() && |fr.floor| == 4 && |fr.relPos| == 4 && fr.regionSum >= 3.0
    ensures sum == ContributionSum(t, fr, SQUISH_4D, Vertices4D(fr.regionSum), 5)
  {
    ghost var vs := Vertices4D(fr.regionSum);
    sum := 0.0;
    sum := sum + Contribute(t, fr, SQUISH_4D, [1, 1, 1, 0]);
    ContributionStep(t, fr, SQUISH_4D, vs, 0);
    sum := sum + Contribute(t, fr, SQUISH_4D, [1, 1, 0, 1]);
    ContributionStep(t, fr, SQUISH_4D, vs, 1);
    sum := sum + Contribute(t, fr, SQUISH_4D, [1, 0, 1, 1]);
    ContributionStep(t, fr, SQUISH_4D, vs, 2);
    sum := sum + Contribute(t, fr, SQUISH_4D, [0, 1, 1, 1]);
    ContributionStep(t, fr, SQUISH_4D, vs, 3);
    sum := sum + Contribute(t, fr, SQUISH_4D, [1, 1, 1, 1]);
    ContributionStep(t, fr, SQUISH_4D, vs, 4);
  }

  /** The branch of `open_simplex_4d` for a point inside
      the first dispentachoron (rectified 4-simplex):
      the contributions of its vertices, in the source's order. */
  method FirstDispentachoron4D(t: PermutationTable, fr: Frame) returns (sum: real)
    requires t.Valid() && |fr.floor| == 4 && |fr.relPos| == 4 && 1.0 < fr.regionSum <= 2.0
    ensures sum == ContributionSum(t, fr, SQUISH_4D, Vertices4D(fr.regionSum), 10)
  {
    ghost var vs := Vertices4D(fr.regionSum);
    sum := 0.0;
    sum := sum + Contribute(t, fr, SQUISH_4D, [1, 0, 0, 0]);
    ContributionStep(t, fr, SQUISH_4D, vs, 0);
    sum := sum + Contribute(t, fr, SQUISH_4D, [0, 1, 0, 0]);
    ContributionStep(t, fr, SQUISH_4D, vs, 1);
    sum := sum + Contribute(t, fr, SQUISH_4D, [0, 0, 1, 0]);
    ContributionStep(t, fr, SQUISH_4D, vs, 2);
    sum := sum + Contribute(t, fr, SQUISH_4D, [0, 0, 0, 1]);
    ContributionStep(t, fr, SQUISH_4D, vs, 3);
    sum := sum + Contribute(t, fr, SQUISH_4D, [1, 1, 0, 0]);
    ContributionStep(t, fr, SQUISH_4D, vs, 4);
    sum := sum + Contribute(t, fr, SQUISH_4D, [1, 0, 1, 0]);
    ContributionStep(t, fr, SQUISH_4D, vs, 5);
    sum := sum + Contribute(t, fr, SQUISH_4D, [1, 0, 0, 1]);
    ContributionStep(t, fr, SQUISH_4D, vs, 6);
    sum := sum + Contribute(t, fr, SQUISH_4D, [0, 1, 1, 0]);
    ContributionStep(t, fr, SQUISH_4D, vs, 7);
    sum := sum + Contribute(t, fr, SQUISH_4D, [0, 1, 0, 1]);
    ContributionStep(t, fr, SQUISH_4D, vs, 8);
    sum := sum + Contribute(t, fr, SQUISH_4D, [0, 0, 1, 1]);
    ContributionStep(t, fr, SQUISH_4D, vs, 9);
  }

  /** The branch of `open_simplex_4d` for a point inside
      the second dispentachoron (rectified 4-simplex):
      the contributions of its vertices, in the source's order. */
  method SecondDispentachoron4D(t: PermutationTable, fr: Frame) returns (sum: real)
    requires t.Valid() && |fr.floor| == 4 && |fr.relPos| == 4 && 2.0 < fr.regionSum < 3.0
    ensures sum == ContributionSum(t, fr, SQUISH_4D, Vertices4D(fr.regionSum), 10)
  {
    ghost var vs := Vertices4D(fr.regionSum);
    sum := 0.0;
    sum := sum + Contribute(t, fr, SQUISH_4D, [1, 1, 1, 0]);
    ContributionStep(t, fr, SQUISH_4D, vs, 0);
    sum := sum + Contribute(t, fr, SQUISH_4D, [1, 1, 0, 1]);
    ContributionStep(t, fr, SQUISH_4D, vs, 1);
    sum := sum + Contribute(t, fr, SQUISH_4D, [1, 0, 1, 1]);
    ContributionStep(t, fr, SQUISH_4D, vs, 2);
    sum := sum + Contribute(t, fr, SQUISH_4D, [0, 1, 1, 1]);
    ContributionStep(t, fr, SQUISH_4D, vs, 3);
    sum := sum + Contribute(t, fr, SQUISH_4D, [1, 1, 0, 0]);
    ContributionStep(t, fr, SQUISH_4D, vs, 4);
    sum := sum + Contribute(t, fr, SQUISH_4D, [1, 0, 1, 0]);
    ContributionStep(t, fr, SQUISH_4D, vs, 5);
    sum := sum + Contribute(t, fr, SQUISH_4D, [1, 0, 0, 1]);
    ContributionStep(t, fr, SQUISH_4D, vs, 6);
    sum := sum + Contribute(t, fr, SQUISH_4D, [0, 1, 1, 0]);
    ContributionStep(t, fr, SQUISH_4D, vs, 7);
    sum := sum + Contribute(t, fr, SQUISH_4D, [0, 1, 0, 1]);
    ContributionStep(t, fr, SQUISH_4D, vs, 8);
    sum := sum + Contribute(t, fr, SQUISH_4D, [0, 0, 1, 1]);
    ContributionStep(t, fr, SQUISH_4D, vs, 9);
  }

}
