/** The cell (Voronoi) noise helpers of `cell.rs`: jittered and offset feature
    points, the nearest-seed searches over the 2x2 block around the nearest
    corner, the two-nearest searches over the 3x3 block around the cell, and
    the range and value functions built on them. */
module Cell {
  import opened Wrappers
  import opened Numeric
  import opened Vectors
  import opened PermTable
  import Worley

  // ---------------------------------------------------------------- lattice hash and feature points

  /** `get2`, `get3` or `get4`, by the dimension of the lattice point. */
  function LatticeHash(t: PermutationTable, c: seq<int>): (r: int)
    requires t.Valid() && 2 <= |c| <= 4
    ensures 0 <= r < TABLE_SIZE
  {
    if |c| == 2 then Get2(t, c[0], c[1])
    else if |c| == 3 then Get3(t, c[0], c[1], c[2])
    else Get4(t, c[0], c[1], c[2], c[3])
  }

  /** `val & 0x0F` and `(val & 0xF0) >> 4`: the low and the high nibble. */
  function LowNibble(val: int): int
  {
    val % 16
  }

  function HighNibble(val: int): int
  {
    (val / 16) % 16
  }

  /** A nibble scaled by `1.0 / 15.0` is a jitter in [0, 1]. */
  function Jitter(nibble: int): (r: real)
    requires 0 <= nibble < 16
    ensures 0.0 <= r <= 1.0
  {
    nibble as real * (1.0 / 15.0)
  }

  /** The jitter of `get_cell_point2`..`get_cell_point4`: two nibbles of
      the cell's hash, and in 3D and 4D the nibbles of a second hash taken
      with the last coordinate moved by 128. */
  function Jitters(t: PermutationTable, cell: seq<int>): (j: seq<real>)
    requires t.Valid() && 2 <= |cell| <= 4
    ensures |j| == |cell|
  {
    var val1 := LatticeHash(t, cell);
    if |cell| == 2 then
      [Jitter(LowNibble(val1)), Jitter(HighNibble(val1))]
    else
      var val2 := LatticeHash(t, cell[..|cell| - 1] + [cell[|cell| - 1] + 128]);
      if |cell| == 3 then
        [Jitter(LowNibble(val1)), Jitter(HighNibble(val1)), Jitter(LowNibble(val2))]
      else
        [Jitter(LowNibble(val1)), Jitter(HighNibble(val1)), Jitter(LowNibble(val2)), Jitter(HighNibble(val2))]
  }

  /** `get_cell_point2`..`get_cell_point4`: the cell's corner moved by its
      jitter. */
  function JitteredPoint(t: PermutationTable, cell: seq<int>): (p: seq<real>)
    requires t.Valid() && 2 <= |cell| <= 4
    ensures |p| == |cell|
  {
    Add(ToReal(cell), Jitters(t, cell))
  }

  /** A jittered point never leaves its cell: every component lies between
      the corner and the corner plus one. */
  lemma JitteredPointInCell(t: PermutationTable, cell: seq<int>)
    requires t.Valid() && 2 <= |cell| <= 4
    ensures forall i :: 0 <= i < |cell| ==>
      cell[i] as real <= JitteredPoint(t, cell)[i] <= cell[i] as real + 1.0
  {
    var j := Jitters(t, cell);
    assert forall i :: 0 <= i < |cell| ==> 0.0 <= j[i] <= 1.0;
  }

  /** The diagonal constants of `cell.rs`: `0.70710678118`, the same literal
      rounded to `f32` (as `get_vec3` writes it), and `0.57735026919`. */
  const DIAG: real := 0.70710678118
  const DIAG_F32: real := 0.707106769084930419921875
  const DIAG3: real := 0.57735026919

  /** `get_vec2`: `(index & 0xF8) >> 3` picks one of 32 lengths in [0, 0.5],
      `index & 0x07` one of eight directions; the catch-all arm is `None`. */
  function GetVec2(index: nat): (r: Option<seq<real>>)
    ensures r.Some? && |r.value| == 2
  {
    Worley.Direction2(index % 8, ((index / 8) % 32) as real * (0.5 / 31.0), DIAG)
  }

  /** `get_vec3`: `(index & 0xE0) >> 5` picks one of 8 lengths in [0, 0.5],
      `index % 18` one of twelve edge and six axis directions; the panicking
      catch-all arm is `None`. */
  function GetVec3(index: nat): (r: Option<seq<real>>)
    ensures r.Some? && |r.value| == 3
  {
    Worley.Direction3(index % 18, ((index / 32) % 8) as real * (0.5 / 7.0), DIAG_F32)
  }

  /** `get_vec4`: `(index & 0xE0) >> 5` picks one of 8 lengths in [0, 0.5],
      `index % 32` one of 32 directions with three non-zero components; the
      panicking catch-all arm is `None`. */
  function GetVec4(index: nat): (r: Option<seq<real>>)
    ensures r.Some? && |r.value| == 4
  {
    Worley.Direction4(index % 32, ((index / 32) % 8) as real * (0.5 / 7.0) * DIAG3)
  }

  /** `get_vec2`, `get_vec3` or `get_vec4`, by the dimension. */
  function GetVec(index: nat, n: nat): (v: seq<real>)
    requires 2 <= n <= 4
    ensures |v| == n
  {
    if n == 2 then GetVec2(index).value else if n == 3 then GetVec3(index).value else GetVec4(index).value
  }

  /** Every 2D offset is at most 0.5 long: the diagonal constant is a little
      below its exact value, so the bound holds without rounding slack. */
  lemma GetVec2Short(index: nat)
    ensures MagnitudeSquared(GetVec2(index).value) <= 0.25
  {
    var length := ((index / 8) % 32) as real * (0.5 / 31.0);
    Worley.LengthBound((index / 8) % 32, 31.0);
    Worley.Direction2Short(index % 8, length, DIAG);
  }

  lemma GetVec3Short(index: nat)
    ensures MagnitudeSquared(GetVec3(index).value) <= 0.25
  {
    var length := ((index / 32) % 8) as real * (0.5 / 7.0);
    Worley.LengthBound((index / 32) % 8, 7.0);
    Worley.Direction3Short(index % 18, length, DIAG_F32);
    var diag := length * DIAG_F32;
    assert diag * diag == (length * length) * (DIAG_F32 * DIAG_F32);
    MulNonNegative(0.25 - length * length, 2.0 * (DIAG_F32 * DIAG_F32));
  }

  /** `0.57735026919` is a little above the exact 1/sqrt(3), so the longest
      4D offsets exceed 0.5 by a hair: their squared length is
      0.25000000000032.. . */
  const MAX_OFFSET4_SQUARED: real := 0.2500000000004

  lemma GetVec4Short(index: nat)
    ensures MagnitudeSquared(GetVec4(index).value) <= MAX_OFFSET4_SQUARED
  {
    var length := ((index / 32) % 8) as real * (0.5 / 7.0);
    Worley.LengthBound((index / 32) % 8, 7.0);
    var d := length * DIAG3;
    var sq := length * length;
    assert DIAG3 * DIAG3 == 0.3333333333337654632561;
    assert d * d == sq * 0.3333333333337654632561;
    Worley.Direction4Short(index % 32, d);
  }

  /** `get_point` of `cell2_seed`..`cell4_seed`: the cell's corner moved by
      the offset its hash selects. */
  function SeedPoint(t: PermutationTable, cell: seq<int>): (p: seq<real>)
    requires t.Valid() && 2 <= |cell| <= 4
    ensures |p| == |cell|
  {
    Add(GetVec(LatticeHash(t, cell), |cell|), ToReal(cell))
  }

  // ---------------------------------------------------------------- range functions

  /** The two range functions the public entry points pass to the searches. */
  datatype Metric = SqrEuclidean | Manhattan

  /** `range_sqr_euclidian2`..`4`: the dot product of the offset with itself. */
  function RangeSqrEuclidean(p1: seq<real>, p2: seq<real>): real
    requires |p1| == |p2|
  {
    var offset := Sub(p1, p2);
    DotOf(offset, offset)
  }

  /** `range_manhattan2`..`4`: the sum of the absolute components of the
      offset. */
  function RangeManhattan(p1: seq<real>, p2: seq<real>): real
    requires |p1| == |p2|
  {
    SumOf(Worley.Magnitudes(Sub(p1, p2)))
  }

  function Distance(metric: Metric, p1: seq<real>, p2: seq<real>): real
    requires |p1| == |p2|
  {
    match metric
    case SqrEuclidean => RangeSqrEuclidean(p1, p2)
    case Manhattan => RangeManhattan(p1, p2)
  }

  /** Both range functions are never negative, and zero from a point to
      itself. */
  lemma DistanceIsNonNegative(metric: Metric, p1: seq<real>, p2: seq<real>)
    requires |p1| == |p2|
    ensures Distance(metric, p1, p2) >= 0.0
    ensures p1 == p2 ==> Distance(metric, p1, p2) == 0.0
  {
    var offset := Sub(p1, p2);
    if metric == SqrEuclidean {
      DotSelfNonNegative(offset);
      if p1 == p2 {
        assert forall i :: 0 <= i < |offset| ==> offset[i] == 0.0;
        DotWithZero(offset, offset);
      }
    } else {
      var m := Worley.Magnitudes(offset);
      Worley.SumOfNonNegative(m);
    }
  }

  // ---------------------------------------------------------------- nearest seed: cell2_seed .. cell4_seed

  /** The state of `cellN_seed`: `cell` takes the near or far coordinate on
      every axis, `seedPoint` is its feature point, `range` the distance to
      it, and `range` is no worse than `first`, the range the search started
      from. */
  ghost predicate Nearest(t: PermutationTable, metric: Metric, point: seq<real>, near: seq<int>, far: seq<int>,
                          first: real, range: real, cell: seq<int>, seedPoint: seq<real>)
    requires t.Valid()
  {
    Worley.Between(cell, near, far) && 2 <= |cell| <= 4 && |point| == |cell|
    && seedPoint == SeedPoint(t, cell) && range == Distance(metric, point, seedPoint) && range <= first
  }

  /** `test_point!` of `cellN_seed`: the candidate replaces the seed only when
      it is strictly nearer, so the range never grows and ties keep the cell
      found first. */
  method TestPoint(t: PermutationTable, metric: Metric, point: seq<real>,
                   ghost near: seq<int>, ghost far: seq<int>, ghost first: real,
                   testCell: seq<int>, range: real, cell: seq<int>, seedPoint: seq<real>)
    returns (newRange: real, newCell: seq<int>, newSeedPoint: seq<real>)
    requires t.Valid() && |testCell| == |point|
    requires Nearest(t, metric, point, near, far, first, range, cell, seedPoint) && Worley.Between(testCell, near, far)
    ensures Nearest(t, metric, point, near, far, first, newRange, newCell, newSeedPoint)
    ensures newRange <= range && newRange <= Distance(metric, point, SeedPoint(t, testCell))
    ensures newRange < range ==> newCell == testCell
    ensures newRange == range ==> newCell == cell && newSeedPoint == seedPoint
  {
    newRange, newCell, newSeedPoint := range, cell, seedPoint;
    var curPoint := SeedPoint(t, testCell);
    var curRange := Distance(metric, point, curPoint);
    if curRange < newRange {
      newRange := curRange;
      newCell := testCell;
      newSeedPoint := curPoint;
    }
  }

  /** What a guarded `test_point!` of `cellN_seed` on `axes` guarantees
      about a later range: when every one of those axes is nearer than
      `range`, the cell far on `axes` was tested and its feature point is no
      nearer than `range`. */
  ghost predicate NoNearer(t: PermutationTable, metric: Metric, point: seq<real>, near: seq<int>, far: seq<int>,
                           ranges: seq<real>, axes: seq<bool>, range: real)
    requires t.Valid() && 2 <= |axes| <= 4 && |axes| == |ranges| == |near| == |far| == |point|
  {
    Worley.AllBelow(ranges, axes, range) ==> range <= Distance(metric, point, SeedPoint(t, Worley.FarOn(axes, near, far)))
  }

  /** `NoNearer` for the first `count` far-axis sets of the search in
      `|point|` dimensions. */
  ghost predicate TestedUpTo(t: PermutationTable, metric: Metric, point: seq<real>, near: seq<int>, far: seq<int>,
                             ranges: seq<real>, count: nat, range: real)
    requires t.Valid() && 2 <= |point| <= 4 && |ranges| == |near| == |far| == |point|
    requires count <= Worley.FarTestCount(|point|)
  {
    forall k :: 0 <= k < count ==> NoNearer(t, metric, point, near, far, ranges, Worley.FarAxis(|point|, k), range)
  }

  /** Every guarded `test_point!` of `cellN_seed` for the point's own
      dimension leaves no tested cell nearer than `range`. */
  ghost predicate NoneNearer(t: PermutationTable, metric: Metric, point: seq<real>, range: real)
    requires t.Valid() && 2 <= |point| <= 4
  {
    TestedUpTo(t, metric, point, Worley.Near(point), Worley.Far(point), Worley.Range(point),
               Worley.FarTestCount(|point|), range)
  }

  /** One guarded `test_point!` of `cellN_seed`, the `k`-th of the search:
      the cell that is far on `axes` is tested only when every one of those
      axes is nearer than the range so far. What the earlier tests
      guarantee survives, since the range only falls. */
  method TestFarAxes(t: PermutationTable, metric: Metric, point: seq<real>, near: seq<int>, far: seq<int>,
                     ranges: seq<real>, k: nat, ghost first: real, range: real, cell: seq<int>,
                     seedPoint: seq<real>)
    returns (newRange: real, newCell: seq<int>, newSeedPoint: seq<real>)
    requires t.Valid() && 2 <= |point| <= 4 && |near| == |far| == |ranges| == |point|
    requires k < Worley.FarTestCount(|point|)
    requires Nearest(t, metric, point, near, far, first, range, cell, seedPoint)
    requires TestedUpTo(t, metric, point, near, far, ranges, k, range)
    ensures Nearest(t, metric, point, near, far, first, newRange, newCell, newSeedPoint) && newRange <= range
    ensures Worley.AllBelow(ranges, Worley.FarAxis(|point|, k), range) ==>
              newRange <= Distance(metric, point, SeedPoint(t, Worley.FarOn(Worley.FarAxis(|point|, k), near, far)))
    ensures !Worley.AllBelow(ranges, Worley.FarAxis(|point|, k), range) ==>
              newRange == range && newCell == cell && newSeedPoint == seedPoint
    ensures TestedUpTo(t, metric, point, near, far, ranges, k + 1, newRange)
  {
    var axes := Worley.FarAxis(|point|, k);
    newRange, newCell, newSeedPoint := range, cell, seedPoint;
    if Worley.AllBelow(ranges, axes, range) {
      newRange, newCell, newSeedPoint := TestPoint(t, metric, point, near, far, first, Worley.FarOn(axes, near, far), range, cell, seedPoint);
    }
    Worley.AllBelowShrinks(ranges, axes, newRange, range);
    TestedUpToShrinks(t, metric, point, near, far, ranges, k, range, newRange);
    TestedUpToExtends(t, metric, point, near, far, ranges, k, newRange);
  }

  /** What the tests guarantee for one range they guarantee for any smaller
      one. */
  lemma TestedUpToShrinks(t: PermutationTable, metric: Metric, point: seq<real>, near: seq<int>, far: seq<int>,
                          ranges: seq<real>, count: nat, range: real, smaller: real)
    requires t.Valid() && 2 <= |point| <= 4 && |ranges| == |near| == |far| == |point|
    requires count <= Worley.FarTestCount(|point|) && smaller <= range
    requires TestedUpTo(t, metric, point, near, far, ranges, count, range)
    ensures TestedUpTo(t, metric, point, near, far, ranges, count, smaller)
  {
    forall j | 0 <= j < count
      ensures NoNearer(t, metric, point, near, far, ranges, Worley.FarAxis(|point|, j), smaller)
    {
      var other := Worley.FarAxis(|point|, j);
      Worley.AllBelowShrinks(ranges, other, smaller, range);
      assert NoNearer(t, metric, point, near, far, ranges, other, range);
    }
  }

  /** The guarantee of the `count`-th test joins those before it. */
  lemma TestedUpToExtends(t: PermutationTable, metric: Metric, point: seq<real>, near: seq<int>, far: seq<int>,
                          ranges: seq<real>, count: nat, range: real)
    requires t.Valid() && 2 <= |point| <= 4 && |ranges| == |near| == |far| == |point|
    requires count < Worley.FarTestCount(|point|)
    requires TestedUpTo(t, metric, point, near, far, ranges, count, range)
    requires NoNearer(t, metric, point, near, far, ranges, Worley.FarAxis(|point|, count), range)
    ensures TestedUpTo(t, metric, point, near, far, ranges, count + 1, range)
  {
  }

  /** The 3 `test_point!` blocks of `cell2_seed`, in the source's
      order: one far axis, then both. */
  method FarTests2D(t: PermutationTable, metric: Metric, point: seq<real>, near: seq<int>, far: seq<int>,
                    ranges: seq<real>, ghost first: real, range: real, cell: seq<int>, seedPoint: seq<real>)
    returns (newRange: real, newCell: seq<int>, newSeedPoint: seq<real>)
    requires t.Valid() && |near| == |far| == |ranges| == |point| == 2
    requires Nearest(t, metric, point, near, far, first, range, cell, seedPoint)
    ensures Nearest(t, metric, point, near, far, first, newRange, newCell, newSeedPoint) && newRange <= range
    ensures TestedUpTo(t, metric, point, near, far, ranges, 3, newRange)
  {
    newRange, newCell, newSeedPoint := range, cell, seedPoint;
    newRange, newCell, newSeedPoint := TestFarAxes(t, metric, point, near, far, ranges, 0, first, newRange, newCell, newSeedPoint);  // far on x
    newRange, newCell, newSeedPoint := TestFarAxes(t, metric, point, near, far, ranges, 1, first, newRange, newCell, newSeedPoint);  // far on y
    newRange, newCell, newSeedPoint := TestFarAxes(t, metric, point, near, far, ranges, 2, first, newRange, newCell, newSeedPoint);  // far on x, y
  }

  /** `cell2_seed`: start at the near cell, then test the cells across each
      boundary whose squared distance `x_range`.. is below the range so far, in
      the order the source lists them. It returns the chosen cell, its
      feature point and the range to it. */
  method Cell2Seed(t: PermutationTable, metric: Metric, point: seq<real>)
    returns (seedCell: seq<int>, seedPoint: seq<real>, range: real)
    requires t.Valid() && |point| == 2
    ensures Worley.Between(seedCell, Worley.Near(point), Worley.Far(point))
    ensures seedPoint == SeedPoint(t, seedCell) && range == Distance(metric, point, seedPoint)
    ensures range <= Distance(metric, point, SeedPoint(t, Worley.Near(point)))
    ensures NoneNearer(t, metric, point, range)
  {
    var near := Worley.Near(point);
    var far := Worley.Far(point);
    seedCell := near;
    seedPoint := SeedPoint(t, near);
    range := Distance(metric, point, seedPoint);
    ghost var first := range;
    var ranges := Worley.Range(point);
    range, seedCell, seedPoint := FarTests2D(t, metric, point, near, far, ranges, first, range, seedCell, seedPoint);
  }
  /** The 7 `test_point!` blocks of `cell3_seed`, in the source's
      order: one far axis, then two and all three. */
  method FarTests3D(t: PermutationTable, metric: Metric, point: seq<real>, near: seq<int>, far: seq<int>,
                    ranges: seq<real>, ghost first: real, range: real, cell: seq<int>, seedPoint: seq<real>)
    returns (newRange: real, newCell: seq<int>, newSeedPoint: seq<real>)
    requires t.Valid() && |near| == |far| == |ranges| == |point| == 3
    requires Nearest(t, metric, point, near, far, first, range, cell, seedPoint)
    ensures Nearest(t, metric, point, near, far, first, newRange, newCell, newSeedPoint) && newRange <= range
    ensures TestedUpTo(t, metric, point, near, far, ranges, 7, newRange)
  {
    newRange, newCell, newSeedPoint := OneFarAxis3D(t, metric, point, near, far, ranges, first, range, cell, seedPoint);
    newRange, newCell, newSeedPoint := MoreFarAxes3D(t, metric, point, near, far, ranges, first, newRange, newCell, newSeedPoint);
  }

  /** The three blocks of `cell3_seed` with one far axis. */
  method OneFarAxis3D(t: PermutationTable, metric: Metric, point: seq<real>, near: seq<int>, far: seq<int>,
                      ranges: seq<real>, ghost first: real, range: real, cell: seq<int>, seedPoint: seq<real>)
    returns (newRange: real, newCell: seq<int>, newSeedPoint: seq<real>)
    requires t.Valid() && |near| == |far| == |ranges| == |point| == 3
    requires Nearest(t, metric, point, near, far, first, range, cell, seedPoint)
    requires TestedUpTo(t, metric, point, near, far, ranges, 0, range)
    ensures Nearest(t, metric, point, near, far, first, newRange, newCell, newSeedPoint) && newRange <= range
    ensures TestedUpTo(t, metric, point, near, far, ranges, 3, newRange)
  {
    newRange, newCell, newSeedPoint := range, cell, seedPoint;
    newRange, newCell, newSeedPoint := TestFarAxes(t, metric, point, near, far, ranges, 0, first, newRange, newCell, newSeedPoint);  // far on x
    newRange, newCell, newSeedPoint := TestFarAxes(t, metric, point, near, far, ranges, 1, first, newRange, newCell, newSeedPoint);  // far on y
    newRange, newCell, newSeedPoint := TestFarAxes(t, metric, point, near, far, ranges, 2, first, newRange, newCell, newSeedPoint);  // far on z
  }

  /** The four blocks of `cell3_seed` with two or three far axes. */
  method MoreFarAxes3D(t: PermutationTable, metric: Metric, point: seq<real>, near: seq<int>, far: seq<int>,
                       ranges: seq<real>, ghost first: real, range: real, cell: seq<int>, seedPoint: seq<real>)
    returns (newRange: real, newCell: seq<int>, newSeedPoint: seq<real>)
    requires t.Valid() && |near| == |far| == |ranges| == |point| == 3
    requires Nearest(t, metric, point, near, far, first, range, cell, seedPoint)
    requires TestedUpTo(t, metric, point, near, far, ranges, 3, range)
    ensures Nearest(t, metric, point, near, far, first, newRange, newCell, newSeedPoint) && newRange <= range
    ensures TestedUpTo(t, metric, point, near, far, ranges, 7, newRange)
  {
    newRange, newCell, newSeedPoint := range, cell, seedPoint;
    newRange, newCell, newSeedPoint := TestFarAxes(t, metric, point, near, far, ranges, 3, first, newRange, newCell, newSeedPoint);  // far on x, y
    newRange, newCell, newSeedPoint := TestFarAxes(t, metric, point, near, far, ranges, 4, first, newRange, newCell, newSeedPoint);  // far on x, z
    newRange, newCell, newSeedPoint := TestFarAxes(t, metric, point, near, far, ranges, 5, first, newRange, newCell, newSeedPoint);  // far on y, z
    newRange, newCell, newSeedPoint := TestFarAxes(t, metric, point, near, far, ranges, 6, first, newRange, newCell, newSeedPoint);  // far on x, y, z
  }

  /** `cell3_seed`: start at the near cell, then test the cells across each
      boundary whose squared distance `x_range`.. is below the range so far, in
      the order the source lists them. It returns the chosen cell, its
      feature point and the range to it. */
  method Cell3Seed(t: PermutationTable, metric: Metric, point: seq<real>)
    returns (seedCell: seq<int>, seedPoint: seq<real>, range: real)
    requires t.Valid() && |point| == 3
    ensures Worley.Between(seedCell, Worley.Near(point), Worley.Far(point))
    ensures seedPoint == SeedPoint(t, seedCell) && range == Distance(metric, point, seedPoint)
    ensures range <= Distance(metric, point, SeedPoint(t, Worley.Near(point)))
    ensures NoneNearer(t, metric, point, range)
  {
    var near := Worley.Near(point);
    var far := Worley.Far(point);
    seedCell := near;
    seedPoint := SeedPoint(t, near);
    range := Distance(metric, point, seedPoint);
    ghost var first := range;
    var ranges := Worley.Range(point);
    range, seedCell, seedPoint := FarTests3D(t, metric, point, near, far, ranges, first, range, seedCell, seedPoint);
  }
  /** The 15 `test_point!` blocks of `cell4_seed`, in the source's
      order: one far axis, then two, three and all four. */
  method FarTests4D(t: PermutationTable, metric: Metric, point: seq<real>, near: seq<int>, far: seq<int>,
                    ranges: seq<real>, ghost first: real, range: real, cell: seq<int>, seedPoint: seq<real>)
    returns (newRange: real, newCell: seq<int>, newSeedPoint: seq<real>)
    requires t.Valid() && |near| == |far| == |ranges| == |point| == 4
    requires Nearest(t, metric, point, near, far, first, range, cell, seedPoint)
    ensures Nearest(t, metric, point, near, far, first, newRange, newCell, newSeedPoint) && newRange <= range
    ensures TestedUpTo(t, metric, point, near, far, ranges, 15, newRange)
  {
    newRange, newCell, newSeedPoint := OneFarAxis4D(t, metric, point, near, far, ranges, first, range, cell, seedPoint);
    newRange, newCell, newSeedPoint := TwoFarAxes4D(t, metric, point, near, far, ranges, first, newRange, newCell, newSeedPoint);
    newRange, newCell, newSeedPoint := MoreFarAxes4D(t, metric, point, near, far, ranges, first, newRange, newCell, newSeedPoint);
  }

  /** The four blocks of `cell4_seed` with one far axis. */
  method OneFarAxis4D(t: PermutationTable, metric: Metric, point: seq<real>, near: seq<int>, far: seq<int>,
                      ranges: seq<real>, ghost first: real, range: real, cell: seq<int>, seedPoint: seq<real>)
    returns (newRange: real, newCell: seq<int>, newSeedPoint: seq<real>)
    requires t.Valid() && |near| == |far| == |ranges| == |point| == 4
    requires Nearest(t, metric, point, near, far, first, range, cell, seedPoint)
    requires TestedUpTo(t, metric, point, near, far, ranges, 0, range)
    ensures Nearest(t, metric, point, near, far, first, newRange, newCell, newSeedPoint) && newRange <= range
    ensures TestedUpTo(t, metric, point, near, far, ranges, 4, newRange)
  {
    newRange, newCell, newSeedPoint := range, cell, seedPoint;
    newRange, newCell, newSeedPoint := TestFarAxes(t, metric, point, near, far, ranges, 0, first, newRange, newCell, newSeedPoint);  // far on x
    newRange, newCell, newSeedPoint := TestFarAxes(t, metric, point, near, far, ranges, 1, first, newRange, newCell, newSeedPoint);  // far on y
    newRange, newCell, newSeedPoint := TestFarAxes(t, metric, point, near, far, ranges, 2, first, newRange, newCell, newSeedPoint);  // far on z
    newRange, newCell, newSeedPoint := TestFarAxes(t, metric, point, near, far, ranges, 3, first, newRange, newCell, newSeedPoint);  // far on w
  }

  /** The six blocks of `cell4_seed` with two far axes. */
  method TwoFarAxes4D(t: PermutationTable, metric: Metric, point: seq<real>, near: seq<int>, far: seq<int>,
                      ranges: seq<real>, ghost first: real, range: real, cell: seq<int>, seedPoint: seq<real>)
    returns (newRange: real, newCell: seq<int>, newSeedPoint: seq<real>)
    requires t.Valid() && |near| == |far| == |ranges| == |point| == 4
    requires Nearest(t, metric, point, near, far, first, range, cell, seedPoint)
    requires TestedUpTo(t, metric, point, near, far, ranges, 4, range)
    ensures Nearest(t, metric, point, near, far, first, newRange, newCell, newSeedPoint) && newRange <= range
    ensures TestedUpTo(t, metric, point, near, far, ranges, 10, newRange)
  {
    newRange, newCell, newSeedPoint := range, cell, seedPoint;
    newRange, newCell, newSeedPoint := TestFarAxes(t, metric, point, near, far, ranges, 4, first, newRange, newCell, newSeedPoint);  // far on x, y
    newRange, newCell, newSeedPoint := TestFarAxes(t, metric, point, near, far, ranges, 5, first, newRange, newCell, newSeedPoint);  // far on x, z
    newRange, newCell, newSeedPoint := TestFarAxes(t, metric, point, near, far, ranges, 6, first, newRange, newCell, newSeedPoint);  // far on x, w
    newRange, newCell, newSeedPoint := TestFarAxes(t, metric, point, near, far, ranges, 7, first, newRange, newCell, newSeedPoint);  // far on y, z
    newRange, newCell, newSeedPoint := TestFarAxes(t, metric, point, near, far, ranges, 8, first, newRange, newCell, newSeedPoint);  // far on y, w
    newRange, newCell, newSeedPoint := TestFarAxes(t, metric, point, near, far, ranges, 9, first, newRange, newCell, newSeedPoint);  // far on z, w
  }

  /** The five blocks of `cell4_seed` with three or four far axes. */
  method MoreFarAxes4D(t: PermutationTable, metric: Metric, point: seq<real>, near: seq<int>, far: seq<int>,
                       ranges: seq<real>, ghost first: real, range: real, cell: seq<int>, seedPoint: seq<real>)
    returns (newRange: real, newCell: seq<int>, newSeedPoint: seq<real>)
    requires t.Valid() && |near| == |far| == |ranges| == |point| == 4
    requires Nearest(t, metric, point, near, far, first, range, cell, seedPoint)
    requires TestedUpTo(t, metric, point, near, far, ranges, 10, range)
    ensures Nearest(t, metric, point, near, far, first, newRange, newCell, newSeedPoint) && newRange <= range
    ensures TestedUpTo(t, metric, point, near, far, ranges, 15, newRange)
  {
    newRange, newCell, newSeedPoint := range, cell, seedPoint;
    newRange, newCell, newSeedPoint := TestFarAxes(t, metric, point, near, far, ranges, 10, first, newRange, newCell, newSeedPoint);  // far on x, y, z
    newRange, newCell, newSeedPoint := TestFarAxes(t, metric, point, near, far, ranges, 11, first, newRange, newCell, newSeedPoint);  // far on x, y, w
    newRange, newCell, newSeedPoint := TestFarAxes(t, metric, point, near, far, ranges, 12, first, newRange, newCell, newSeedPoint);  // far on x, z, w
    newRange, newCell, newSeedPoint := TestFarAxes(t, metric, point, near, far, ranges, 13, first, newRange, newCell, newSeedPoint);  // far on y, z, w
    newRange, newCell, newSeedPoint := TestFarAxes(t, metric, point, near, far, ranges, 14, first, newRange, newCell, newSeedPoint);  // far on x, y, z, w
  }

  /** `cell4_seed`: start at the near cell, then test the cells across each
      boundary whose squared distance `x_range`.. is below the range so far, in
      the order the source lists them. It returns the chosen cell, its
      feature point and the range to it. */
  method Cell4Seed(t: PermutationTable, metric: Metric, point: seq<real>)
    returns (seedCell: seq<int>, seedPoint: seq<real>, range: real)
    requires t.Valid() && |point| == 4
    ensures Worley.Between(seedCell, Worley.Near(point), Worley.Far(point))
    ensures seedPoint == SeedPoint(t, seedCell) && range == Distance(metric, point, seedPoint)
    ensures range <= Distance(metric, point, SeedPoint(t, Worley.Near(point)))
    ensures NoneNearer(t, metric, point, range)
  {
    var near := Worley.Near(point);
    var far := Worley.Far(point);
    seedCell := near;
    seedPoint := SeedPoint(t, near);
    range := Distance(metric, point, seedPoint);
    ghost var first := range;
    var ranges := Worley.Range(point);
    range, seedCell, seedPoint := FarTests4D(t, metric, point, near, far, ranges, first, range, seedCell, seedPoint);
  }
  // ---------------------------------------------------------------- search orders

  /** An offset into the block of cells around a cell: every component is
      -1, 0 or 1. */
  predicate IsOffset(o: seq<int>)
  {
    forall i :: 0 <= i < |o| ==> -1 <= o[i] <= 1
  }

  predicate IsOrigin(o: seq<int>)
  {
    forall i :: 0 <= i < |o| ==> o[i] == 0
  }

  function Flag(b: bool): nat
  {
    if b then 1 else 0
  }

  /** How many axes an offset moves along: 1 for a face neighbour, 2 for an
      edge neighbour, 3 and 4 for corners. */
  function Moved(o: seq<int>): (m: nat)
    requires 2 <= |o| <= 4
    ensures m <= |o|
  {
    Flag(o[0] != 0) + Flag(o[1] != 0) + (if |o| > 2 then Flag(o[2] != 0) else 0) + (if |o| > 3 then Flag(o[3] != 0) else 0)
  }

  /** The offset read as a base-3 numeral, x first; the origin is the middle
      code. */
  function Code(o: seq<int>): int
    requires 2 <= |o| <= 4
  {
    var c2 := (o[0] + 1) * 3 + (o[1] + 1);
    if |o| == 2 then c2
    else if |o| == 3 then c2 * 3 + (o[2] + 1)
    else (c2 * 3 + (o[2] + 1)) * 3 + (o[3] + 1)
  }

  /** Which axes an offset leaves alone, as a binary numeral with x as the
      highest bit. */
  function Unmoved(o: seq<int>): nat
    requires 2 <= |o| <= 4
  {
    var u2 := Flag(o[0] == 0) * 2 + Flag(o[1] == 0);
    if |o| == 2 then u2
    else if |o| == 3 then u2 * 2 + Flag(o[2] == 0)
    else (u2 * 2 + Flag(o[2] == 0)) * 2 + Flag(o[3] == 0)
  }

  /** The order of the search tables: by the number of moved axes, then by
      which axes move, then by the code. */
  predicate Precedes(a: seq<int>, b: seq<int>)
    requires 2 <= |a| <= 4 && 2 <= |b| <= 4
  {
    Moved(a) < Moved(b)
    || (Moved(a) == Moved(b) && (Unmoved(a) < Unmoved(b) || (Unmoved(a) == Unmoved(b) && Code(a) < Code(b))))
  }

  lemma PrecedesTransitive(a: seq<int>, b: seq<int>, c: seq<int>)
    requires 2 <= |a| <= 4 && 2 <= |b| <= 4 && 2 <= |c| <= 4
    requires Precedes(a, b) && Precedes(b, c)
    ensures Precedes(a, c)
  {
  }

  /** In a table where each entry precedes the next, every entry precedes
      every later one: they are distinct, and the number of moved axes
      never decreases. */
  lemma {:induction false} ChainPrecedes(t: seq<seq<int>>, j: nat, k: nat)
    requires forall i :: 0 <= i < |t| ==> 2 <= |t[i]| <= 4
    requires forall i :: 0 <= i < |t| - 1 ==> Precedes(t[i], t[i + 1])
    requires j < k < |t|
    ensures Precedes(t[j], t[k]) && Moved(t[j]) <= Moved(t[k]) && t[j] != t[k]
    decreases k - j
  {
    if j + 1 < k {
      ChainPrecedes(t, j + 1, k);
      PrecedesTransitive(t[j], t[j + 1], t[k]);
    }
  }

  /** Component-wise bounds make an offset, and a nonzero component keeps it
      off the origin. */
  lemma OffsetByComponents(o: seq<int>)
    requires 2 <= |o| <= 4
    requires -1 <= o[0] <= 1 && -1 <= o[1] <= 1
    requires |o| > 2 ==> -1 <= o[2] <= 1
    requires |o| > 3 ==> -1 <= o[3] <= 1
    requires o[0] != 0 || o[1] != 0 || (|o| > 2 && o[2] != 0) || (|o| > 3 && o[3] != 0)
    ensures IsOffset(o) && !IsOrigin(o)
  {
  }

  /** Every offset other than the origin appears in `offsets`. */
  ghost predicate Covers(offsets: seq<seq<int>>, n: nat)
  {
    forall o :: |o| == n && IsOffset(o) && !IsOrigin(o) ==> o in offsets
  }

  /** Entry `k` of `Cell2Neighbours`. */
  function Entry2(k: nat): (o: seq<int>)
    requires k < 8
    ensures |o| == 2
  {
    match k
    case 0 => [-1, 0]
    case 1 => [1, 0]
    case 2 => [0, -1]
    case 3 => [0, 1]
    case 4 => [-1, -1]
    case 5 => [-1, 1]
    case 6 => [1, -1]
    case 7 => [1, 1]
  }

  /** The offsets of the eight `test_point!` calls of `cell2_seed_2_points`,
      in their order: the four facing cells, then the four corner cells. */
  function Cell2Neighbours(): (r: seq<seq<int>>)
    ensures |r| == 8
  {
    seq(8, k requires 0 <= k < 8 => Entry2(k))
  }

  predicate EntryFacts2(k: nat)
    requires k < 8
  {
    var o := Entry2(k);
    -1 <= o[0] <= 1 && -1 <= o[1] <= 1
    && (o[0] != 0 || o[1] != 0)
    && (k + 1 < 8 ==> Precedes(o, Entry2(k + 1)))
  }

  lemma EntryFacts2At0()
    ensures EntryFacts2(0)
  {
  }

  lemma EntryFacts2At1()
    ensures EntryFacts2(1)
  {
  }

  lemma EntryFacts2At2()
    ensures EntryFacts2(2)
  {
  }

  lemma EntryFacts2At3()
    ensures EntryFacts2(3)
  {
  }

  lemma EntryFacts2At4()
    ensures EntryFacts2(4)
  {
  }

  lemma EntryFacts2At5()
    ensures EntryFacts2(5)
  {
  }

  lemma EntryFacts2At6()
    ensures EntryFacts2(6)
  {
  }

  lemma EntryFacts2At7()
    ensures EntryFacts2(7)
  {
  }

  /** The facts about entry `k`, each checked on its own literal entry. */
  lemma EntryFacts2Hold(k: nat)
    requires k < 8
    ensures EntryFacts2(k)
  {
    match k
    case 0 => EntryFacts2At0();
    case 1 => EntryFacts2At1();
    case 2 => EntryFacts2At2();
    case 3 => EntryFacts2At3();
    case 4 => EntryFacts2At4();
    case 5 => EntryFacts2At5();
    case 6 => EntryFacts2At6();
    case _ => EntryFacts2At7();
  }

  lemma Covers2(o: seq<int>)
    requires |o| == 2 && IsOffset(o) && !IsOrigin(o)
    ensures exists k :: 0 <= k < 8 && Entry2(k) == o
  {
    if o[0] == -1 && o[1] == -1 {
      assert o == Entry2(4);
    } else if o[0] == -1 && o[1] == 0 {
      assert o == Entry2(0);
    } else if o[0] == -1 && o[1] == 1 {
      assert o == Entry2(5);
    } else if o[0] == 0 && o[1] == -1 {
      assert o == Entry2(2);
    } else if o[0] == 0 && o[1] == 1 {
      assert o == Entry2(3);
    } else if o[0] == 1 && o[1] == -1 {
      assert o == Entry2(6);
    } else if o[0] == 1 && o[1] == 0 {
      assert o == Entry2(1);
    } else {
      assert o == Entry2(7);
    }
  }

  /** The entries of `Cell2Neighbours` are offsets other than the origin, and each
      precedes the next. */
  lemma SearchOrder2Entries()
    ensures var t := Cell2Neighbours();
      (forall k :: 0 <= k < 8 ==> 2 <= |t[k]| <= 4)
      && (forall k :: 0 <= k < 8 ==> |t[k]| == 2 && IsOffset(t[k]) && !IsOrigin(t[k]))
      && (forall k :: 0 <= k < 8 - 1 ==> Precedes(t[k], t[k + 1]))
  {
    var t := Cell2Neighbours();
    forall k | 0 <= k < 8
      ensures |t[k]| == 2 && IsOffset(t[k]) && !IsOrigin(t[k]) && (k + 1 < 8 ==> Precedes(t[k], t[k + 1]))
    {
      EntryFacts2Hold(k);
      OffsetByComponents(t[k]);
    }
  }

  lemma SearchOrder2Covers()
    ensures Covers(Cell2Neighbours(), 2)
  {
    var t := Cell2Neighbours();
    forall o | |o| == 2 && IsOffset(o) && !IsOrigin(o)
      ensures o in t
    {
      Covers2(o);
      var k :| 0 <= k < 8 && Entry2(k) == o;
      assert t[k] == o;
    }
  }

  /** `Cell2Neighbours` holds 8 distinct offsets other than the origin, ordered by
      the number of axes they move along, and it holds every such offset. */
  lemma SearchOrder2()
    ensures var t := Cell2Neighbours();
      (forall k :: 0 <= k < 8 ==> |t[k]| == 2 && IsOffset(t[k]) && !IsOrigin(t[k]))
      && (forall j, k :: 0 <= j < k < 8 ==> t[j] != t[k])
      && (forall j, k :: 0 <= j <= k < 8 ==> Moved(t[j]) <= Moved(t[k]))
      && Covers(t, 2)
  {
    var t := Cell2Neighbours();
    SearchOrder2Entries();
    forall j, k | 0 <= j < k < 8
      ensures Moved(t[j]) <= Moved(t[k]) && t[j] != t[k]
    {
      ChainPrecedes(t, j, k);
    }
    SearchOrder2Covers();
  }

  /** Line `i` of `CELL3_SEARCH_ORDER` as the source lays it out, 5 offsets to a line. */
  function Row3(i: nat): (r: seq<seq<int>>)
    requires i < 6
    ensures |r| == (if i < 5 then 5 else 1) && forall j :: 0 <= j < |r| ==> |r[j]| == 3
  {
    match i
    case 0 => [[-1, 0, 0], [1, 0, 0], [0, -1, 0], [0, 1, 0], [0, 0, -1]]
    case 1 => [[0, 0, 1], [-1, -1, 0], [-1, 1, 0], [1, -1, 0], [1, 1, 0]]
    case 2 => [[-1, 0, -1], [-1, 0, 1], [1, 0, -1], [1, 0, 1], [0, -1, -1]]
    case 3 => [[0, -1, 1], [0, 1, -1], [0, 1, 1], [-1, -1, -1], [-1, -1, 1]]
    case 4 => [[-1, 1, -1], [-1, 1, 1], [1, -1, -1], [1, -1, 1], [1, 1, -1]]
    case 5 => [[1, 1, 1]]
  }

  /** Entry `k` of `CELL3_SEARCH_ORDER`. */
  function Entry3(k: nat): (o: seq<int>)
    requires k < 26
    ensures |o| == 3
  {
    Row3(k / 5)[k % 5]
  }

  /** `CELL3_SEARCH_ORDER`: the 26 neighbours of a cell, faces first, then
      edges, then corners. */
  function Cell3SearchOrder(): (r: seq<seq<int>>)
    ensures |r| == 26
  {
    seq(26, k requires 0 <= k < 26 => Entry3(k))
  }

  predicate EntryFacts3(k: nat)
    requires k < 26
  {
    var o := Entry3(k);
    -1 <= o[0] <= 1 && -1 <= o[1] <= 1 && -1 <= o[2] <= 1
    && (o[0] != 0 || o[1] != 0 || o[2] != 0)
    && (k + 1 < 26 ==> Precedes(o, Entry3(k + 1)))
  }

  lemma EntryFacts3At0()
    ensures EntryFacts3(0)
  {
  }

  lemma EntryFacts3At1()
    ensures EntryFacts3(1)
  {
  }

  lemma EntryFacts3At2()
    ensures EntryFacts3(2)
  {
  }

  lemma EntryFacts3At3()
    ensures EntryFacts3(3)
  {
  }

  lemma EntryFacts3At4()
    ensures EntryFacts3(4)
  {
  }

  lemma EntryFacts3At5()
    ensures EntryFacts3(5)
  {
  }

  lemma EntryFacts3At6()
    ensures EntryFacts3(6)
  {
  }

  lemma EntryFacts3At7()
    ensures EntryFacts3(7)
  {
  }

  lemma EntryFacts3At8()
    ensures EntryFacts3(8)
  {
  }

  lemma EntryFacts3At9()
    ensures EntryFacts3(9)
  {
  }

  lemma EntryFacts3At10()
    ensures EntryFacts3(10)
  {
  }

  lemma EntryFacts3At11()
    ensures EntryFacts3(11)
  {
  }

  lemma EntryFacts3At12()
    ensures EntryFacts3(12)
  {
  }

  lemma EntryFacts3At13()
    ensures EntryFacts3(13)
  {
  }

  lemma EntryFacts3At14()
    ensures EntryFacts3(14)
  {
  }

  lemma EntryFacts3At15()
    ensures EntryFacts3(15)
  {
  }

  lemma EntryFacts3At16()
    ensures EntryFacts3(16)
  {
  }

  lemma EntryFacts3At17()
    ensures EntryFacts3(17)
  {
  }

  lemma EntryFacts3At18()
    ensures EntryFacts3(18)
  {
  }

  lemma EntryFacts3At19()
    ensures EntryFacts3(19)
  {
  }

  lemma EntryFacts3At20()
    ensures EntryFacts3(20)
  {
  }

  lemma EntryFacts3At21()
    ensures EntryFacts3(21)
  {
  }

  lemma EntryFacts3At22()
    ensures EntryFacts3(22)
  {
  }

  lemma EntryFacts3At23()
    ensures EntryFacts3(23)
  {
  }

  lemma EntryFacts3At24()
    ensures EntryFacts3(24)
  {
  }

  lemma EntryFacts3At25()
    ensures EntryFacts3(25)
  {
  }

  /** The facts about entry `k`, each checked on its own literal entry. */
  lemma EntryFacts3Hold(k: nat)
    requires k < 26
    ensures EntryFacts3(k)
  {
    match k
    case 0 => EntryFacts3At0();
    case 1 => EntryFacts3At1();
    case 2 => EntryFacts3At2();
    case 3 => EntryFacts3At3();
    case 4 => EntryFacts3At4();
    case 5 => EntryFacts3At5();
    case 6 => EntryFacts3At6();
    case 7 => EntryFacts3At7();
    case 8 => EntryFacts3At8();
    case 9 => EntryFacts3At9();
    case 10 => EntryFacts3At10();
    case 11 => EntryFacts3At11();
    case 12 => EntryFacts3At12();
    case 13 => EntryFacts3At13();
    case 14 => EntryFacts3At14();
    case 15 => EntryFacts3At15();
    case 16 => EntryFacts3At16();
    case 17 => EntryFacts3At17();
    case 18 => EntryFacts3At18();
    case 19 => EntryFacts3At19();
    case 20 => EntryFacts3At20();
    case 21 => EntryFacts3At21();
    case 22 => EntryFacts3At22();
    case 23 => EntryFacts3At23();
    case 24 => EntryFacts3At24();
    case _ => EntryFacts3At25();
  }

  lemma Covers3Back(o: seq<int>)
    requires |o| == 3 && IsOffset(o) && !IsOrigin(o) && o[0] == -1
    ensures exists k :: 0 <= k < 26 && Entry3(k) == o
  {
    if o[1] == -1 && o[2] == -1 {
      assert o == Entry3(18);
    } else if o[1] == -1 && o[2] == 0 {
      assert o == Entry3(6);
    } else if o[1] == -1 && o[2] == 1 {
      assert o == Entry3(19);
    } else if o[1] == 0 && o[2] == -1 {
      assert o == Entry3(10);
    } else if o[1] == 0 && o[2] == 0 {
      assert o == Entry3(0);
    } else if o[1] == 0 && o[2] == 1 {
      assert o == Entry3(11);
    } else if o[1] == 1 && o[2] == -1 {
      assert o == Entry3(20);
    } else if o[1] == 1 && o[2] == 0 {
      assert o == Entry3(7);
    } else {
      assert o == Entry3(21);
    }
  }

  lemma Covers3Level(o: seq<int>)
    requires |o| == 3 && IsOffset(o) && !IsOrigin(o) && o[0] == 0
    ensures exists k :: 0 <= k < 26 && Entry3(k) == o
  {
    if o[1] == -1 && o[2] == -1 {
      assert o == Entry3(14);
    } else if o[1] == -1 && o[2] == 0 {
      assert o == Entry3(2);
    } else if o[1] == -1 && o[2] == 1 {
      assert o == Entry3(15);
    } else if o[1] == 0 && o[2] == -1 {
      assert o == Entry3(4);
    } else if o[1] == 0 && o[2] == 1 {
      assert o == Entry3(5);
    } else if o[1] == 1 && o[2] == -1 {
      assert o == Entry3(16);
    } else if o[1] == 1 && o[2] == 0 {
      assert o == Entry3(3);
    } else {
      assert o == Entry3(17);
    }
  }

  lemma Covers3Ahead(o: seq<int>)
    requires |o| == 3 && IsOffset(o) && !IsOrigin(o) && o[0] == 1
    ensures exists k :: 0 <= k < 26 && Entry3(k) == o
  {
    if o[1] == -1 && o[2] == -1 {
      assert o == Entry3(22);
    } else if o[1] == -1 && o[2] == 0 {
      assert o == Entry3(8);
    } else if o[1] == -1 && o[2] == 1 {
      assert o == Entry3(23);
    } else if o[1] == 0 && o[2] == -1 {
      assert o == Entry3(12);
    } else if o[1] == 0 && o[2] == 0 {
      assert o == Entry3(1);
    } else if o[1] == 0 && o[2] == 1 {
      assert o == Entry3(13);
    } else if o[1] == 1 && o[2] == -1 {
      assert o == Entry3(24);
    } else if o[1] == 1 && o[2] == 0 {
      assert o == Entry3(9);
    } else {
      assert o == Entry3(25);
    }
  }

  /** Every offset other than the origin is an entry of `CELL3_SEARCH_ORDER`. */
  lemma Covers3(o: seq<int>)
    requires |o| == 3 && IsOffset(o) && !IsOrigin(o)
    ensures exists k :: 0 <= k < 26 && Entry3(k) == o
  {
    if o[0] == -1 {
      Covers3Back(o);
    } else if o[0] == 0 {
      Covers3Level(o);
    } else {
      Covers3Ahead(o);
    }
  }

  /** The entries of `CELL3_SEARCH_ORDER` are offsets other than the origin, and each
      precedes the next. */
  lemma SearchOrder3Entries()
    ensures var t := Cell3SearchOrder();
      (forall k :: 0 <= k < 26 ==> 2 <= |t[k]| <= 4)
      && (forall k :: 0 <= k < 26 ==> |t[k]| == 3 && IsOffset(t[k]) && !IsOrigin(t[k]))
      && (forall k :: 0 <= k < 26 - 1 ==> Precedes(t[k], t[k + 1]))
  {
    var t := Cell3SearchOrder();
    forall k | 0 <= k < 26
      ensures |t[k]| == 3 && IsOffset(t[k]) && !IsOrigin(t[k]) && (k + 1 < 26 ==> Precedes(t[k], t[k + 1]))
    {
      EntryFacts3Hold(k);
      OffsetByComponents(t[k]);
    }
  }

  lemma SearchOrder3Covers()
    ensures Covers(Cell3SearchOrder(), 3)
  {
    var t := Cell3SearchOrder();
    forall o | |o| == 3 && IsOffset(o) && !IsOrigin(o)
      ensures o in t
    {
      Covers3(o);
      var k :| 0 <= k < 26 && Entry3(k) == o;
      assert t[k] == o;
    }
  }

  /** `CELL3_SEARCH_ORDER` holds 26 distinct offsets other than the origin, ordered by
      the number of axes they move along, and it holds every such offset. */
  lemma SearchOrder3()
    ensures var t := Cell3SearchOrder();
      (forall k :: 0 <= k < 26 ==> |t[k]| == 3 && IsOffset(t[k]) && !IsOrigin(t[k]))
      && (forall j, k :: 0 <= j < k < 26 ==> t[j] != t[k])
      && (forall j, k :: 0 <= j <= k < 26 ==> Moved(t[j]) <= Moved(t[k]))
      && Covers(t, 3)
  {
    var t := Cell3SearchOrder();
    SearchOrder3Entries();
    forall j, k | 0 <= j < k < 26
      ensures Moved(t[j]) <= Moved(t[k]) && t[j] != t[k]
    {
      ChainPrecedes(t, j, k);
    }
    SearchOrder3Covers();
  }

  /** Line `i` of `CELL4_SEARCH_ORDER` as the source lays it out, 4 offsets to a line. */
  function Row4(i: nat): (r: seq<seq<int>>)
    requires i < 20
    ensures |r| == 4 && forall j :: 0 <= j < |r| ==> |r[j]| == 4
  {
    match i
    case 0 => [[-1, 0, 0, 0], [1, 0, 0, 0], [0, -1, 0, 0], [0, 1, 0, 0]]
    case 1 => [[0, 0, -1, 0], [0, 0, 1, 0], [0, 0, 0, -1], [0, 0, 0, 1]]
    case 2 => [[-1, -1, 0, 0], [-1, 1, 0, 0], [1, -1, 0, 0], [1, 1, 0, 0]]
    case 3 => [[-1, 0, -1, 0], [-1, 0, 1, 0], [1, 0, -1, 0], [1, 0, 1, 0]]
    case 4 => [[-1, 0, 0, -1], [-1, 0, 0, 1], [1, 0, 0, -1], [1, 0, 0, 1]]
    case 5 => [[0, -1, -1, 0], [0, -1, 1, 0], [0, 1, -1, 0], [0, 1, 1, 0]]
    case 6 => [[0, -1, 0, -1], [0, -1, 0, 1], [0, 1, 0, -1], [0, 1, 0, 1]]
    case 7 => [[0, 0, -1, -1], [0, 0, -1, 1], [0, 0, 1, -1], [0, 0, 1, 1]]
    case 8 => [[-1, -1, -1, 0], [-1, -1, 1, 0], [-1, 1, -1, 0], [-1, 1, 1, 0]]
    case 9 => [[1, -1, -1, 0], [1, -1, 1, 0], [1, 1, -1, 0], [1, 1, 1, 0]]
    case 10 => [[-1, -1, 0, -1], [-1, -1, 0, 1], [-1, 1, 0, -1], [-1, 1, 0, 1]]
    case 11 => [[1, -1, 0, -1], [1, -1, 0, 1], [1, 1, 0, -1], [1, 1, 0, 1]]
    case 12 => [[-1, 0, -1, -1], [-1, 0, -1, 1], [-1, 0, 1, -1], [-1, 0, 1, 1]]
    case 13 => [[1, 0, -1, -1], [1, 0, -1, 1], [1, 0, 1, -1], [1, 0, 1, 1]]
    case 14 => [[0, -1, -1, -1], [0, -1, -1, 1], [0, -1, 1, -1], [0, -1, 1, 1]]
    case 15 => [[0, 1, -1, -1], [0, 1, -1, 1], [0, 1, 1, -1], [0, 1, 1, 1]]
    case 16 => [[-1, -1, -1, -1], [-1, -1, -1, 1], [-1, -1, 1, -1], [-1, -1, 1, 1]]
    case 17 => [[-1, 1, -1, -1], [-1, 1, -1, 1], [-1, 1, 1, -1], [-1, 1, 1, 1]]
    case 18 => [[1, -1, -1, -1], [1, -1, -1, 1], [1, -1, 1, -1], [1, -1, 1, 1]]
    case 19 => [[1, 1, -1, -1], [1, 1, -1, 1], [1, 1, 1, -1], [1, 1, 1, 1]]
  }

  /** Entry `k` of `CELL4_SEARCH_ORDER`. */
  function Entry4(k: nat): (o: seq<int>)
    requires k < 80
    ensures |o| == 4
  {
    Row4(k / 4)[k % 4]
  }

  /** `CELL4_SEARCH_ORDER`: the 80 neighbours of a cell, faces first, then
      edges, then corners. */
  function Cell4SearchOrder(): (r: seq<seq<int>>)
    ensures |r| == 80
  {
    seq(80, k requires 0 <= k < 80 => Entry4(k))
  }

  predicate EntryFacts4(k: nat)
    requires k < 80
  {
    var o := Entry4(k);
    -1 <= o[0] <= 1 && -1 <= o[1] <= 1 && -1 <= o[2] <= 1 && -1 <= o[3] <= 1
    && (o[0] != 0 || o[1] != 0 || o[2] != 0 || o[3] != 0)
    && (k + 1 < 80 ==> Precedes(o, Entry4(k + 1)))
  }

  lemma EntryFacts4At0()
    ensures EntryFacts4(0)
  {
  }

  lemma EntryFacts4At1()
    ensures EntryFacts4(1)
  {
  }

  lemma EntryFacts4At2()
    ensures EntryFacts4(2)
  {
  }

  lemma EntryFacts4At3()
    ensures EntryFacts4(3)
  {
  }

  lemma EntryFacts4At4()
    ensures EntryFacts4(4)
  {
  }

  lemma EntryFacts4At5()
    ensures EntryFacts4(5)
  {
  }

  lemma EntryFacts4At6()
    ensures EntryFacts4(6)
  {
  }

  lemma EntryFacts4At7()
    ensures EntryFacts4(7)
  {
  }

  lemma EntryFacts4At8()
    ensures EntryFacts4(8)
  {
  }

  lemma EntryFacts4At9()
    ensures EntryFacts4(9)
  {
  }

  lemma EntryFacts4At10()
    ensures EntryFacts4(10)
  {
  }

  lemma EntryFacts4At11()
    ensures EntryFacts4(11)
  {
  }

  lemma EntryFacts4At12()
    ensures EntryFacts4(12)
  {
  }

  lemma EntryFacts4At13()
    ensures EntryFacts4(13)
  {
  }

  lemma EntryFacts4At14()
    ensures EntryFacts4(14)
  {
  }

  lemma EntryFacts4At15()
    ensures EntryFacts4(15)
  {
  }

  lemma EntryFacts4At16()
    ensures EntryFacts4(16)
  {
  }

  lemma EntryFacts4At17()
    ensures EntryFacts4(17)
  {
  }

  lemma EntryFacts4At18()
    ensures EntryFacts4(18)
  {
  }

  lemma EntryFacts4At19()
    ensures EntryFacts4(19)
  {
  }

  lemma EntryFacts4At20()
    ensures EntryFacts4(20)
  {
  }

  lemma EntryFacts4At21()
    ensures EntryFacts4(21)
  {
  }

  lemma EntryFacts4At22()
    ensures EntryFacts4(22)
  {
  }

  lemma EntryFacts4At23()
    ensures EntryFacts4(23)
  {
  }

  lemma EntryFacts4At24()
    ensures EntryFacts4(24)
  {
  }

  lemma EntryFacts4At25()
    ensures EntryFacts4(25)
  {
  }

  lemma EntryFacts4At26()
    ensures EntryFacts4(26)
  {
  }

  lemma EntryFacts4At27()
    ensures EntryFacts4(27)
  {
  }

  lemma EntryFacts4At28()
    ensures EntryFacts4(28)
  {
  }

  lemma EntryFacts4At29()
    ensures EntryFacts4(29)
  {
  }

  lemma EntryFacts4At30()
    ensures EntryFacts4(30)
  {
  }

  lemma EntryFacts4At31()
    ensures EntryFacts4(31)
  {
  }

  lemma EntryFacts4At32()
    ensures EntryFacts4(32)
  {
  }

  lemma EntryFacts4At33()
    ensures EntryFacts4(33)
  {
  }

  lemma EntryFacts4At34()
    ensures EntryFacts4(34)
  {
  }

  lemma EntryFacts4At35()
    ensures EntryFacts4(35)
  {
  }

  lemma EntryFacts4At36()
    ensures EntryFacts4(36)
  {
  }

  lemma EntryFacts4At37()
    ensures EntryFacts4(37)
  {
  }

  lemma EntryFacts4At38()
    ensures EntryFacts4(38)
  {
  }

  lemma EntryFacts4At39()
    ensures EntryFacts4(39)
  {
  }

  lemma EntryFacts4At40()
    ensures EntryFacts4(40)
  {
  }

  lemma EntryFacts4At41()
    ensures EntryFacts4(41)
  {
  }

  lemma EntryFacts4At42()
    ensures EntryFacts4(42)
  {
  }

  lemma EntryFacts4At43()
    ensures EntryFacts4(43)
  {
  }

  lemma EntryFacts4At44()
    ensures EntryFacts4(44)
  {
  }

  lemma EntryFacts4At45()
    ensures EntryFacts4(45)
  {
  }

  lemma EntryFacts4At46()
    ensures EntryFacts4(46)
  {
  }

  lemma EntryFacts4At47()
    ensures EntryFacts4(47)
  {
  }

  lemma EntryFacts4At48()
    ensures EntryFacts4(48)
  {
  }

  lemma EntryFacts4At49()
    ensures EntryFacts4(49)
  {
  }

  lemma EntryFacts4At50()
    ensures EntryFacts4(50)
  {
  }

  lemma EntryFacts4At51()
    ensures EntryFacts4(51)
  {
  }

  lemma EntryFacts4At52()
    ensures EntryFacts4(52)
  {
  }

  lemma EntryFacts4At53()
    ensures EntryFacts4(53)
  {
  }

  lemma EntryFacts4At54()
    ensures EntryFacts4(54)
  {
  }

  lemma EntryFacts4At55()
    ensures EntryFacts4(55)
  {
  }

  lemma EntryFacts4At56()
    ensures EntryFacts4(56)
  {
  }

  lemma EntryFacts4At57()
    ensures EntryFacts4(57)
  {
  }

  lemma EntryFacts4At58()
    ensures EntryFacts4(58)
  {
  }

  lemma EntryFacts4At59()
    ensures EntryFacts4(59)
  {
  }

  lemma EntryFacts4At60()
    ensures EntryFacts4(60)
  {
  }

  lemma EntryFacts4At61()
    ensures EntryFacts4(61)
  {
  }

  lemma EntryFacts4At62()
    ensures EntryFacts4(62)
  {
  }

  lemma EntryFacts4At63()
    ensures EntryFacts4(63)
  {
  }

  lemma EntryFacts4At64()
    ensures EntryFacts4(64)
  {
  }

  lemma EntryFacts4At65()
    ensures EntryFacts4(65)
  {
  }

  lemma EntryFacts4At66()
    ensures EntryFacts4(66)
  {
  }

  lemma EntryFacts4At67()
    ensures EntryFacts4(67)
  {
  }

  lemma EntryFacts4At68()
    ensures EntryFacts4(68)
  {
  }

  lemma EntryFacts4At69()
    ensures EntryFacts4(69)
  {
  }

  lemma EntryFacts4At70()
    ensures EntryFacts4(70)
  {
  }

  lemma EntryFacts4At71()
    ensures EntryFacts4(71)
  {
  }

  lemma EntryFacts4At72()
    ensures EntryFacts4(72)
  {
  }

  lemma EntryFacts4At73()
    ensures EntryFacts4(73)
  {
  }

  lemma EntryFacts4At74()
    ensures EntryFacts4(74)
  {
  }

  lemma EntryFacts4At75()
    ensures EntryFacts4(75)
  {
  }

  lemma EntryFacts4At76()
    ensures EntryFacts4(76)
  {
  }

  lemma EntryFacts4At77()
    ensures EntryFacts4(77)
  {
  }

  lemma EntryFacts4At78()
    ensures EntryFacts4(78)
  {
  }

  lemma EntryFacts4At79()
    ensures EntryFacts4(79)
  {
  }

  /** The facts about entry `k`, each checked on its own literal entry. */
  lemma EntryFacts4Hold(k: nat)
    requires k < 80
    ensures EntryFacts4(k)
  {
    match k
    case 0 => EntryFacts4At0();
    case 1 => EntryFacts4At1();
    case 2 => EntryFacts4At2();
    case 3 => EntryFacts4At3();
    case 4 => EntryFacts4At4();
    case 5 => EntryFacts4At5();
    case 6 => EntryFacts4At6();
    case 7 => EntryFacts4At7();
    case 8 => EntryFacts4At8();
    case 9 => EntryFacts4At9();
    case 10 => EntryFacts4At10();
    case 11 => EntryFacts4At11();
    case 12 => EntryFacts4At12();
    case 13 => EntryFacts4At13();
    case 14 => EntryFacts4At14();
    case 15 => EntryFacts4At15();
    case 16 => EntryFacts4At16();
    case 17 => EntryFacts4At17();
    case 18 => EntryFacts4At18();
    case 19 => EntryFacts4At19();
    case 20 => EntryFacts4At20();
    case 21 => EntryFacts4At21();
    case 22 => EntryFacts4At22();
    case 23 => EntryFacts4At23();
    case 24 => EntryFacts4At24();
    case 25 => EntryFacts4At25();
    case 26 => EntryFacts4At26();
    case 27 => EntryFacts4At27();
    case 28 => EntryFacts4At28();
    case 29 => EntryFacts4At29();
    case 30 => EntryFacts4At30();
    case 31 => EntryFacts4At31();
    case 32 => EntryFacts4At32();
    case 33 => EntryFacts4At33();
    case 34 => EntryFacts4At34();
    case 35 => EntryFacts4At35();
    case 36 => EntryFacts4At36();
    case 37 => EntryFacts4At37();
    case 38 => EntryFacts4At38();
    case 39 => EntryFacts4At39();
    case 40 => EntryFacts4At40();
    case 41 => EntryFacts4At41();
    case 42 => EntryFacts4At42();
    case 43 => EntryFacts4At43();
    case 44 => EntryFacts4At44();
    case 45 => EntryFacts4At45();
    case 46 => EntryFacts4At46();
    case 47 => EntryFacts4At47();
    case 48 => EntryFacts4At48();
    case 49 => EntryFacts4At49();
    case 50 => EntryFacts4At50();
    case 51 => EntryFacts4At51();
    case 52 => EntryFacts4At52();
    case 53 => EntryFacts4At53();
    case 54 => EntryFacts4At54();
    case 55 => EntryFacts4At55();
    case 56 => EntryFacts4At56();
    case 57 => EntryFacts4At57();
    case 58 => EntryFacts4At58();
    case 59 => EntryFacts4At59();
    case 60 => EntryFacts4At60();
    case 61 => EntryFacts4At61();
    case 62 => EntryFacts4At62();
    case 63 => EntryFacts4At63();
    case 64 => EntryFacts4At64();
    case 65 => EntryFacts4At65();
    case 66 => EntryFacts4At66();
    case 67 => EntryFacts4At67();
    case 68 => EntryFacts4At68();
    case 69 => EntryFacts4At69();
    case 70 => EntryFacts4At70();
    case 71 => EntryFacts4At71();
    case 72 => EntryFacts4At72();
    case 73 => EntryFacts4At73();
    case 74 => EntryFacts4At74();
    case 75 => EntryFacts4At75();
    case 76 => EntryFacts4At76();
    case 77 => EntryFacts4At77();
    case 78 => EntryFacts4At78();
    case _ => EntryFacts4At79();
  }

  lemma Covers4BackBack(o: seq<int>)
    requires |o| == 4 && IsOffset(o) && !IsOrigin(o) && o[0] == -1 && o[1] == -1
    ensures exists k :: 0 <= k < 80 && Entry4(k) == o
  {
    if o[2] == -1 && o[3] == -1 {
      assert o == Entry4(64);
    } else if o[2] == -1 && o[3] == 0 {
      assert o == Entry4(32);
    } else if o[2] == -1 && o[3] == 1 {
      assert o == Entry4(65);
    } else if o[2] == 0 && o[3] == -1 {
      assert o == Entry4(40);
    } else if o[2] == 0 && o[3] == 0 {
      assert o == Entry4(8);
    } else if o[2] == 0 && o[3] == 1 {
      assert o == Entry4(41);
    } else if o[2] == 1 && o[3] == -1 {
      assert o == Entry4(66);
    } else if o[2] == 1 && o[3] == 0 {
      assert o == Entry4(33);
    } else {
      assert o == Entry4(67);
    }
  }

  lemma Covers4BackLevel(o: seq<int>)
    requires |o| == 4 && IsOffset(o) && !IsOrigin(o) && o[0] == -1 && o[1] == 0
    ensures exists k :: 0 <= k < 80 && Entry4(k) == o
  {
    if o[2] == -1 && o[3] == -1 {
      assert o == Entry4(48);
    } else if o[2] == -1 && o[3] == 0 {
      assert o == Entry4(12);
    } else if o[2] == -1 && o[3] == 1 {
      assert o == Entry4(49);
    } else if o[2] == 0 && o[3] == -1 {
      assert o == Entry4(16);
    } else if o[2] == 0 && o[3] == 0 {
      assert o == Entry4(0);
    } else if o[2] == 0 && o[3] == 1 {
      assert o == Entry4(17);
    } else if o[2] == 1 && o[3] == -1 {
      assert o == Entry4(50);
    } else if o[2] == 1 && o[3] == 0 {
      assert o == Entry4(13);
    } else {
      assert o == Entry4(51);
    }
  }

  lemma Covers4BackAhead(o: seq<int>)
    requires |o| == 4 && IsOffset(o) && !IsOrigin(o) && o[0] == -1 && o[1] == 1
    ensures exists k :: 0 <= k < 80 && Entry4(k) == o
  {
    if o[2] == -1 && o[3] == -1 {
      assert o == Entry4(68);
    } else if o[2] == -1 && o[3] == 0 {
      assert o == Entry4(34);
    } else if o[2] == -1 && o[3] == 1 {
      assert o == Entry4(69);
    } else if o[2] == 0 && o[3] == -1 {
      assert o == Entry4(42);
    } else if o[2] == 0 && o[3] == 0 {
      assert o == Entry4(9);
    } else if o[2] == 0 && o[3] == 1 {
      assert o == Entry4(43);
    } else if o[2] == 1 && o[3] == -1 {
      assert o == Entry4(70);
    } else if o[2] == 1 && o[3] == 0 {
      assert o == Entry4(35);
    } else {
      assert o == Entry4(71);
    }
  }

  lemma Covers4LevelBack(o: seq<int>)
    requires |o| == 4 && IsOffset(o) && !IsOrigin(o) && o[0] == 0 && o[1] == -1
    ensures exists k :: 0 <= k < 80 && Entry4(k) == o
  {
    if o[2] == -1 && o[3] == -1 {
      assert o == Entry4(56);
    } else if o[2] == -1 && o[3] == 0 {
      assert o == Entry4(20);
    } else if o[2] == -1 && o[3] == 1 {
      assert o == Entry4(57);
    } else if o[2] == 0 && o[3] == -1 {
      assert o == Entry4(24);
    } else if o[2] == 0 && o[3] == 0 {
      assert o == Entry4(2);
    } else if o[2] == 0 && o[3] == 1 {
      assert o == Entry4(25);
    } else if o[2] == 1 && o[3] == -1 {
      assert o == Entry4(58);
    } else if o[2] == 1 && o[3] == 0 {
      assert o == Entry4(21);
    } else {
      assert o == Entry4(59);
    }
  }

  lemma Covers4LevelLevel(o: seq<int>)
    requires |o| == 4 && IsOffset(o) && !IsOrigin(o) && o[0] == 0 && o[1] == 0
    ensures exists k :: 0 <= k < 80 && Entry4(k) == o
  {
    if o[2] == -1 && o[3] == -1 {
      assert o == Entry4(28);
    } else if o[2] == -1 && o[3] == 0 {
      assert o == Entry4(4);
    } else if o[2] == -1 && o[3] == 1 {
      assert o == Entry4(29);
    } else if o[2] == 0 && o[3] == -1 {
      assert o == Entry4(6);
    } else if o[2] == 0 && o[3] == 1 {
      assert o == Entry4(7);
    } else if o[2] == 1 && o[3] == -1 {
      assert o == Entry4(30);
    } else if o[2] == 1 && o[3] == 0 {
      assert o == Entry4(5);
    } else {
      assert o == Entry4(31);
    }
  }

  lemma Covers4LevelAhead(o: seq<int>)
    requires |o| == 4 && IsOffset(o) && !IsOrigin(o) && o[0] == 0 && o[1] == 1
    ensures exists k :: 0 <= k < 80 && Entry4(k) == o
  {
    if o[2] == -1 && o[3] == -1 {
      assert o == Entry4(60);
    } else if o[2] == -1 && o[3] == 0 {
      assert o == Entry4(22);
    } else if o[2] == -1 && o[3] == 1 {
      assert o == Entry4(61);
    } else if o[2] == 0 && o[3] == -1 {
      assert o == Entry4(26);
    } else if o[2] == 0 && o[3] == 0 {
      assert o == Entry4(3);
    } else if o[2] == 0 && o[3] == 1 {
      assert o == Entry4(27);
    } else if o[2] == 1 && o[3] == -1 {
      assert o == Entry4(62);
    } else if o[2] == 1 && o[3] == 0 {
      assert o == Entry4(23);
    } else {
      assert o == Entry4(63);
    }
  }

  lemma Covers4AheadBack(o: seq<int>)
    requires |o| == 4 && IsOffset(o) && !IsOrigin(o) && o[0] == 1 && o[1] == -1
    ensures exists k :: 0 <= k < 80 && Entry4(k) == o
  {
    if o[2] == -1 && o[3] == -1 {
      assert o == Entry4(72);
    } else if o[2] == -1 && o[3] == 0 {
      assert o == Entry4(36);
    } else if o[2] == -1 && o[3] == 1 {
      assert o == Entry4(73);
    } else if o[2] == 0 && o[3] == -1 {
      assert o == Entry4(44);
    } else if o[2] == 0 && o[3] == 0 {
      assert o == Entry4(10);
    } else if o[2] == 0 && o[3] == 1 {
      assert o == Entry4(45);
    } else if o[2] == 1 && o[3] == -1 {
      assert o == Entry4(74);
    } else if o[2] == 1 && o[3] == 0 {
      assert o == Entry4(37);
    } else {
      assert o == Entry4(75);
    }
  }

  lemma Covers4AheadLevel(o: seq<int>)
    requires |o| == 4 && IsOffset(o) && !IsOrigin(o) && o[0] == 1 && o[1] == 0
    ensures exists k :: 0 <= k < 80 && Entry4(k) == o
  {
    if o[2] == -1 && o[3] == -1 {
      assert o == Entry4(52);
    } else if o[2] == -1 && o[3] == 0 {
      assert o == Entry4(14);
    } else if o[2] == -1 && o[3] == 1 {
      assert o == Entry4(53);
    } else if o[2] == 0 && o[3] == -1 {
      assert o == Entry4(18);
    } else if o[2] == 0 && o[3] == 0 {
      assert o == Entry4(1);
    } else if o[2] == 0 && o[3] == 1 {
      assert o == Entry4(19);
    } else if o[2] == 1 && o[3] == -1 {
      assert o == Entry4(54);
    } else if o[2] == 1 && o[3] == 0 {
      assert o == Entry4(15);
    } else {
      assert o == Entry4(55);
    }
  }

  lemma Covers4AheadAhead(o: seq<int>)
    requires |o| == 4 && IsOffset(o) && !IsOrigin(o) && o[0] == 1 && o[1] == 1
    ensures exists k :: 0 <= k < 80 && Entry4(k) == o
  {
    if o[2] == -1 && o[3] == -1 {
      assert o == Entry4(76);
    } else if o[2] == -1 && o[3] == 0 {
      assert o == Entry4(38);
    } else if o[2] == -1 && o[3] == 1 {
      assert o == Entry4(77);
    } else if o[2] == 0 && o[3] == -1 {
      assert o == Entry4(46);
    } else if o[2] == 0 && o[3] == 0 {
      assert o == Entry4(11);
    } else if o[2] == 0 && o[3] == 1 {
      assert o == Entry4(47);
    } else if o[2] == 1 && o[3] == -1 {
      assert o == Entry4(78);
    } else if o[2] == 1 && o[3] == 0 {
      assert o == Entry4(39);
    } else {
      assert o == Entry4(79);
    }
  }

  /** Every offset other than the origin is an entry of `CELL4_SEARCH_ORDER`. */
  lemma Covers4(o: seq<int>)
    requires |o| == 4 && IsOffset(o) && !IsOrigin(o)
    ensures exists k :: 0 <= k < 80 && Entry4(k) == o
  {
    if o[0] == -1 && o[1] == -1 {
      Covers4BackBack(o);
    } else if o[0] == -1 && o[1] == 0 {
      Covers4BackLevel(o);
    } else if o[0] == -1 && o[1] == 1 {
      Covers4BackAhead(o);
    } else if o[0] == 0 && o[1] == -1 {
      Covers4LevelBack(o);
    } else if o[0] == 0 && o[1] == 0 {
      Covers4LevelLevel(o);
    } else if o[0] == 0 && o[1] == 1 {
      Covers4LevelAhead(o);
    } else if o[0] == 1 && o[1] == -1 {
      Covers4AheadBack(o);
    } else if o[0] == 1 && o[1] == 0 {
      Covers4AheadLevel(o);
    } else {
      Covers4AheadAhead(o);
    }
  }

  /** The entries of `CELL4_SEARCH_ORDER` are offsets other than the origin, and each
      precedes the next. */
  lemma SearchOrder4Entries()
    ensures var t := Cell4SearchOrder();
      (forall k :: 0 <= k < 80 ==> 2 <= |t[k]| <= 4)
      && (forall k :: 0 <= k < 80 ==> |t[k]| == 4 && IsOffset(t[k]) && !IsOrigin(t[k]))
      && (forall k :: 0 <= k < 80 - 1 ==> Precedes(t[k], t[k + 1]))
  {
    var t := Cell4SearchOrder();
    forall k | 0 <= k < 80
      ensures |t[k]| == 4 && IsOffset(t[k]) && !IsOrigin(t[k]) && (k + 1 < 80 ==> Precedes(t[k], t[k + 1]))
    {
      EntryFacts4Hold(k);
      OffsetByComponents(t[k]);
    }
  }

  lemma SearchOrder4Covers()
    ensures Covers(Cell4SearchOrder(), 4)
  {
    var t := Cell4SearchOrder();
    forall o | |o| == 4 && IsOffset(o) && !IsOrigin(o)
      ensures o in t
    {
      Covers4(o);
      var k :| 0 <= k < 80 && Entry4(k) == o;
      assert t[k] == o;
    }
  }

  /** `CELL4_SEARCH_ORDER` holds 80 distinct offsets other than the origin, ordered by
      the number of axes they move along, and it holds every such offset. */
  lemma SearchOrder4()
    ensures var t := Cell4SearchOrder();
      (forall k :: 0 <= k < 80 ==> |t[k]| == 4 && IsOffset(t[k]) && !IsOrigin(t[k]))
      && (forall j, k :: 0 <= j < k < 80 ==> t[j] != t[k])
      && (forall j, k :: 0 <= j <= k < 80 ==> Moved(t[j]) <= Moved(t[k]))
      && Covers(t, 4)
  {
    var t := Cell4SearchOrder();
    SearchOrder4Entries();
    forall j, k | 0 <= j < k < 80
      ensures Moved(t[j]) <= Moved(t[k]) && t[j] != t[k]
    {
      ChainPrecedes(t, j, k);
    }
    SearchOrder4Covers();
  }

  // ---------------------------------------------------------------- two nearest feature points: cell2_seed_2_points .. cell4_seed_2_points

  /** The state of `cellN_seed_2_points`: the nearest and the second nearest
      feature point found so far, each with its range. */
  datatype Nearest2 = Nearest2(point0: seq<real>, range0: real, point1: seq<real>, range1: real)

  /** One tested candidate at range `r`: a strictly nearer one becomes the
      nearest and the old nearest moves to second place; otherwise one
      strictly nearer than the second replaces it. The ranges kept are the
      two smallest of the three. */
  function Consider(s: Nearest2, p: seq<real>, r: real): (s': Nearest2)
    ensures s.range0 <= s.range1 ==>
      s'.range0 == Min(s.range0, r) && s'.range1 == Min(s.range1, Max(s.range0, r)) && s'.range0 <= s'.range1
    ensures (s'.point0 == s.point0 && s'.range0 == s.range0) || (s'.point0 == p && s'.range0 == r)
    ensures (s'.point1 == s.point1 && s'.range1 == s.range1) || (s'.point1 == s.point0 && s'.range1 == s.range0)
      || (s'.point1 == p && s'.range1 == r)
  {
    if r < s.range0 then Nearest2(p, r, s.point0, s.range0)
    else if r < s.range1 then Nearest2(s.point0, s.range0, p, r)
    else s
  }

  /** `dx2`..`dw2`: the squared distance from the point to the previous, the
      current and the next cell along one axis, from its fraction `f`. */
  function StepRanges(f: real): (d: seq<real>)
    ensures |d| == 3
  {
    [f * f, 0.0, (1.0 - f) * (1.0 - f)]
  }

  /** `x_range + y_range + ..`: the bound the search compares with `range1`
      before it looks at the cell at offset `o`. */
  function LowerBound(frac: seq<real>, o: seq<int>): real
    requires |frac| == |o| && IsOffset(o)
  {
    SumOf(seq(|o|, i requires 0 <= i < |o| => StepRanges(frac[i])[o[i] + 1]))
  }

  /** What one `test_point!` (or one pass of the loop) looks at for the cell
      at offset `o`: the bound `x_range + y_range + ..`, the cell's feature
      point `cur_point` and its range `cur_range`. */
  datatype Candidate = Candidate(bound: real, point: seq<real>, range: real)

  function CandidateAt(t: PermutationTable, metric: Metric, point: seq<real>, o: seq<int>): (c: Candidate)
    requires t.Valid() && 2 <= |point| <= 4 && |o| == |point| && IsOffset(o)
    ensures |c.point| == |point|
  {
    var p := JitteredPoint(t, AddInt(Floor(point), o));
    Candidate(LowerBound(Worley.Frac(point), o), p, Distance(metric, point, p))
  }

  /** The candidate is tested only when its bound is below the second
      range. */
  function Visit(s: Nearest2, c: Candidate): Nearest2
  {
    if c.bound < s.range1 then Consider(s, c.point, c.range) else s
  }

  /** The search over the candidates, in their order. */
  function VisitAll(s: Nearest2, cs: seq<Candidate>): Nearest2
  {
    if |cs| == 0 then s else Visit(VisitAll(s, cs[..|cs| - 1]), cs[|cs| - 1])
  }

  /** One more candidate is one more visit. */
  lemma VisitAllStep(s: Nearest2, cs: seq<Candidate>, k: nat)
    requires k < |cs|
    ensures VisitAll(s, cs[..k + 1]) == Visit(VisitAll(s, cs[..k]), cs[k])
  {
    assert cs[..k + 1][..k] == cs[..k];
  }

  predicate Offsets(offsets: seq<seq<int>>, n: nat)
  {
    forall k :: 0 <= k < |offsets| ==> |offsets[k]| == n && IsOffset(offsets[k])
  }

  /** The candidates of the cells at `offsets`, in their order. */
  function Candidates(t: PermutationTable, metric: Metric, point: seq<real>, offsets: seq<seq<int>>): (cs: seq<Candidate>)
    requires t.Valid() && 2 <= |point| <= 4 && Offsets(offsets, |point|)
    ensures |cs| == |offsets|
  {
    seq(|offsets|, k requires 0 <= k < |offsets| => CandidateAt(t, metric, point, offsets[k]))
  }

  /** The initial state: the feature point of the point's own cell, and the
      placeholder `[1, .., 1]` at range `max_value` in second place. */
  function Start(t: PermutationTable, metric: Metric, point: seq<real>): Nearest2
    requires t.Valid() && 2 <= |point| <= 4
  {
    var p := JitteredPoint(t, Floor(point));
    Nearest2(p, Distance(metric, point, p), Broadcast(1.0, |point|), F64_MAX)
  }

  /** The neighbours each dimension's search visits. */
  function SearchOrder(n: nat): seq<seq<int>>
  {
    if n == 2 then Cell2Neighbours() else if n == 3 then Cell3SearchOrder() else Cell4SearchOrder()
  }

  lemma SearchOrderIsOffsets(n: nat)
    requires 2 <= n <= 4
    ensures Offsets(SearchOrder(n), n) && Covers(SearchOrder(n), n)
  {
    if n == 2 {
      SearchOrder2();
    } else if n == 3 {
      SearchOrder3();
    } else {
      SearchOrder4();
    }
  }

  /** What `cellN_seed_2_points` returns. */
  function TwoNearest(t: PermutationTable, metric: Metric, point: seq<real>): Nearest2
    requires t.Valid() && 2 <= |point| <= 4
  {
    assert Offsets(SearchOrder(|point|), |point|) by { SearchOrderIsOffsets(|point|); }
    VisitAll(Start(t, metric, point), Candidates(t, metric, point, SearchOrder(|point|)))
  }

  /** The macro body of `cell2_seed_2_points` and the loop body of
      `cell3_seed_2_points` and `cell4_seed_2_points`. */
  method TestCell(t: PermutationTable, metric: Metric, point: seq<real>, cell: seq<int>, frac: seq<real>, offset: seq<int>,
                  point0: seq<real>, range0: real, point1: seq<real>, range1: real)
    returns (newPoint0: seq<real>, newRange0: real, newPoint1: seq<real>, newRange1: real)
    requires t.Valid() && 2 <= |point| <= 4 && |offset| == |point| && IsOffset(offset)
    requires cell == Floor(point) && frac == Worley.Frac(point)
    ensures Nearest2(newPoint0, newRange0, newPoint1, newRange1)
      == Visit(Nearest2(point0, range0, point1, range1), CandidateAt(t, metric, point, offset))
  {
    newPoint0, newRange0, newPoint1, newRange1 := point0, range0, point1, range1;
    if LowerBound(frac, offset) < range1 {
      var curPoint := JitteredPoint(t, AddInt(cell, offset));
      var curRange := Distance(metric, point, curPoint);
      if curRange < range0 {
        newRange1 := range0;
        newPoint1 := point0;
        newRange0 := curRange;
        newPoint0 := curPoint;
      } else if curRange < range1 {
        newRange1 := curRange;
        newPoint1 := curPoint;
      }
    }
  }

  /** Four `test_point!` calls of `cell2_seed_2_points`, in their order,
      from any state. */
  method TestFourCells2D(t: PermutationTable, metric: Metric, point: seq<real>, cell: seq<int>, frac: seq<real>,
                         offsets: seq<seq<int>>, point0: seq<real>, range0: real, point1: seq<real>, range1: real)
    returns (newPoint0: seq<real>, newRange0: real, newPoint1: seq<real>, newRange1: real)
    requires t.Valid() && |point| == 2 && |offsets| == 4 && Offsets(offsets, 2)
    requires cell == Floor(point) && frac == Worley.Frac(point)
    ensures Nearest2(newPoint0, newRange0, newPoint1, newRange1)
      == VisitAll(Nearest2(point0, range0, point1, range1), Candidates(t, metric, point, offsets))
  {
    ghost var start := Nearest2(point0, range0, point1, range1);
    ghost var cs := Candidates(t, metric, point, offsets);
    assert cs[..0] == [];
    newPoint0, newRange0, newPoint1, newRange1 := TestCell(t, metric, point, cell, frac, offsets[0], point0, range0, point1, range1);
    VisitAllStep(start, cs, 0);
    newPoint0, newRange0, newPoint1, newRange1 := TestCell(t, metric, point, cell, frac, offsets[1], newPoint0, newRange0, newPoint1, newRange1);
    VisitAllStep(start, cs, 1);
    newPoint0, newRange0, newPoint1, newRange1 := TestCell(t, metric, point, cell, frac, offsets[2], newPoint0, newRange0, newPoint1, newRange1);
    VisitAllStep(start, cs, 2);
    newPoint0, newRange0, newPoint1, newRange1 := TestCell(t, metric, point, cell, frac, offsets[3], newPoint0, newRange0, newPoint1, newRange1);
    VisitAllStep(start, cs, 3);
    assert cs[..4] == cs;
  }

  /** Visiting two runs of candidates one after the other is visiting them
      together. */
  lemma {:induction false} VisitAllAppend(s: Nearest2, a: seq<Candidate>, b: seq<Candidate>)
    ensures VisitAll(s, a + b) == VisitAll(VisitAll(s, a), b)
    decreases |b|
  {
    if |b| == 0 {
      assert a + b == a;
    } else {
      assert (a + b)[..|a + b| - 1] == a + b[..|b| - 1];
      VisitAllAppend(s, a, b[..|b| - 1]);
    }
  }

  lemma CandidatesAppend(t: PermutationTable, metric: Metric, point: seq<real>, a: seq<seq<int>>, b: seq<seq<int>>)
    requires t.Valid() && 2 <= |point| <= 4 && Offsets(a, |point|) && Offsets(b, |point|)
    ensures Offsets(a + b, |point|)
    ensures Candidates(t, metric, point, a + b) == Candidates(t, metric, point, a) + Candidates(t, metric, point, b)
  {
    var ca := Candidates(t, metric, point, a + b);
    var cl := Candidates(t, metric, point, a);
    var cr := Candidates(t, metric, point, b);
    forall k | 0 <= k < |a|
      ensures ca[k] == cl[k]
    {
      assert (a + b)[k] == a[k];
    }
    forall k | 0 <= k < |b|
      ensures ca[|a| + k] == cr[k]
    {
      assert (a + b)[|a| + k] == b[k];
    }
    assert ca == cl + cr;
  }

  /** `cell2_seed_2_points`: the own cell, then the four facing and the four
      corner cells. */
  method Cell2Seed2Points(t: PermutationTable, metric: Metric, point: seq<real>)
    returns (point0: seq<real>, range0: real, point1: seq<real>, range1: real)
    requires t.Valid() && |point| == 2
    ensures Nearest2(point0, range0, point1, range1) == TwoNearest(t, metric, point)
  {
    var cell := Floor(point);
    var frac := Worley.Frac(point);
    point0 := JitteredPoint(t, cell);
    point1 := [1.0, 1.0];
    range0 := Distance(metric, point, point0);
    range1 := F64_MAX;
    ghost var start := Start(t, metric, point);
    SearchOrderIsOffsets(2);
    assert Nearest2(point0, range0, point1, range1) == start;
    var order := Cell2Neighbours();
    var facing, corners := order[..4], order[4..];
    assert order == facing + corners;
    point0, range0, point1, range1 := TestFourCells2D(t, metric, point, cell, frac, facing, point0, range0, point1, range1);
    point0, range0, point1, range1 := TestFourCells2D(t, metric, point, cell, frac, corners, point0, range0, point1, range1);
    CandidatesAppend(t, metric, point, facing, corners);
    VisitAllAppend(start, Candidates(t, metric, point, facing), Candidates(t, metric, point, corners));
  }

  /** The loop of `cell3_seed_2_points` and `cell4_seed_2_points`: one
      `test_point!` per offset, in the order of `offsets`. */
  method TestCells(t: PermutationTable, metric: Metric, point: seq<real>, cell: seq<int>, frac: seq<real>,
                   offsets: seq<seq<int>>, point0: seq<real>, range0: real, point1: seq<real>, range1: real)
    returns (newPoint0: seq<real>, newRange0: real, newPoint1: seq<real>, newRange1: real)
    requires t.Valid() && 2 <= |point| <= 4 && Offsets(offsets, |point|)
    requires cell == Floor(point) && frac == Worley.Frac(point)
    ensures Nearest2(newPoint0, newRange0, newPoint1, newRange1)
      == VisitAll(Nearest2(point0, range0, point1, range1), Candidates(t, metric, point, offsets))
  {
    ghost var start := Nearest2(point0, range0, point1, range1);
    ghost var cs := Candidates(t, metric, point, offsets);
    newPoint0, newRange0, newPoint1, newRange1 := point0, range0, point1, range1;
    assert cs[..0] == [];
    for k := 0 to |offsets|
      invariant Nearest2(newPoint0, newRange0, newPoint1, newRange1) == VisitAll(start, cs[..k])
    {
      newPoint0, newRange0, newPoint1, newRange1 := TestCell(t, metric, point, cell, frac, offsets[k], newPoint0, newRange0, newPoint1, newRange1);
      VisitAllStep(start, cs, k);
    }
    assert cs[..|offsets|] == cs;
  }

  /** `cell3_seed_2_points`: the own cell, then `CELL3_SEARCH_ORDER`. */
  method Cell3Seed2Points(t: PermutationTable, metric: Metric, point: seq<real>)
    returns (point0: seq<real>, range0: real, point1: seq<real>, range1: real)
    requires t.Valid() && |point| == 3
    ensures Nearest2(point0, range0, point1, range1) == TwoNearest(t, metric, point)
  {
    var cell := Floor(point);
    var frac := Worley.Frac(point);
    point0 := JitteredPoint(t, cell);
    point1 := [1.0, 1.0, 1.0];
    range0 := Distance(metric, point, point0);
    range1 := F64_MAX;
    assert Nearest2(point0, range0, point1, range1) == Start(t, metric, point);
    SearchOrderIsOffsets(3);
    point0, range0, point1, range1 := TestCells(t, metric, point, cell, frac, Cell3SearchOrder(), point0, range0, point1, range1);
  }

  /** `cell4_seed_2_points`: the own cell, then `CELL4_SEARCH_ORDER`. */
  method Cell4Seed2Points(t: PermutationTable, metric: Metric, point: seq<real>)
    returns (point0: seq<real>, range0: real, point1: seq<real>, range1: real)
    requires t.Valid() && |point| == 4
    ensures Nearest2(point0, range0, point1, range1) == TwoNearest(t, metric, point)
  {
    var cell := Floor(point);
    var frac := Worley.Frac(point);
    point0 := JitteredPoint(t, cell);
    point1 := [1.0, 1.0, 1.0, 1.0];
    range0 := Distance(metric, point, point0);
    range1 := F64_MAX;
    assert Nearest2(point0, range0, point1, range1) == Start(t, metric, point);
    SearchOrderIsOffsets(4);
    point0, range0, point1, range1 := TestCells(t, metric, point, cell, frac, Cell4SearchOrder(), point0, range0, point1, range1);
  }

  // ---------------------------------------------------------------- what the two-nearest search finds

  lemma SquareMonotone(a: real, b: real)
    requires 0.0 <= b <= a
    ensures b * b <= a * a
  {
    MulNonNegative(a - b, a + b);
    assert (a - b) * (a + b) == a * a - b * b;
  }

  lemma SquareBelow(b: real)
    requires 0.0 <= b <= 1.0
    ensures b * b <= b
  {
    MulNonNegative(b, 1.0 - b);
    assert b * (1.0 - b) == b - b * b;
  }

  lemma {:induction false} SumOfMonotone(a: seq<real>, b: seq<real>)
    requires |a| == |b| && forall i :: 0 <= i < |a| ==> a[i] <= b[i]
    ensures SumOf(a) <= SumOf(b)
  {
    if |a| > 0 {
      SumOfMonotone(a[..|a| - 1], b[..|b| - 1]);
    }
  }

  /** The per-axis terms whose sum is the range: squares for the squared
      Euclidean range, magnitudes for the Manhattan range. */
  function Terms(metric: Metric, d: seq<real>): (e: seq<real>)
    ensures |e| == |d|
  {
    if metric == SqrEuclidean then Mul(d, d) else Worley.Magnitudes(d)
  }

  lemma DistanceIsSumOfTerms(metric: Metric, p1: seq<real>, p2: seq<real>)
    requires |p1| == |p2|
    ensures Distance(metric, p1, p2) == SumOf(Terms(metric, Sub(p1, p2)))
  {
    if metric == SqrEuclidean {
      var d := Sub(p1, p2);
      Worley.DotIsSumOfProducts(d, d);
    }
  }

  /** Along one axis, a point at fraction `f` of its cell is at least the
      step range away from anything in the cell at offset `o`. */
  lemma StepBelowTerm(f: real, o: int, d: real)
    requires 0.0 <= f < 1.0 && -1 <= o <= 1
    requires f - o as real - 1.0 <= d <= f - o as real
    ensures StepRanges(f)[o + 1] <= d * d && StepRanges(f)[o + 1] <= Abs(d)
  {
    if o == -1 {
      SquareMonotone(d, f);
      SquareBelow(f);
    } else if o == 1 {
      var g := 1.0 - f;
      SquareMonotone(-d, g);
      assert (-d) * (-d) == d * d;
      SquareBelow(g);
    } else {
      Worley.SquareIsNonNegative(d);
    }
  }

  /** Summed over the axes: the bound is at most the range. */
  lemma StepsBelowTerms(metric: Metric, frac: seq<real>, o: seq<int>, d: seq<real>)
    requires |frac| == |o| == |d| && IsOffset(o)
    requires forall i :: 0 <= i < |o| ==>
      0.0 <= frac[i] < 1.0 && frac[i] - o[i] as real - 1.0 <= d[i] <= frac[i] - o[i] as real
    ensures LowerBound(frac, o) <= SumOf(Terms(metric, d))
  {
    var e := Terms(metric, d);
    var steps := seq(|o|, i requires 0 <= i < |o| => StepRanges(frac[i])[o[i] + 1]);
    forall i | 0 <= i < |o|
      ensures steps[i] <= e[i]
    {
      StepBelowTerm(frac[i], o[i], d[i]);
    }
    SumOfMonotone(steps, e);
  }

  /** The bound the search prunes with never exceeds the range to the
      feature point it stands for, for either range function: pruning never
      skips a nearer point. */
  lemma LowerBoundBelowDistance(t: PermutationTable, metric: Metric, point: seq<real>, o: seq<int>)
    requires t.Valid() && 2 <= |point| <= 4 && |o| == |point| && IsOffset(o)
    ensures LowerBound(Worley.Frac(point), o) <= Distance(metric, point, JitteredPoint(t, AddInt(Floor(point), o)))
  {
    var cell := Floor(point);
    var frac := Worley.Frac(point);
    var c := AddInt(cell, o);
    var q := JitteredPoint(t, c);
    JitteredPointInCell(t, c);
    var d := Sub(point, q);
    assert forall i :: 0 <= i < |o| ==> frac[i] == point[i] - cell[i] as real && c[i] == cell[i] + o[i];
    StepsBelowTerms(metric, frac, o, d);
    DistanceIsSumOfTerms(metric, point, q);
  }

  /** Components of at most one in magnitude give a range of at most the
      dimension. */
  lemma UnitTermsBound(metric: Metric, d: seq<real>)
    requires forall i :: 0 <= i < |d| ==> -1.0 <= d[i] <= 1.0
    ensures SumOf(Terms(metric, d)) <= |d| as real
  {
    var e := Terms(metric, d);
    var ones := Broadcast(1.0, |d|);
    forall i | 0 <= i < |d|
      ensures e[i] <= ones[i]
    {
      if d[i] >= 0.0 {
        SquareMonotone(1.0, d[i]);
      } else {
        SquareMonotone(1.0, -d[i]);
        assert (-d[i]) * (-d[i]) == d[i] * d[i];
      }
    }
    SumOfMonotone(e, ones);
    SumOfBroadcast(1.0, |d|);
    TimesIsProduct(|d|, 1.0);
  }

  /** The feature point of the point's own cell is less than one away along
      every axis, so its range is at most 4 and the initial state is
      ordered. */
  lemma HomeIsNear(t: PermutationTable, metric: Metric, point: seq<real>)
    requires t.Valid() && 2 <= |point| <= 4
    ensures Distance(metric, point, JitteredPoint(t, Floor(point))) <= 4.0
  {
    var cell := Floor(point);
    var q := JitteredPoint(t, cell);
    JitteredPointInCell(t, cell);
    var d := Sub(point, q);
    UnitTermsBound(metric, d);
    DistanceIsSumOfTerms(metric, point, q);
  }

  /** No candidate's bound exceeds its range. */
  predicate Prunes(cs: seq<Candidate>)
  {
    forall k :: 0 <= k < |cs| ==> cs[k].bound <= cs[k].range
  }

  /** `p` at range `r` is one of the two entries of the state `s` the search
      started from, or one of the candidates. */
  ghost predicate Attained(p: seq<real>, r: real, s: Nearest2, cs: seq<Candidate>)
  {
    (p == s.point0 && r == s.range0) || (p == s.point1 && r == s.range1)
    || exists k :: 0 <= k < |cs| && p == cs[k].point && r == cs[k].range
  }

  /** What the search keeps, for any candidates whose bounds never exceed
      their ranges: the two ranges stay ordered and never grow, the first
      ends no larger than the range of any candidate, pruned or tested, and
      each entry is one the search started with or a candidate it tested. */
  lemma {:induction false} VisitAllFinds(s: Nearest2, cs: seq<Candidate>)
    requires s.range0 <= s.range1 && Prunes(cs)
    ensures var s' := VisitAll(s, cs);
      s'.range0 <= s'.range1 && s'.range0 <= s.range0 && s'.range1 <= s.range1
      && (forall k :: 0 <= k < |cs| ==> s'.range0 <= cs[k].range)
      && Attained(s'.point0, s'.range0, s, cs) && Attained(s'.point1, s'.range1, s, cs)
  {
    if |cs| > 0 {
      var prefix := cs[..|cs| - 1];
      var last := cs[|cs| - 1];
      assert forall k :: 0 <= k < |prefix| ==> prefix[k] == cs[k];
      VisitAllFinds(s, prefix);
      var mid := VisitAll(s, prefix);
      AttainedExtends(mid.point0, mid.range0, s, prefix, cs);
      AttainedExtends(mid.point1, mid.range1, s, prefix, cs);
      assert Attained(last.point, last.range, s, cs) by {
        assert last == cs[|cs| - 1];
      }
    }
  }

  /** The second range the search ends with is no larger than the larger
      range of any two entries it saw: the first entry it started with and
      a candidate, or two distinct candidates. */
  lemma {:induction false} VisitAllFindsSecond(s: Nearest2, cs: seq<Candidate>)
    requires s.range0 <= s.range1 && Prunes(cs)
    ensures var s' := VisitAll(s, cs);
      (forall k :: 0 <= k < |cs| ==> s'.range1 <= Max(s.range0, cs[k].range))
      && (forall k, l :: 0 <= k < l < |cs| ==> s'.range1 <= Max(cs[k].range, cs[l].range))
  {
    if |cs| > 0 {
      var prefix := cs[..|cs| - 1];
      var last := cs[|cs| - 1];
      assert forall k :: 0 <= k < |prefix| ==> prefix[k] == cs[k];
      VisitAllFinds(s, prefix);
      VisitAllFindsSecond(s, prefix);
      var mid := VisitAll(s, prefix);
      var s' := Visit(mid, last);
      assert last.bound <= last.range;
      assert s'.range1 <= mid.range1;
      assert s'.range1 <= Max(mid.range0, last.range);
    }
  }

  lemma AttainedExtends(p: seq<real>, r: real, s: Nearest2, prefix: seq<Candidate>, cs: seq<Candidate>)
    requires |prefix| <= |cs| && forall k :: 0 <= k < |prefix| ==> prefix[k] == cs[k]
    requires Attained(p, r, s, prefix)
    ensures Attained(p, r, s, cs)
  {
    if !((p == s.point0 && r == s.range0) || (p == s.point1 && r == s.range1)) {
      var k :| 0 <= k < |prefix| && p == prefix[k].point && r == prefix[k].range;
      assert p == cs[k].point;
    }
  }

  /** The bounds of the candidates of any block offsets never exceed their
      ranges. */
  lemma CandidatesPrune(t: PermutationTable, metric: Metric, point: seq<real>, offsets: seq<seq<int>>)
    requires t.Valid() && 2 <= |point| <= 4 && Offsets(offsets, |point|)
    ensures Prunes(Candidates(t, metric, point, offsets))
  {
    var cs := Candidates(t, metric, point, offsets);
    forall k | 0 <= k < |cs|
      ensures cs[k].bound <= cs[k].range
    {
      LowerBoundBelowDistance(t, metric, point, offsets[k]);
    }
  }

  /** `p` is the feature point of a cell of the block around the point's
      own cell, and `r` is its range. */
  ghost predicate InBlock(t: PermutationTable, metric: Metric, point: seq<real>, p: seq<real>, r: real)
    requires t.Valid() && 2 <= |point| <= 4
  {
    exists o :: |o| == |point| && IsOffset(o) && p == JitteredPoint(t, AddInt(Floor(point), o))
      && r == Distance(metric, point, p)
  }

  /** Apart from the placeholder, whatever a search over block offsets
      starts with or tests is a feature point of the block at its own
      range. */
  lemma AttainedInBlock(t: PermutationTable, metric: Metric, point: seq<real>, offsets: seq<seq<int>>, p: seq<real>, r: real)
    requires t.Valid() && 2 <= |point| <= 4 && Offsets(offsets, |point|)
    requires Attained(p, r, Start(t, metric, point), Candidates(t, metric, point, offsets))
    requires !(p == Broadcast(1.0, |point|) && r == F64_MAX)
    ensures InBlock(t, metric, point, p, r)
  {
    var cs := Candidates(t, metric, point, offsets);
    var home := JitteredPoint(t, Floor(point));
    if p == home && r == Distance(metric, point, home) {
      var zero := seq(|point|, _ => 0);
      assert AddInt(Floor(point), zero) == Floor(point);
    } else {
      var k :| 0 <= k < |cs| && p == cs[k].point && r == cs[k].range;
      assert cs[k] == CandidateAt(t, metric, point, offsets[k]);
    }
  }

  /** The nearest range of a search from the point's own cell over offsets
      that cover the block is no larger than the range to any feature point
      of the block. */
  lemma SearchIsNearest(t: PermutationTable, metric: Metric, point: seq<real>, offsets: seq<seq<int>>)
    requires t.Valid() && 2 <= |point| <= 4 && Offsets(offsets, |point|) && Covers(offsets, |point|)
    ensures var s := VisitAll(Start(t, metric, point), Candidates(t, metric, point, offsets));
      s.range0 <= s.range1
      && forall o :: |o| == |point| && IsOffset(o) ==>
           s.range0 <= Distance(metric, point, JitteredPoint(t, AddInt(Floor(point), o)))
  {
    var cs := Candidates(t, metric, point, offsets);
    var start := Start(t, metric, point);
    HomeIsNear(t, metric, point);
    CandidatesPrune(t, metric, point, offsets);
    VisitAllFinds(start, cs);
    var s := VisitAll(start, cs);
    assert s.range0 <= start.range0;
    assert forall k :: 0 <= k < |offsets| ==> s.range0 <= cs[k].range;
    forall o | |o| == |point| && IsOffset(o)
      ensures s.range0 <= Distance(metric, point, JitteredPoint(t, AddInt(Floor(point), o)))
    {
      BelowBlockPoint(t, metric, point, offsets, s.range0, o);
    }
  }

  /** A range no larger than the home range and than every candidate's range
      is no larger than the range to any feature point of the block. */
  lemma BelowBlockPoint(t: PermutationTable, metric: Metric, point: seq<real>, offsets: seq<seq<int>>, r: real, o: seq<int>)
    requires t.Valid() && 2 <= |point| <= 4 && Offsets(offsets, |point|) && Covers(offsets, |point|)
    requires |o| == |point| && IsOffset(o)
    requires r <= Start(t, metric, point).range0
    requires forall k :: 0 <= k < |offsets| ==> r <= Candidates(t, metric, point, offsets)[k].range
    ensures r <= Distance(metric, point, JitteredPoint(t, AddInt(Floor(point), o)))
  {
    if IsOrigin(o) {
      AddOrigin(Floor(point), o);
    } else {
      assert o in offsets;
      var k :| 0 <= k < |offsets| && offsets[k] == o;
      CandidateRange(t, metric, point, offsets, k);
    }
  }

  lemma AddOrigin(c: seq<int>, o: seq<int>)
    requires |c| == |o| && IsOrigin(o)
    ensures AddInt(c, o) == c
  {
  }

  lemma CandidateRange(t: PermutationTable, metric: Metric, point: seq<real>, offsets: seq<seq<int>>, k: nat)
    requires t.Valid() && 2 <= |point| <= 4 && Offsets(offsets, |point|) && k < |offsets|
    ensures Candidates(t, metric, point, offsets)[k].range
      == Distance(metric, point, JitteredPoint(t, AddInt(Floor(point), offsets[k])))
  {
  }

  /** The two entries of a search from the point's own cell over block
      offsets are feature points of the block at their ranges, or the
      second is still the placeholder. */
  lemma SearchStaysInBlock(t: PermutationTable, metric: Metric, point: seq<real>, offsets: seq<seq<int>>)
    requires t.Valid() && 2 <= |point| <= 4 && Offsets(offsets, |point|)
    ensures var s := VisitAll(Start(t, metric, point), Candidates(t, metric, point, offsets));
      InBlock(t, metric, point, s.point0, s.range0)
      && (InBlock(t, metric, point, s.point1, s.range1) || (s.point1 == Broadcast(1.0, |point|) && s.range1 == F64_MAX))
  {
    var cs := Candidates(t, metric, point, offsets);
    var start := Start(t, metric, point);
    HomeIsNear(t, metric, point);
    CandidatesPrune(t, metric, point, offsets);
    VisitAllFinds(start, cs);
    var s := VisitAll(start, cs);
    AttainedInBlock(t, metric, point, offsets, s.point0, s.range0);
    if !(s.point1 == Broadcast(1.0, |point|) && s.range1 == F64_MAX) {
      AttainedInBlock(t, metric, point, offsets, s.point1, s.range1);
    }
  }

  /** The second range of a search from the point's own cell over offsets
      that cover the block is no larger than the larger of the ranges to
      the feature points of any two distinct cells of the block: it is the
      second smallest range of the block. */
  lemma SearchIsSecondNearest(t: PermutationTable, metric: Metric, point: seq<real>, offsets: seq<seq<int>>)
    requires t.Valid() && 2 <= |point| <= 4 && Offsets(offsets, |point|) && Covers(offsets, |point|)
    ensures var s := VisitAll(Start(t, metric, point), Candidates(t, metric, point, offsets));
      forall o, o' :: |o| == |point| && IsOffset(o) && |o'| == |point| && IsOffset(o') && o != o' ==>
        s.range1 <= Max(BlockRange(t, metric, point, o), BlockRange(t, metric, point, o'))
  {
    var cs := Candidates(t, metric, point, offsets);
    var start := Start(t, metric, point);
    HomeIsNear(t, metric, point);
    CandidatesPrune(t, metric, point, offsets);
    VisitAllFindsSecond(start, cs);
    var s := VisitAll(start, cs);
    forall o, o' | |o| == |point| && IsOffset(o) && |o'| == |point| && IsOffset(o') && o != o'
      ensures s.range1 <= Max(BlockRange(t, metric, point, o), BlockRange(t, metric, point, o'))
    {
      BelowBlockPair(t, metric, point, offsets, s.range1, o, o');
    }
  }

  /** A range no larger than the larger range of the home cell and any
      candidate, and of any two distinct candidates, is no larger than the
      larger range of any two distinct cells of the block. */
  lemma BelowBlockPair(t: PermutationTable, metric: Metric, point: seq<real>, offsets: seq<seq<int>>, r: real,
                       o: seq<int>, o': seq<int>)
    requires t.Valid() && 2 <= |point| <= 4 && Offsets(offsets, |point|) && Covers(offsets, |point|)
    requires |o| == |point| && IsOffset(o) && |o'| == |point| && IsOffset(o') && o != o'
    requires var cs := Candidates(t, metric, point, offsets);
      (forall k :: 0 <= k < |cs| ==> r <= Max(Start(t, metric, point).range0, cs[k].range))
      && (forall k, l :: 0 <= k < l < |cs| ==> r <= Max(cs[k].range, cs[l].range))
    ensures r <= Max(BlockRange(t, metric, point, o), BlockRange(t, metric, point, o'))
  {
    if IsOrigin(o) {
      BelowHomeAndCandidate(t, metric, point, offsets, r, o, o');
    } else if IsOrigin(o') {
      BelowHomeAndCandidate(t, metric, point, offsets, r, o', o);
    } else {
      assert o in offsets && o' in offsets;
      var k :| 0 <= k < |offsets| && offsets[k] == o;
      var l :| 0 <= l < |offsets| && offsets[l] == o';
      if k < l {
        BelowTwoCandidates(t, metric, point, offsets, r, k, l);
      } else {
        BelowTwoCandidates(t, metric, point, offsets, r, l, k);
      }
    }
  }

  /** The range to the feature point of the block cell at offset `o`. */
  function BlockRange(t: PermutationTable, metric: Metric, point: seq<real>, o: seq<int>): real
    requires t.Valid() && 2 <= |point| <= 4 && |o| == |point| && IsOffset(o)
  {
    Distance(metric, point, JitteredPoint(t, AddInt(Floor(point), o)))
  }

  lemma BelowHomeAndCandidate(t: PermutationTable, metric: Metric, point: seq<real>, offsets: seq<seq<int>>, r: real,
                              o: seq<int>, o': seq<int>)
    requires t.Valid() && 2 <= |point| <= 4 && Offsets(offsets, |point|) && Covers(offsets, |point|)
    requires |o| == |point| && IsOrigin(o) && |o'| == |point| && IsOffset(o') && !IsOrigin(o')
    requires var cs := Candidates(t, metric, point, offsets);
      forall k :: 0 <= k < |cs| ==> r <= Max(Start(t, metric, point).range0, cs[k].range)
    ensures IsOffset(o) && r <= Max(BlockRange(t, metric, point, o), BlockRange(t, metric, point, o'))
      && r <= Max(BlockRange(t, metric, point, o'), BlockRange(t, metric, point, o))
  {
    AddOrigin(Floor(point), o);
    assert o' in offsets;
    var l :| 0 <= l < |offsets| && offsets[l] == o';
    CandidateRange(t, metric, point, offsets, l);
  }

  lemma BelowTwoCandidates(t: PermutationTable, metric: Metric, point: seq<real>, offsets: seq<seq<int>>, r: real,
                           k: nat, l: nat)
    requires t.Valid() && 2 <= |point| <= 4 && Offsets(offsets, |point|) && k < l < |offsets|
    requires var cs := Candidates(t, metric, point, offsets);
      forall k, l :: 0 <= k < l < |cs| ==> r <= Max(cs[k].range, cs[l].range)
    ensures r <= Max(BlockRange(t, metric, point, offsets[k]), BlockRange(t, metric, point, offsets[l]))
      && r <= Max(BlockRange(t, metric, point, offsets[l]), BlockRange(t, metric, point, offsets[k]))
  {
    CandidateRange(t, metric, point, offsets, k);
    CandidateRange(t, metric, point, offsets, l);
  }

  /** `cellN_seed_2_points` finds the two nearest feature points of the
      whole 3x3 (3x3x3, 3x3x3x3) block: its first range is no larger than
      the range to any feature point of the block and belongs to one of
      them; its second range is no smaller, no larger than the larger range
      of any two distinct cells of the block, and belongs to a feature
      point of the block or to the placeholder. */
  lemma TwoNearestIsNearestInBlock(t: PermutationTable, metric: Metric, point: seq<real>)
    requires t.Valid() && 2 <= |point| <= 4
    ensures var s := TwoNearest(t, metric, point);
      s.range0 <= s.range1
      && (forall o :: |o| == |point| && IsOffset(o) ==>
            s.range0 <= Distance(metric, point, JitteredPoint(t, AddInt(Floor(point), o))))
      && (forall o, o' :: |o| == |point| && IsOffset(o) && |o'| == |point| && IsOffset(o') && o != o' ==>
            s.range1 <= Max(BlockRange(t, metric, point, o), BlockRange(t, metric, point, o')))
      && InBlock(t, metric, point, s.point0, s.range0)
      && (InBlock(t, metric, point, s.point1, s.range1) || (s.point1 == Broadcast(1.0, |point|) && s.range1 == F64_MAX))
  {
    SearchOrderIsOffsets(|point|);
    SearchIsNearest(t, metric, point, SearchOrder(|point|));
    SearchIsSecondNearest(t, metric, point, SearchOrder(|point|));
    SearchStaysInBlock(t, metric, point, SearchOrder(|point|));
  }

  // ---------------------------------------------------------------- the public range and value functions

  /** `cellN_seed` for the point's own dimension. */
  method CellSeed(t: PermutationTable, metric: Metric, point: seq<real>)
    returns (seedCell: seq<int>, seedPoint: seq<real>, range: real)
    requires t.Valid() && 2 <= |point| <= 4
    ensures Worley.Between(seedCell, Worley.Near(point), Worley.Far(point))
    ensures seedPoint == SeedPoint(t, seedCell) && range == Distance(metric, point, seedPoint)
    ensures range <= Distance(metric, point, SeedPoint(t, Worley.Near(point)))
    ensures NoneNearer(t, metric, point, range)
  {
    if |point| == 2 {
      seedCell, seedPoint, range := Cell2Seed(t, metric, point);
    } else if |point| == 3 {
      seedCell, seedPoint, range := Cell3Seed(t, metric, point);
    } else {
      seedCell, seedPoint, range := Cell4Seed(t, metric, point);
    }
  }

  /** `cellN_range` and `cellN_manhattan`: the range of `cellN_seed`, never
      negative and no larger than the range to the near cell's point. */
  method CellRange(t: PermutationTable, metric: Metric, point: seq<real>) returns (r: real)
    requires t.Valid() && 2 <= |point| <= 4
    ensures r >= 0.0
    ensures r <= Distance(metric, point, SeedPoint(t, Worley.Near(point)))
    ensures exists c :: Worley.Between(c, Worley.Near(point), Worley.Far(point)) && r == Distance(metric, point, SeedPoint(t, c))
    ensures NoneNearer(t, metric, point, r)
  {
    var cell, seedPoint;
    cell, seedPoint, r := CellSeed(t, metric, point);
    DistanceIsNonNegative(metric, point, seedPoint);
  }

  /** `cellN_range_inv` and `cellN_manhattan_inv`: the second range of
      `cellN_seed_2_points` minus the first, never negative. */
  method CellRangeInv(t: PermutationTable, metric: Metric, point: seq<real>) returns (r: real)
    requires t.Valid() && 2 <= |point| <= 4
    ensures r >= 0.0
    ensures r == TwoNearest(t, metric, point).range1 - TwoNearest(t, metric, point).range0
  {
    var point0, range0, point1, range1;
    if |point| == 2 {
      point0, range0, point1, range1 := Cell2Seed2Points(t, metric, point);
    } else if |point| == 3 {
      point0, range0, point1, range1 := Cell3Seed2Points(t, metric, point);
    } else {
      point0, range0, point1, range1 := Cell4Seed2Points(t, metric, point);
    }
    TwoNearestIsNearestInBlock(t, metric, point);
    r := range1 - range0;
  }

  /** `cellN_value` and `cellN_manhattan_value`: the hash of the cell
      `cellN_seed` picks, scaled by `1.0 / 255.0` into [0, 1]. */
  method CellValue(t: PermutationTable, metric: Metric, point: seq<real>) returns (r: real)
    requires t.Valid() && 2 <= |point| <= 4
    ensures 0.0 <= r <= 1.0
    ensures exists c :: (Worley.Between(c, Worley.Near(point), Worley.Far(point))
      && r * 255.0 == LatticeHash(t, c) as real
      && Distance(metric, point, SeedPoint(t, c)) <= Distance(metric, point, SeedPoint(t, Worley.Near(point)))
      && NoneNearer(t, metric, point, Distance(metric, point, SeedPoint(t, c))))
  {
    var cell, seedPoint, range := CellSeed(t, metric, point);
    var h := LatticeHash(t, cell);
    r := h as real * (1.0 / 255.0);
    assert r * 255.0 == h as real;
    assert NoneNearer(t, metric, point, Distance(metric, point, SeedPoint(t, cell)));
  }
}
