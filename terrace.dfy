/** `Terrace`: maps its source's value onto a terrace-forming curve through
    a sorted list of control points. Between two neighbouring points the
    curve is the square of the relative position (or, inverted, the square
    of its complement, read from the upper point), so its slope resets to
    zero at every control point. Values outside the points are clamped to
    the nearest end. */
module Terrace {
  import opened Wrappers
  import opened Numeric
  import opened Interpolate
  import opened ControlPoints

  /** `clamp_index`: `index.clamp(min, max)`, which panics when
      `min > max`. */
  function ClampIndex(index: int, min: nat, max: nat): (r: nat)
    requires min <= max
    ensures min <= r <= max
    ensures min <= index <= max ==> r == index
    ensures index < min ==> r == min
    ensures index > max ==> r == max
  {
    if index < min then min else if index > max then max else index
  }

  /** The curve between neighbouring control points `input0 < input1` at
      the source value `v`: `alpha = (v − input0) / (input1 − input0)`,
      inverted to `1 − alpha` with the two points swapped when `invert` is
      set, then squared and used to interpolate linearly. */
  function Terraced(input0: real, input1: real, invert: bool, v: real): real
    requires input0 < input1
  {
    var alpha := (v - input0) / (input1 - input0);
    if invert then Linear(input1, input0, (1.0 - alpha) * (1.0 - alpha))
    else Linear(input0, input1, alpha * alpha)
  }

  /** `get` for the source value `v`: `None` when there are fewer than two
      control points (the assertion panics). */
  function Value(points: seq<real>, invert: bool, v: real): (r: Option<real>)
    ensures r.None? <==> |points| < 2
  {
    if |points| < 2 then None
    else
      var last := |points| - 1;
      var indexPos := Position(points, v);
      var index0 := ClampIndex(indexPos - 1, 0, last);
      var index1 := ClampIndex(indexPos, 0, last);
      if index0 == index1 then Some(points[index1])
      else Some(Terraced(points[index0], points[index1], invert, v))
  }

  /** Between two neighbouring points the curve stays between them, and it
      reaches the upper point at the upper point. */
  lemma TerracedBetween(input0: real, input1: real, invert: bool, v: real)
    requires input0 < v <= input1
    ensures input0 <= Terraced(input0, input1, invert, v) <= input1
    ensures v == input1 ==> Terraced(input0, input1, invert, v) == input1
  {
    var alpha := (v - input0) / (input1 - input0);
    DivUnit(v - input0, input1 - input0);
    ScaledUnit(alpha, alpha);
    ScaledUnit(1.0 - alpha, 1.0 - alpha);
  }

  /** A source value at or below the lowest control point returns that
      point. */
  lemma ValueBelowFirst(points: seq<real>, invert: bool, v: real)
    requires |points| >= 2 && v <= points[0]
    ensures Value(points, invert, v) == Some(points[0])
  {
  }

  /** A source value above the highest control point returns that point. */
  lemma ValueAboveLast(points: seq<real>, invert: bool, v: real)
    requires Spaced(points) && |points| >= 2 && v > points[|points| - 1]
    ensures Value(points, invert, v) == Some(points[|points| - 1])
  {
    PositionAboveLast(points, v);
  }

  /** The output always lies between the lowest and the highest control
      point. */
  lemma ValueInRange(points: seq<real>, invert: bool, v: real)
    requires Spaced(points) && |points| >= 2
    ensures Value(points, invert, v).Some?
    ensures points[0] <= Value(points, invert, v).value <= points[|points| - 1]
  {
    var last := |points| - 1;
    var indexPos := Position(points, v);
    SpacedBetweenEnds(points, ClampIndex(indexPos, 0, last));
    if ClampIndex(indexPos - 1, 0, last) != ClampIndex(indexPos, 0, last) {
      assert 1 <= indexPos <= last;
      SpacedBetweenEnds(points, indexPos - 1);
      TerracedBetween(points[indexPos - 1], points[indexPos], invert, v);
    }
  }

  /** Every control point is a fixed point of the curve, inverted or not. */
  lemma ValueAtControlPoint(points: seq<real>, invert: bool, k: nat)
    requires Spaced(points) && |points| >= 2 && k < |points|
    ensures Value(points, invert, points[k]) == Some(points[k])
  {
    PositionOfKey(points, k);
    if k > 0 {
      TerracedBetween(points[k - 1], points[k], invert, points[k]);
    }
  }

  class Terrace {
    /** `invert_terraces`. */
    var invertTerraces: bool
    /** `control_points`, private: only `add_control_point` changes it. */
    var controlPoints: seq<real>

    /** The control points stay sorted and spaced. */
    predicate Valid()
      reads this
    {
      Spaced(controlPoints)
    }

    /** `Terrace::new`: no control points, not inverted. */
    constructor ()
      ensures Valid() && !invertTerraces && controlPoints == []
    {
      invertTerraces := false;
      controlPoints := [];
    }

    /** `add_control_point`: a value within `f64::EPSILON` of a control
        point is ignored; any other is inserted before the first control
        point at least as large. */
    method AddControlPoint(controlPoint: real)
      requires Valid()
      modifies this
      ensures Valid()
      ensures controlPoints == AddKey(old(controlPoints), controlPoint)
      ensures invertTerraces == old(invertTerraces)
    {
      if !AnyNear(controlPoints, controlPoint) {
        var insertionPoint := Position(controlPoints, controlPoint);
        controlPoints := InsertAt(controlPoints, insertionPoint, controlPoint);
      }
      AddKeySpaced(old(controlPoints), controlPoint);
    }

    /** `invert_terraces`: only the inversion flag changes. */
    method InvertTerraces(invert: bool)
      modifies this
      ensures invertTerraces == invert && controlPoints == old(controlPoints)
    {
      invertTerraces := invert;
    }

    /** `get`, given the source's value at the point. */
    function Get(sourceValue: real): Option<real>
      reads this
    {
      Value(controlPoints, invertTerraces, sourceValue)
    }
  }
}
