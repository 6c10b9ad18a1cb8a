/** `Curve`: maps its source's value onto a cubic spline through a list of
    control points sorted by input value. The source value picks the two
    neighbouring points it lies between and the points on either side of
    them; values outside the inputs are mapped to the nearest end point's
    output. */
module Curve {
  import opened Wrappers
  import opened Numeric
  import opened Interpolate
  import opened ControlPoints

  /** `ControlPoint { input, output }`. */
  datatype ControlPoint = ControlPoint(input: real, output: real)

  /** The input values of the control points, in order. */
  function Inputs(points: seq<ControlPoint>): (r: seq<real>)
    ensures |r| == |points|
    ensures forall i :: 0 <= i < |points| ==> r[i] == points[i].input
  {
    seq(|points|, i requires 0 <= i < |points| => points[i].input)
  }

  /** `clamp_index`: `clamp(index, min, max)` as `math::clamp` does it,
      lower bound tested first. */
  function ClampIndex(index: int, min: nat, max: nat): (r: nat)
    ensures index < min ==> r == min
    ensures min <= index <= max ==> r == index
    ensures min <= index && max < index ==> r == max
    ensures min <= max ==> min <= r <= max
  {
    if index < min then min else if index > max then max else index
  }

  /** The control points after `add_control_point(point.input,
      point.output)`: an input within `f64::EPSILON` of a control point's
      input is ignored (even with another output); any other point is
      inserted before the first point whose input is at least as large. */
  function AddPoint(points: seq<ControlPoint>, point: ControlPoint): seq<ControlPoint>
  {
    var inputs := Inputs(points);
    if AnyNear(inputs, point.input) then points
    else InsertAt(points, Position(inputs, point.input), point)
  }

  /** Adding a point adds its input to the inputs exactly as the terrace's
      list adds a value, so the inputs stay sorted and spaced. */
  lemma AddPointInputs(points: seq<ControlPoint>, point: ControlPoint)
    ensures Inputs(AddPoint(points, point)) == AddKey(Inputs(points), point.input)
    ensures Spaced(Inputs(points)) ==> Spaced(Inputs(AddPoint(points, point)))
  {
    var inputs := Inputs(points);
    if !AnyNear(inputs, point.input) {
      var k := Position(inputs, point.input);
      var r := InsertAt(points, k, point);
      assert Inputs(r) == InsertAt(inputs, k, point.input);
    }
    if Spaced(inputs) {
      AddKeySpaced(inputs, point.input);
    }
  }

  /** A point whose input is near an existing input leaves the list as it
      was; any other point is added, with its output, exactly once. */
  lemma AddPointContents(points: seq<ControlPoint>, point: ControlPoint)
    ensures AnyNear(Inputs(points), point.input) ==> AddPoint(points, point) == points
    ensures !AnyNear(Inputs(points), point.input) ==>
      multiset(AddPoint(points, point)) == multiset(points) + multiset{point}
  {
  }

  /** The spline between the points `index1` and `index2`, with the points
      `index0` and `index3` shaping it, at the source value `v`. */
  function Spline(p0: ControlPoint, p1: ControlPoint, p2: ControlPoint, p3: ControlPoint, v: real): real
    requires p1.input < p2.input
  {
    var alpha := (v - p1.input) / (p2.input - p1.input);
    Cubic(p0.output, p1.output, p2.output, p3.output, alpha)
  }

  /** The spline reaches the upper point's output at its input. */
  lemma SplineAtUpper(p0: ControlPoint, p1: ControlPoint, p2: ControlPoint, p3: ControlPoint)
    requires p1.input < p2.input
    ensures Spline(p0, p1, p2, p3, p2.input) == p2.output
  {
    var d := p2.input - p1.input;
    DivSelf(d);
  }

  /** `get` for the source value `v`: `None` when there are fewer than four
      control points (the assertion panics). */
  function Value(points: seq<ControlPoint>, v: real): (r: Option<real>)
    ensures r.None? <==> |points| < 4
  {
    if |points| < 4 then None
    else
      var last := |points| - 1;
      var indexPos := Position(Inputs(points), v);
      var index0 := ClampIndex(indexPos - 2, 0, last);
      var index1 := ClampIndex(indexPos - 1, 0, last);
      var index2 := ClampIndex(indexPos, 0, last);
      var index3 := ClampIndex(indexPos + 1, 0, last);
      if index1 == index2 then Some(points[index1].output)
      else Some(Spline(points[index0], points[index1], points[index2], points[index3], v))
  }

  /** A source value at or below the lowest input returns the first
      point's output. */
  lemma ValueBelowFirst(points: seq<ControlPoint>, v: real)
    requires |points| >= 4 && v <= points[0].input
    ensures Value(points, v) == Some(points[0].output)
  {
  }

  /** A source value above the highest input returns the last point's
      output. */
  lemma ValueAboveLast(points: seq<ControlPoint>, v: real)
    requires Spaced(Inputs(points)) && |points| >= 4 && v > points[|points| - 1].input
    ensures Value(points, v) == Some(points[|points| - 1].output)
  {
    PositionAboveLast(Inputs(points), v);
  }

  /** The curve passes through every control point: at a point's input it
      returns that point's output. */
  lemma ValueAtControlPoint(points: seq<ControlPoint>, k: nat)
    requires Spaced(Inputs(points)) && |points| >= 4 && k < |points|
    ensures Value(points, points[k].input) == Some(points[k].output)
  {
    var inputs := Inputs(points);
    PositionOfKey(inputs, k);
    if k > 0 {
      assert points[k - 1].input + F64_EPSILON <= points[k].input by {
        assert inputs[k - 1] + F64_EPSILON <= inputs[k];
      }
      var index0 := ClampIndex(k - 2, 0, |points| - 1);
      var index3 := ClampIndex(k + 1, 0, |points| - 1);
      SplineAtUpper(points[index0], points[k - 1], points[k], points[index3]);
    }
  }

  class Curve {
    /** `control_points`, private: only `add_control_point` changes it. */
    var controlPoints: seq<ControlPoint>

    /** The inputs stay sorted and spaced. */
    predicate Valid()
      reads this
    {
      Spaced(Inputs(controlPoints))
    }

    /** `Curve::new`: no control points. */
    constructor ()
      ensures Valid() && controlPoints == []
    {
      controlPoints := [];
    }

    /** `add_control_point(input_value, output_value)`. */
    method AddControlPoint(inputValue: real, outputValue: real)
      requires Valid()
      modifies this
      ensures Valid()
      ensures controlPoints == AddPoint(old(controlPoints), ControlPoint(inputValue, outputValue))
    {
      var inputs := Inputs(controlPoints);
      if !AnyNear(inputs, inputValue) {
        var insertionPoint := Position(inputs, inputValue);
        controlPoints := InsertAt(controlPoints, insertionPoint, ControlPoint(inputValue, outputValue));
      }
      AddPointInputs(old(controlPoints), ControlPoint(inputValue, outputValue));
    }

    /** `get`, given the source's value at the point. */
    function Get(sourceValue: real): Option<real>
      reads this
    {
      Value(controlPoints, sourceValue)
    }
  }
}
