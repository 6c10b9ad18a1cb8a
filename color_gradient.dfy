/** `ColorGradient`: a list of colours at positions, kept in ascending order
    of position inside a domain `[min, max]` that grows to take in any point
    added outside it. A position is coloured by blending, channel by
    channel, the colours of the two points around it. */
module ColorGradient {
  import opened Wrappers
  import opened Numeric
  import opened Interpolate
  import opened ControlPoints

  /** A `u8` colour channel. */
  type Channel = c: int | 0 <= c < 256

  /** `Color = [u8; 4]`. */
  type Color = c: seq<Channel> | |c| == 4 witness [0, 0, 0, 0]

  /** The colour `get_color` starts from, `[0; 4]`. */
  const ZERO_COLOR: Color := [0, 0, 0, 0]

  datatype GradientPoint = GradientPoint(pos: real, color: Color)

  datatype Domain = Domain(min: real, max: real)

  /** `v as u8` on `f64`: truncation toward zero, saturating at 0 and 255. */
  function AsU8(v: real): (r: Channel)
    ensures 0.0 <= v < 256.0 ==> r as real <= v < r as real + 1.0
    ensures v < 0.0 ==> r == 0
    ensures 256.0 <= v ==> r == 255
  {
    if v < 0.0 then 0 else if v >= 256.0 then 255 else v.Floor
  }

  /** The channel value before the cast in `blend_channels`. */
  function BlendValue(channel0: Channel, channel1: Channel, alpha: real): real
  {
    var c0 := channel0 as real / 255.0;
    var c1 := channel1 as real / 255.0;
    ((c1 * alpha) + (c0 * (1.0 - alpha))) * 255.0
  }

  /** `blend_channels(channel0, channel1, alpha)`. */
  function BlendChannels(channel0: Channel, channel1: Channel, alpha: real): Channel
  {
    AsU8(BlendValue(channel0, channel1, alpha))
  }

  /** Scaling each channel down by 255 and back up again leaves the linear
      blend of the two channels. */
  lemma BlendValueLinear(channel0: Channel, channel1: Channel, alpha: real)
    ensures BlendValue(channel0, channel1, alpha) == Linear(channel0 as real, channel1 as real, alpha)
  {
    var c0 := channel0 as real / 255.0;
    var c1 := channel1 as real / 255.0;
    assert c0 * 255.0 == channel0 as real;
    assert c1 * 255.0 == channel1 as real;
    assert ((c1 * alpha) + (c0 * (1.0 - alpha))) * 255.0
        == (c1 * 255.0) * alpha + (c0 * 255.0) * (1.0 - alpha);
  }

  /** A blend weight in [0, 1] gives a channel between the two channels:
      the first at weight 0 and the second at weight 1. */
  lemma BlendChannelsBetween(channel0: Channel, channel1: Channel, alpha: real)
    requires 0.0 <= alpha <= 1.0
    ensures var r := BlendChannels(channel0, channel1, alpha);
      && (channel0 <= channel1 ==> channel0 <= r <= channel1)
      && (channel1 <= channel0 ==> channel1 <= r <= channel0)
      && (alpha == 0.0 ==> r == channel0)
      && (alpha == 1.0 ==> r == channel1)
  {
    BlendValueLinear(channel0, channel1, alpha);
  }

  /** The blends the crate's own unit tests expect: from 0 to 255 at weights
      0, 0.5 and 1 the channel is 0, 127 and 255. */
  lemma BlendChannelsExamples()
    ensures BlendChannels(0, 255, 0.0) == 0
    ensures BlendChannels(0, 255, 0.5) == 127
    ensures BlendChannels(0, 255, 1.0) == 255
  {
    BlendValueLinear(0, 255, 0.0);
    BlendValueLinear(0, 255, 0.5);
    BlendValueLinear(0, 255, 1.0);
  }

  /** `linerp_color`: the four channels blended one by one. */
  function LinerpColor(color0: Color, color1: Color, alpha: real): Color
  {
    [BlendChannels(color0[0], color1[0], alpha), BlendChannels(color0[1], color1[1], alpha),
     BlendChannels(color0[2], color1[2], alpha), BlendChannels(color0[3], color1[3], alpha)]
  }

  /** At weight 0 the blend is the first colour, at weight 1 the second, and
      in between every channel lies between the two colours' channels. */
  lemma LinerpColorBetween(color0: Color, color1: Color, alpha: real)
    requires 0.0 <= alpha <= 1.0
    ensures alpha == 0.0 ==> LinerpColor(color0, color1, alpha) == color0
    ensures alpha == 1.0 ==> LinerpColor(color0, color1, alpha) == color1
    ensures forall i :: 0 <= i < 4 ==>
      var c := LinerpColor(color0, color1, alpha)[i];
      Min(color0[i] as real, color1[i] as real) <= c as real <= Max(color0[i] as real, color1[i] as real)
  {
    BlendChannelsBetween(color0[0], color1[0], alpha);
    BlendChannelsBetween(color0[1], color1[1], alpha);
    BlendChannelsBetween(color0[2], color1[2], alpha);
    BlendChannelsBetween(color0[3], color1[3], alpha);
  }

  /** The crate's unit test of `linerp_color`. */
  lemma LinerpColorExample()
    ensures LinerpColor([0, 0, 255, 0], [0, 255, 255, 0], 0.5) == [0, 127, 255, 0]
  {
    BlendValueLinear(0, 0, 0.5);
    BlendValueLinear(0, 255, 0.5);
    BlendValueLinear(255, 255, 0.5);
  }

  /** The positions of the points, in order. */
  function Positions(points: seq<GradientPoint>): (r: seq<real>)
    ensures |r| == |points|
    ensures forall i :: 0 <= i < |points| ==> r[i] == points[i].pos
  {
    seq(|points|, i requires 0 <= i < |points| => points[i].pos)
  }

  /** Positions strictly ascending. */
  predicate Increasing(keys: seq<real>)
  {
    forall i, j :: 0 <= i < j < |keys| ==> keys[i] < keys[j]
  }

  /** Every point lies in the domain. */
  predicate WithinDomain(points: seq<GradientPoint>, domain: Domain)
  {
    forall i :: 0 <= i < |points| ==> domain.min <= points[i].pos <= domain.max
  }

  /** What `add_gradient_point` keeps: positions strictly ascending, all in
      a domain whose bounds are ordered. */
  predicate Ordered(points: seq<GradientPoint>, domain: Domain)
  {
    Increasing(Positions(points)) && WithinDomain(points, domain) && domain.min <= domain.max
  }

  /** `find_insertion_point(pos)`: the index of the first point at or above
      `pos`, or the number of points when there is none. */
  function FindInsertionPoint(points: seq<GradientPoint>, pos: real): (r: nat)
    ensures r <= |points|
    ensures forall i :: 0 <= i < r ==> points[i].pos < pos
    ensures r < |points| ==> points[r].pos >= pos
  {
    Position(Positions(points), pos)
  }

  /** The domain after `add_gradient_point(pos, _)`: a position below the
      domain becomes its minimum, one above it its maximum. */
  function AddedDomain(domain: Domain, pos: real): Domain
  {
    if domain.min > pos then domain.(min := pos)
    else if domain.max < pos then domain.(max := pos)
    else domain
  }

  /** The points after `add_gradient_point(pos, color)`: a point below the
      domain goes first, one above it goes last, one inside it within
      `f64::EPSILON` of a point present is dropped, and any other is
      inserted at its insertion point. */
  function AddedPoints(points: seq<GradientPoint>, domain: Domain, pos: real, color: Color): seq<GradientPoint>
  {
    var point := GradientPoint(pos, color);
    if domain.min > pos then [point] + points
    else if domain.max < pos then points + [point]
    else if AnyNear(Positions(points), pos) then points
    else InsertAt(points, FindInsertionPoint(points, pos), point)
  }

  /** Adding a point keeps the points ascending and inside the (grown)
      domain. */
  lemma AddedOrdered(points: seq<GradientPoint>, domain: Domain, pos: real, color: Color)
    requires Ordered(points, domain)
    ensures Ordered(AddedPoints(points, domain, pos, color), AddedDomain(domain, pos))
  {
    var point := GradientPoint(pos, color);
    if domain.min > pos {
      PrependOrdered(points, domain, point);
    } else if domain.max < pos {
      AppendOrdered(points, domain, point);
    } else if !AnyNear(Positions(points), pos) {
      InsertOrdered(points, domain, point);
    }
  }

  /** A point below the domain, put first, keeps the points ascending. */
  lemma PrependOrdered(points: seq<GradientPoint>, domain: Domain, point: GradientPoint)
    requires Ordered(points, domain) && point.pos < domain.min
    ensures Ordered([point] + points, domain.(min := point.pos))
  {
    var r := [point] + points;
    assert forall i :: 0 < i < |r| ==> r[i] == points[i - 1];
  }

  /** A point above the domain, put last, keeps the points ascending. */
  lemma AppendOrdered(points: seq<GradientPoint>, domain: Domain, point: GradientPoint)
    requires Ordered(points, domain) && domain.max < point.pos
    ensures Ordered(points + [point], domain.(max := point.pos))
  {
    var r := points + [point];
    assert forall i :: 0 <= i < |points| ==> r[i] == points[i];
  }

  /** A point inside the domain and far from every point, put at its
      insertion point, keeps the points ascending. */
  lemma InsertOrdered(points: seq<GradientPoint>, domain: Domain, point: GradientPoint)
    requires Ordered(points, domain) && domain.min <= point.pos <= domain.max
    requires !AnyNear(Positions(points), point.pos)
    ensures Ordered(InsertAt(points, FindInsertionPoint(points, point.pos), point), domain)
  {
    var k := FindInsertionPoint(points, point.pos);
    var r := InsertAt(points, k, point);
    InsertIncreasing(Positions(points), point.pos);
    assert Positions(r) == InsertAt(Positions(points), k, point.pos);
    assert WithinDomain(r, domain);
  }

  /** Inserting a key far from every key at its position keeps the keys
      strictly ascending. */
  lemma InsertIncreasing(keys: seq<real>, key: real)
    requires Increasing(keys) && !AnyNear(keys, key)
    ensures Increasing(InsertAt(keys, Position(keys, key), key))
  {
    var k := Position(keys, key);
    var r := InsertAt(keys, k, key);
    forall i, j | 0 <= i < j < |r|
      ensures r[i] < r[j]
    {
      if j < k {
      } else if j == k {
      } else if i == k {
        assert keys[k] <= keys[j - 1];
        assert !(Abs(keys[j - 1] - key) < F64_EPSILON);
      } else if i < k {
        assert r[i] == keys[i] && r[j] == keys[j - 1];
      } else {
        assert r[i] == keys[i - 1] && r[j] == keys[j - 1];
      }
    }
  }

  /** What adding a point does to the list: below the domain it becomes the
      first point and the new minimum, above the domain the last point and
      the new maximum; inside the domain it is dropped when near a point
      present and otherwise added exactly once at its insertion point. */
  lemma AddedContents(points: seq<GradientPoint>, domain: Domain, pos: real, color: Color)
    ensures var r := AddedPoints(points, domain, pos, color);
      var d := AddedDomain(domain, pos);
      && (pos < domain.min ==> r == [GradientPoint(pos, color)] + points && d == Domain(pos, domain.max))
      && (domain.min <= pos && domain.max < pos ==>
            r == points + [GradientPoint(pos, color)] && d == Domain(domain.min, pos))
      && (domain.min <= pos <= domain.max ==> d == domain)
      && (domain.min <= pos <= domain.max && AnyNear(Positions(points), pos) ==> r == points)
      && (domain.min <= pos <= domain.max && !AnyNear(Positions(points), pos) ==>
            multiset(r) == multiset(points) + multiset{GradientPoint(pos, color)}
            && r[FindInsertionPoint(points, pos)] == GradientPoint(pos, color))
  {
  }

  /** The window of points `k` and `k + 1` takes `pos`: from the lower point
      up to, but not including, the upper one; `closedAbove` includes the
      upper point too. */
  predicate InWindow(points: seq<GradientPoint>, k: nat, pos: real, closedAbove: bool)
    requires k + 1 < |points|
  {
    points[k].pos <= pos && (if closedAbove then pos <= points[k + 1].pos else pos < points[k + 1].pos)
  }

  /** The colour of the window of points `k` and `k + 1` at `pos`. */
  function WindowColor(points: seq<GradientPoint>, k: nat, pos: real): Color
    requires k + 1 < |points| && points[k].pos < points[k + 1].pos
  {
    var alpha := (pos - points[k].pos) / (points[k + 1].pos - points[k].pos);
    LinerpColor(points[k].color, points[k + 1].color, alpha)
  }

  /** The colour after the loop has looked at the first `n` windows: the
      last window to take `pos` sets it. */
  function Scan(points: seq<GradientPoint>, pos: real, n: nat, closedAbove: bool): Color
    requires Increasing(Positions(points)) && n < |points|
  {
    if n == 0 then ZERO_COLOR
    else if InWindow(points, n - 1, pos, closedAbove) then WindowColor(points, n - 1, pos)
    else Scan(points, pos, n - 1, closedAbove)
  }

  /** `get_color(pos)`: `None` when the position lies outside the domain and
      there is no point to take the colour of (the `unwrap` panics).
      `closedAbove` false is the window test as written, `pos <
      points[1].pos`; true also takes a position equal to the upper
      point. */
  function ColorAt(points: seq<GradientPoint>, domain: Domain, pos: real, closedAbove: bool): Option<Color>
    requires Increasing(Positions(points))
  {
    if pos < domain.min then
      if |points| == 0 then None else Some(points[0].color)
    else if pos > domain.max then
      if |points| == 0 then None else Some(points[|points| - 1].color)
    else if |points| == 0 then Some(ZERO_COLOR)
    else Some(Scan(points, pos, |points| - 1, closedAbove))
  }

  /** Below the domain the colour is the first point's, above it the last
      point's; with no points either one panics. */
  lemma ColorOutsideDomain(points: seq<GradientPoint>, domain: Domain, pos: real, closedAbove: bool)
    requires Increasing(Positions(points))
    requires pos < domain.min || pos > domain.max
    ensures ColorAt(points, domain, pos, closedAbove).None? <==> |points| == 0
    ensures |points| > 0 && pos < domain.min ==> ColorAt(points, domain, pos, closedAbove) == Some(points[0].color)
    ensures |points| > 0 && domain.min <= pos ==>
      ColorAt(points, domain, pos, closedAbove) == Some(points[|points| - 1].color)
  {
  }

  /** When window `k` takes `pos` and the lower point of every later window
      up to `n` lies above `pos`, the scan of `n` windows ends with the
      colour of window `k`. */
  lemma {:induction false} ScanSelects(points: seq<GradientPoint>, pos: real, k: nat, n: nat, closedAbove: bool)
    requires Increasing(Positions(points)) && k + 1 <= n < |points|
    requires InWindow(points, k, pos, closedAbove)
    requires forall j :: k < j < n ==> pos < points[j].pos
    ensures Positions(points)[k] < Positions(points)[k + 1]
    ensures Scan(points, pos, n, closedAbove) == WindowColor(points, k, pos)
  {
    assert Positions(points)[k] < Positions(points)[k + 1];
    if n > k + 1 {
      assert pos < points[n - 1].pos;
      ScanSelects(points, pos, k, n - 1, closedAbove);
    }
  }

  /** When no window takes `pos`, the scan leaves the colour `[0; 4]`. */
  lemma {:induction false} ScanNone(points: seq<GradientPoint>, pos: real, n: nat, closedAbove: bool)
    requires Increasing(Positions(points)) && n < |points|
    requires forall k :: 0 <= k < n ==> !InWindow(points, k, pos, closedAbove)
    ensures Scan(points, pos, n, closedAbove) == ZERO_COLOR
  {
    if n > 0 {
      ScanNone(points, pos, n - 1, closedAbove);
    }
  }

  /** Strictly between two neighbouring points (or at the lower one) the
      colour is their blend, and every channel lies between theirs. */
  lemma ColorBetweenPoints(points: seq<GradientPoint>, domain: Domain, pos: real, k: nat, closedAbove: bool)
    requires Ordered(points, domain) && k + 1 < |points|
    requires points[k].pos <= pos < points[k + 1].pos
    ensures Positions(points)[k] < Positions(points)[k + 1]
    ensures ColorAt(points, domain, pos, closedAbove) == Some(WindowColor(points, k, pos))
    ensures forall i :: 0 <= i < 4 ==>
      Min(points[k].color[i] as real, points[k + 1].color[i] as real) <= WindowColor(points, k, pos)[i] as real
        <= Max(points[k].color[i] as real, points[k + 1].color[i] as real)
  {
    var keys := Positions(points);
    assert keys[k] < keys[k + 1];
    forall j | k < j < |points|
      ensures pos < points[j].pos
    {
      assert keys[k + 1] <= keys[j];
    }
    ScanSelects(points, pos, k, |points| - 1, closedAbove);
    var d := points[k + 1].pos - points[k].pos;
    if pos > points[k].pos {
      DivUnit(pos - points[k].pos, d);
    }
    LinerpColorBetween(points[k].color, points[k + 1].color, (pos - points[k].pos) / d);
  }

  /** Taking a position equal to the upper point too, the gradient passes
      through every point: at a point's position the colour is that point's
      colour. */
  lemma ColorAtPoint(points: seq<GradientPoint>, domain: Domain, k: nat)
    requires Ordered(points, domain) && |points| >= 2 && k < |points|
    ensures ColorAt(points, domain, points[k].pos, true) == Some(points[k].color)
  {
    if k + 1 < |points| {
      ColorAtLowerPoint(points, domain, k);
    } else {
      ColorAtLastPoint(points, domain);
    }
  }

  /** At the lower point of a window the blend weight is 0. */
  lemma ColorAtLowerPoint(points: seq<GradientPoint>, domain: Domain, k: nat)
    requires Ordered(points, domain) && k + 1 < |points|
    ensures ColorAt(points, domain, points[k].pos, true) == Some(points[k].color)
  {
    ColorBetweenPoints(points, domain, points[k].pos, k, true);
    LinerpColorBetween(points[k].color, points[k + 1].color, 0.0);
  }

  /** At the last point the last window, closed above, takes the position
      with blend weight 1. */
  lemma ColorAtLastPoint(points: seq<GradientPoint>, domain: Domain)
    requires Ordered(points, domain) && |points| >= 2
    ensures ColorAt(points, domain, points[|points| - 1].pos, true) == Some(points[|points| - 1].color)
  {
    var k := |points| - 1;
    var pos := points[k].pos;
    ScanSelects(points, pos, k - 1, k, true);
    var d := pos - points[k - 1].pos;
    DivSelf(d);
    assert WindowColor(points, k - 1, pos) == LinerpColor(points[k - 1].color, points[k].color, 1.0);
    LinerpColorBetween(points[k - 1].color, points[k].color, 1.0);
  }

  /** As written, a position equal to the last point's position is taken
      by no window (each asks for an upper point above it), so the colour
      there is `[0; 4]` rather than the last point's colour. */
  lemma LastPointAsWritten(points: seq<GradientPoint>, domain: Domain)
    requires Ordered(points, domain) && |points| >= 1
    ensures ColorAt(points, domain, points[|points| - 1].pos, false) == Some(ZERO_COLOR)
  {
    var last := |points| - 1;
    var keys := Positions(points);
    forall k | 0 <= k < last
      ensures !InWindow(points, k, points[last].pos, false)
    {
      assert keys[k + 1] <= keys[last];
    }
    ScanNone(points, points[last].pos, last, false);
  }

  /** The points of `build_grayscale_gradient`: black at −1, white at 1. */
  const GRAYSCALE: seq<GradientPoint> := [GradientPoint(-1.0, [0, 0, 0, 255]), GradientPoint(1.0, [255, 255, 255, 255])]

  /** `ColorGradient::new()` coloured at 1.0: `[0, 0, 0, 0]` as written,
      white when the upper point is taken too. */
  lemma GrayscaleAtOne()
    ensures ColorAt(GRAYSCALE, Domain(-1.0, 1.0), 1.0, false) == Some(ZERO_COLOR)
    ensures ColorAt(GRAYSCALE, Domain(-1.0, 1.0), 1.0, true) == Some([255, 255, 255, 255])
  {
    assert Positions(GRAYSCALE) == [-1.0, 1.0];
    LastPointAsWritten(GRAYSCALE, Domain(-1.0, 1.0));
    ColorAtPoint(GRAYSCALE, Domain(-1.0, 1.0), 1);
  }

  class ColorGradient {
    /** `gradient_points`. */
    var gradientPoints: seq<GradientPoint>
    /** `domain`. */
    var domain: Domain

    /** The points stay ascending and inside the domain. */
    predicate Valid()
      reads this
    {
      Ordered(gradientPoints, domain)
    }

    /** `ColorGradient::new()`: domain (0, 1), then the grayscale
        gradient. */
    constructor ()
      ensures Valid()
      ensures gradientPoints == GRAYSCALE && domain == Domain(-1.0, 1.0)
    {
      gradientPoints := [];
      domain := Domain(0.0, 1.0);
      new;
      BuildGrayscaleGradient();
    }

    /** `add_gradient_point(pos, color)`. */
    method AddGradientPoint(pos: real, color: Color)
      requires Valid()
      modifies this
      ensures Valid()
      ensures gradientPoints == AddedPoints(old(gradientPoints), old(domain), pos, color)
      ensures domain == AddedDomain(old(domain), pos)
    {
      var newPoint := GradientPoint(pos, color);
      AddedOrdered(gradientPoints, domain, pos, color);
      if domain.min > pos {
        domain := domain.(min := pos);
        gradientPoints := [newPoint] + gradientPoints;
      } else if domain.max < pos {
        domain := domain.(max := pos);
        gradientPoints := gradientPoints + [newPoint];
      } else if !AnyNear(Positions(gradientPoints), pos) {
        var insertionPoint := FindInsertionPoint(gradientPoints, pos);
        gradientPoints := InsertAt(gradientPoints, insertionPoint, newPoint);
      }
    }

    /** `clear_gradient`: no points; the domain stays as it is. */
    method ClearGradient()
      requires Valid()
      modifies this
      ensures Valid()
      ensures gradientPoints == [] && domain == old(domain)
    {
      gradientPoints := [];
    }

    /** `build_grayscale_gradient`: clear, then black at −1 and white at 1;
        the domain grows to take both in. */
    method BuildGrayscaleGradient()
      requires Valid()
      modifies this
      ensures Valid()
      ensures gradientPoints == GRAYSCALE
      ensures domain == Domain(Min(old(domain.min), -1.0), Max(old(domain.max), 1.0))
    {
      ClearGradient();
      AddGradientPoint(-1.0, [0, 0, 0, 255]);
      assert gradientPoints == [GradientPoint(-1.0, [0, 0, 0, 255])];
      AddGradientPoint(1.0, [255, 255, 255, 255]);
    }

    /** `get_color(pos)`: `GetColor(pos, false)` is the window test as
        written, `pos < points[1].pos`; `GetColor(pos, true)` also takes a
        position equal to the upper point, as intended. */
    method GetColor(pos: real, closedAbove: bool) returns (r: Option<Color>)
      requires Valid()
      ensures r == ColorAt(gradientPoints, domain, pos, closedAbove)
    {
      var color := ZERO_COLOR;
      if pos < domain.min {
        if |gradientPoints| == 0 {
          return None;
        }
        color := gradientPoints[0].color;
      } else if pos > domain.max {
        if |gradientPoints| == 0 {
          return None;
        }
        color := gradientPoints[|gradientPoints| - 1].color;
      } else if |gradientPoints| > 0 {
        var k := 0;
        while k + 1 < |gradientPoints|
          invariant 0 <= k < |gradientPoints|
          invariant color == Scan(gradientPoints, pos, k, closedAbove)
        {
          var below := if closedAbove then pos <= gradientPoints[k + 1].pos else pos < gradientPoints[k + 1].pos;
          if gradientPoints[k].pos <= pos && below {
            assert Positions(gradientPoints)[k] < Positions(gradientPoints)[k + 1];
            var alpha := (pos - gradientPoints[k].pos) / (gradientPoints[k + 1].pos - gradientPoints[k].pos);
            color := LinerpColor(gradientPoints[k].color, gradientPoints[k + 1].color, alpha);
          }
          k := k + 1;
        }
      }
      return Some(color);
    }
  }

  /** The crate's `color_gradient_1` test: after `new()`, clearing and
      adding black at 0 and white at 1, the colour at 0.5 is 127 in every
      channel. */
  lemma MidGrayExample()
    ensures var points := [GradientPoint(0.0, [0, 0, 0, 0]), GradientPoint(1.0, [255, 255, 255, 255])];
      ColorAt(points, Domain(-1.0, 1.0), 0.5, true) == Some([127, 127, 127, 127])
  {
    var points := [GradientPoint(0.0, [0, 0, 0, 0]), GradientPoint(1.0, [255, 255, 255, 255])];
    assert Positions(points) == [0.0, 1.0];
    assert WindowColor(points, 0, 0.5) == LinerpColor([0, 0, 0, 0], [255, 255, 255, 255], 0.5);
    BlendChannelsExamples();
  }
}
