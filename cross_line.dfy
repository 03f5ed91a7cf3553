/**
 * A chart cross line: a marker drawn across the plot area at one value of an
 * axis (kind "line") or spanning two values (kind "range"). In the axis'
 * local frame the marker is the rectangle between x = 0 and
 * x = -sideFlag * gridLength, and between the two converted values on y.
 * The line kind strokes the rectangle's two value edges; the range kind also
 * fills the rectangle.
 */
module CrossLines {
  import opened Wrappers
  import opened Scene

  datatype Kind = Line | Range

  /** The side of the axis the grid extends to: 1 or -1. */
  type SideFlag = s: int | s == 1 || s == -1 witness 1

  datatype Point = Point(x: real, y: real)

  /**
   * An axis scale as the cross line uses it: `convert` maps a domain value
   * (`None` is `undefined`) to a pixel; `bandwidth` is set for band scales.
   */
  datatype Scale<!D> = Scale(convert: Option<D> -> real, bandwidth: Option<real>)

  /** The two path operations the line path applies, in the order it applies them. */
  datatype PathMethod = MoveToMethod | LineToMethod

  const LINE_PATH_METHODS: seq<PathMethod> := [MoveToMethod, LineToMethod, MoveToMethod, LineToMethod]

  function Command(op: PathMethod, p: Point): PathCommand {
    match op
    case MoveToMethod => MoveTo(p.x, p.y)
    case LineToMethod => LineTo(p.x, p.y)
  }

  /** Half the scale's band width, or 0 for a scale without bands. */
  function HalfBandWidth(bandwidth: Option<real>): real {
    bandwidth.GetOr(0.0) / 2.0
  }

  /** The two domain values along the axis: the range as given, else the value and `undefined`. */
  function ValueInputs<D>(range: Option<(Option<D>, Option<D>)>, value: Option<D>): (Option<D>, Option<D>) {
    if range.Some? then range.value else (value, None)
  }

  /** The corners of the marker, in the order the path visits them. */
  function Corners(xStart: real, xEnd: real, yStart: real, yEnd: real): seq<Point> {
    [Point(xStart, yStart), Point(xEnd, yStart), Point(xEnd, yEnd), Point(xStart, yEnd)]
  }

  /**
   * The four points the cross line computes for the given scale and
   * configuration. They are the corners of an axis-aligned rectangle: it
   * starts on the axis (x = 0) and reaches x = -sideFlag * gridLength.
   */
  function NodePoints<D>(scale: Scale<D>, gridLength: real, sideFlag: SideFlag,
                         range: Option<(Option<D>, Option<D>)>, value: Option<D>): (pts: seq<Point>)
    ensures |pts| == 4
    ensures pts[0].x == pts[3].x == 0.0
    ensures pts[1].x == pts[2].x == -(sideFlag as real) * gridLength
    ensures pts[0].y == pts[1].y && pts[2].y == pts[3].y
  {
    var (start, end) := ValueInputs(range, value);
    var halfBandWidth := HalfBandWidth(scale.bandwidth);
    Corners(0.0, -(sideFlag as real) * gridLength,
            scale.convert(start) + halfBandWidth, scale.convert(end) + halfBandWidth)
  }

  /**
   * Band centring: each value edge lies at the converted value plus half the
   * band width (0 without bands); a range's ends are taken in the given order,
   * a single value's second edge is the conversion of `undefined`.
   */
  lemma NodePointsValueEdges<D>(scale: Scale<D>, gridLength: real, sideFlag: SideFlag,
                                range: Option<(Option<D>, Option<D>)>, value: Option<D>)
    ensures var pts := NodePoints(scale, gridLength, sideFlag, range, value);
      var w := if scale.bandwidth.Some? then scale.bandwidth.value else 0.0;
      && (range.Some? ==>
            pts[0].y == scale.convert(range.value.0) + w / 2.0 && pts[2].y == scale.convert(range.value.1) + w / 2.0)
      && (range.None? ==>
            pts[0].y == scale.convert(value) + w / 2.0 && pts[2].y == scale.convert(None) + w / 2.0)
  {
  }

  /**
   * The range ends are not sorted: swapping them yields the same four corners
   * visited in reverse order, so the same rectangle traced the other way.
   */
  lemma SwappedRangeReversesCorners<D>(scale: Scale<D>, gridLength: real, sideFlag: SideFlag,
                                       a: Option<D>, b: Option<D>, value: Option<D>)
    ensures var pts := NodePoints(scale, gridLength, sideFlag, Some((a, b)), value);
      var swapped := NodePoints(scale, gridLength, sideFlag, Some((b, a)), value);
      && swapped == [pts[3], pts[2], pts[1], pts[0]]
      && multiset(swapped) == multiset(pts)
  {
    var pts := NodePoints(scale, gridLength, sideFlag, Some((a, b)), value);
    var swapped := NodePoints(scale, gridLength, sideFlag, Some((b, a)), value);
    assert swapped == [pts[3], pts[2], pts[1], pts[0]];
    calc {
      multiset(swapped);
      multiset{pts[3], pts[2], pts[1], pts[0]};
      multiset{pts[0], pts[1], pts[2], pts[3]};
      { assert pts == [pts[0], pts[1], pts[2], pts[3]]; }
      multiset(pts);
    }
  }

  /** Commands of the line path: the two value edges as separate strokes, then a close. */
  function LinePathCommands(points: seq<Point>): (cmds: seq<PathCommand>)
    requires |points| >= 4
    ensures |cmds| == 5
    ensures cmds[0] == MoveTo(points[0].x, points[0].y) && cmds[1] == LineTo(points[1].x, points[1].y)
    ensures cmds[2] == MoveTo(points[2].x, points[2].y) && cmds[3] == LineTo(points[3].x, points[3].y)
    ensures cmds[4] == Close
  {
    [Command(LINE_PATH_METHODS[0], points[0]), Command(LINE_PATH_METHODS[1], points[1]),
     Command(LINE_PATH_METHODS[2], points[2]), Command(LINE_PATH_METHODS[3], points[3]), Close]
  }

  /** A move to the first point and a line to each following point. */
  function PolylineCommands(points: seq<Point>): (cmds: seq<PathCommand>)
    ensures |cmds| == |points|
    ensures forall i :: 0 <= i < |points| ==>
      cmds[i] == Command(if i > 0 then LineToMethod else MoveToMethod, points[i])
  {
    if points == [] then []
    else
      var n := |points| - 1;
      PolylineCommands(points[..n]) + [Command(if n > 0 then LineToMethod else MoveToMethod, points[n])]
  }

  /** Commands of the range path: the polygon through all the points, closed. */
  function RangePathCommands(points: seq<Point>): (cmds: seq<PathCommand>)
    ensures |cmds| == |points| + 1 && cmds[|points|] == Close
    ensures forall i :: 0 <= i < |points| ==>
      cmds[i] == Command(if i > 0 then LineToMethod else MoveToMethod, points[i])
  {
    PolylineCommands(points) + [Close]
  }

  /**
   * For the computed points, the line path strokes the start edge from the
   * axis outwards and the end edge back to the axis, as two separate strokes.
   */
  lemma LinePathStrokesValueEdges<D>(scale: Scale<D>, gridLength: real, sideFlag: SideFlag,
                                     range: Option<(Option<D>, Option<D>)>, value: Option<D>)
    ensures var pts := NodePoints(scale, gridLength, sideFlag, range, value);
      var xEnd := -(sideFlag as real) * gridLength;
      LinePathCommands(pts) == [MoveTo(0.0, pts[0].y), LineTo(xEnd, pts[0].y),
                                MoveTo(xEnd, pts[2].y), LineTo(0.0, pts[2].y), Close]
  {
  }

  /** For the computed points, the range path is the closed rectangle through all four corners. */
  lemma RangePathTracesRectangle<D>(scale: Scale<D>, gridLength: real, sideFlag: SideFlag,
                                    range: Option<(Option<D>, Option<D>)>, value: Option<D>)
    ensures var pts := NodePoints(scale, gridLength, sideFlag, range, value);
      var xEnd := -(sideFlag as real) * gridLength;
      RangePathCommands(pts) == [MoveTo(0.0, pts[0].y), LineTo(xEnd, pts[0].y),
                                 LineTo(xEnd, pts[2].y), LineTo(0.0, pts[2].y), Close]
  {
    var pts := NodePoints(scale, gridLength, sideFlag, range, value);
    var cmds := PolylineCommands(pts);
    assert cmds[0] == Command(MoveToMethod, pts[0]);
    assert cmds[1] == Command(LineToMethod, pts[1]);
    assert cmds[2] == Command(LineToMethod, pts[2]);
    assert cmds[3] == Command(LineToMethod, pts[3]);
  }

  /** What the cross line shows, as read back from its scene nodes. */
  datatype Rendering = Rendering(
    visible: bool,
    points: Option<seq<Point>>,
    line: seq<PathCommand>,
    lineStroke: Option<string>,
    lineStrokeWidth: real,
    lineOpacity: real,
    range: seq<PathCommand>,
    rangeFill: Option<string>,
    rangeOpacity: real)

  class CrossLine<D> {
    var kind: Option<Kind>
    var range: Option<(Option<D>, Option<D>)>
    var value: Option<D>
    var fill: Option<string>
    var fillOpacity: Option<real>
    var stroke: Option<string>
    var strokeWidth: Option<real>
    var strokeOpacity: Option<real>

    var scale: Option<Scale<D>>
    var gridLength: real
    var sideFlag: SideFlag

    const group: Group
    const crossLineLine: Path
    const crossLineRange: Path
    var pathData: Option<seq<Point>>

    ghost predicate Valid()
      reads this
    {
      && crossLineLine != crossLineRange
      && (pathData.Some? ==> |pathData.value| == 4)
    }

    /** The points `pathData` holds, or none when it was never computed. */
    function Points(): seq<Point>
      reads this
    {
      if pathData.Some? then pathData.value else []
    }

    /** What `createNodeData` leaves in `pathData`: fresh points with a scale, else the old ones. */
    function NextPathData(): Option<seq<Point>>
      reads this
    {
      if scale.Some? then Some(NodePoints(scale.value, gridLength, sideFlag, range, value)) else pathData
    }

    /** The line path holds the line commands for the current points and the line's styles. */
    ghost predicate LineDrawn()
      reads this, crossLineLine
    {
      && |Points()| >= 4
      && crossLineLine.commands == LinePathCommands(Points())
      && crossLineLine.stroke == stroke
      && crossLineLine.strokeWidth == strokeWidth.GetOr(1.0)
      && crossLineLine.opacity == strokeOpacity.GetOr(1.0)
    }

    /** The range path holds the closed polygon through the current points and the range's styles. */
    ghost predicate RangeDrawn()
      reads this, crossLineRange
    {
      && crossLineRange.commands == RangePathCommands(Points())
      && crossLineRange.fill == fill
      && crossLineRange.opacity == fillOpacity.GetOr(1.0)
    }

    function Rendered(): Rendering
      reads this, group, crossLineLine, crossLineRange
    {
      Rendering(group.visible, pathData,
                crossLineLine.commands, crossLineLine.stroke, crossLineLine.strokeWidth, crossLineLine.opacity,
                crossLineRange.commands, crossLineRange.fill, crossLineRange.opacity)
    }

    /**
     * A new cross line: no kind, values, scale or styles; grid length 0 on
     * side -1; the range path beneath the line path in the group; no fill on
     * the line path.
     */
    constructor ()
      ensures Valid()
      ensures fresh(group) && fresh(crossLineLine) && fresh(crossLineRange)
      ensures kind.None? && range.None? && value.None? && scale.None? && pathData.None?
      ensures fill.None? && fillOpacity.None? && stroke.None? && strokeWidth.None? && strokeOpacity.None?
      ensures gridLength == 0.0 && sideFlag == -1
      ensures group.children == [crossLineRange, crossLineLine]
      ensures crossLineLine.fill.None?
      ensures crossLineLine.commands == [] && crossLineRange.commands == []
    {
      kind, range, value := None, None, None;
      fill, fillOpacity, stroke, strokeWidth, strokeOpacity := None, None, None, None, None;
      scale, gridLength, sideFlag := None, 0.0, -1;
      group := new Group();
      crossLineLine := new Path();
      crossLineRange := new Path();
      pathData := None;
      new;
      group.Append([crossLineRange, crossLineLine]);
      crossLineLine.fill := None;
    }

    /**
     * Shows or hides the cross line. Without a kind nothing happens. Hiding
     * only clears the group's visibility. Showing recomputes the points (when
     * a scale is set) and redraws the line path, and the range path for the
     * range kind. Drawing the line path needs four points.
     */
    method Update(visible: bool)
      requires Valid()
      requires kind.Some? && visible && scale.None? ==> pathData.Some?
      modifies this`pathData, group`visible
      modifies crossLineLine`commands, crossLineLine`stroke, crossLineLine`strokeWidth, crossLineLine`opacity
      modifies crossLineRange`commands, crossLineRange`fill, crossLineRange`opacity
      ensures Valid()
      ensures kind.None? ==> unchanged(this, group, crossLineLine, crossLineRange)
      ensures kind.Some? ==> group.visible == visible
      ensures kind.Some? && !visible ==> unchanged(this, crossLineLine, crossLineRange)
      ensures kind.Some? && visible ==> pathData == old(NextPathData()) && LineDrawn()
      ensures kind.Some? && visible ==> NextPathData() == pathData
      ensures kind == Some(Range) && visible ==> RangeDrawn()
      ensures kind != Some(Range) ==> unchanged(crossLineRange)
    {
      if kind.None? {
        return;
      }
      group.visible := visible;
      if !visible {
        return;
      }
      CreateNodeData();
      UpdatePaths();
    }

    /** Calling `Update(true)` again with the same configuration changes nothing. */
    method UpdateIsIdempotent() returns (first: Rendering, second: Rendering)
      requires Valid()
      requires kind.Some? && scale.None? ==> pathData.Some?
      modifies this`pathData, group`visible
      modifies crossLineLine`commands, crossLineLine`stroke, crossLineLine`strokeWidth, crossLineLine`opacity
      modifies crossLineRange`commands, crossLineRange`fill, crossLineRange`opacity
      ensures first == second
    {
      Update(true);
      first := Rendered();
      ghost var points := Points();
      Update(true);
      assert Points() == points;
      second := Rendered();
    }

    method UpdatePaths()
      requires Valid() && pathData.Some?
      modifies crossLineLine`commands, crossLineLine`stroke, crossLineLine`strokeWidth, crossLineLine`opacity
      modifies crossLineRange`commands, crossLineRange`fill, crossLineRange`opacity
      ensures LineDrawn()
      ensures kind == Some(Range) ==> RangeDrawn()
      ensures kind != Some(Range) ==> unchanged(crossLineRange)
    {
      UpdateLinePath();
      UpdateLineNode();
      if kind == Some(Range) {
        UpdateRangePath();
        UpdateRangeNode();
      }
    }

    /** Recomputes the four points from the scale; does nothing without a scale. */
    method CreateNodeData()
      requires Valid()
      modifies this`pathData
      ensures Valid()
      ensures pathData == old(NextPathData())
    {
      if scale.None? {
        return;
      }
      var s := scale.value;
      var halfBandWidth := HalfBandWidth(s.bandwidth);
      var xStart, xEnd := 0.0, -(sideFlag as real) * gridLength;
      var (yStartValue, yEndValue) := if range.Some? then range.value else (value, None);
      var yStart, yEnd := s.convert(yStartValue) + halfBandWidth, s.convert(yEndValue) + halfBandWidth;
      var points := [];
      points := points + [Point(xStart, yStart), Point(xEnd, yStart), Point(xEnd, yEnd), Point(xStart, yEnd)];
      assert points == NodePoints(s, gridLength, sideFlag, range, value);
      pathData := Some(points);
    }

    /** Clears the line path and replays move, line, move, line over the first four points, then closes. */
    method UpdateLinePath()
      requires Valid() && pathData.Some?
      modifies crossLineLine`commands
      ensures crossLineLine.commands == LinePathCommands(Points())
    {
      var points := pathData.value;
      var pathMethods := LINE_PATH_METHODS;
      var path := crossLineLine;
      path.Clear();
      for i := 0 to |pathMethods|
        invariant path.commands == LinePathCommands(points)[..i]
      {
        var p := points[i];
        match pathMethods[i]
        case MoveToMethod => path.MoveTo(p.x, p.y);
        case LineToMethod => path.LineTo(p.x, p.y);
        assert LinePathCommands(points)[..i + 1] == LinePathCommands(points)[..i] + [Command(pathMethods[i], p)];
      }
      path.ClosePath();
    }

    /** Copies the stroke styles onto the line path, width and opacity defaulting to 1. */
    method UpdateLineNode()
      modifies crossLineLine`stroke, crossLineLine`strokeWidth, crossLineLine`opacity
      ensures crossLineLine.stroke == stroke
      ensures crossLineLine.strokeWidth == strokeWidth.GetOr(1.0)
      ensures crossLineLine.opacity == strokeOpacity.GetOr(1.0)
    {
      crossLineLine.stroke := stroke;
      crossLineLine.strokeWidth := if strokeWidth.Some? then strokeWidth.value else 1.0;
      crossLineLine.opacity := if strokeOpacity.Some? then strokeOpacity.value else 1.0;
    }

    /** Copies the fill styles onto the range path, opacity defaulting to 1. */
    method UpdateRangeNode()
      modifies crossLineRange`fill, crossLineRange`opacity
      ensures crossLineRange.fill == fill
      ensures crossLineRange.opacity == fillOpacity.GetOr(1.0)
    {
      crossLineRange.fill := fill;
      crossLineRange.opacity := if fillOpacity.Some? then fillOpacity.value else 1.0;
    }

    /** Clears the range path and draws the closed polygon through the points (just a close if there are none). */
    method UpdateRangePath()
      modifies crossLineRange`commands
      ensures crossLineRange.commands == RangePathCommands(Points())
    {
      var points := if pathData.Some? then pathData.value else [];
      var path := crossLineRange;
      path.Clear();
      for i := 0 to |points|
        invariant path.commands == PolylineCommands(points[..i])
      {
        var p := points[i];
        if i > 0 {
          path.LineTo(p.x, p.y);
        } else {
          path.MoveTo(p.x, p.y);
        }
        assert points[..i + 1][..i] == points[..i];
      }
      assert points[..|points|] == points;
      path.ClosePath();
    }
  }
}
