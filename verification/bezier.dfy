/**
 * Bezier paths as lists of drawing commands, and the library's
 * `om_addCurve(to:)` extension, which appends one S-shaped cubic segment
 * whose tangents are horizontal at both ends.
 *
 * The platform path object is modelled by the class `BezierPath`; only
 * the primitives the library uses are modelled (move, line, curve, close,
 * rectangle, translation), and only as the commands they record.
 */
module Bezier {
  import opened Wrappers
  import opened Geometry

  datatype PathCommand =
    | MoveTo(to: Point)
    | LineTo(to: Point)
    | CurveTo(to: Point, cp1: Point, cp2: Point)
    | Close

  /** The target of the last MoveTo: where the current subpath started. */
  function SubpathStart(cmds: seq<PathCommand>): Option<Point>
  {
    if cmds == [] then None
    else match cmds[|cmds| - 1]
      case MoveTo(p) => Some(p)
      case _ => SubpathStart(cmds[..|cmds| - 1])
  }

  /**
   * The path's current point: the end of the last command, or the start of
   * the subpath after a Close; none for an empty path.
   */
  function CurrentPoint(cmds: seq<PathCommand>): Option<Point>
  {
    if cmds == [] then None
    else match cmds[|cmds| - 1]
      case MoveTo(p) => Some(p)
      case LineTo(p) => Some(p)
      case CurveTo(p, _, _) => Some(p)
      case Close => SubpathStart(cmds[..|cmds| - 1])
  }

  /** The path the platform records for a rectangle: a closed subpath, clockwise from the origin corner. */
  function RectCommands(x: real, y: real, width: real, height: real): (r: seq<PathCommand>)
    ensures |r| == 5 && r[0] == MoveTo(Point(x, y)) && r[4] == Close
  {
    [MoveTo(Point(x, y)), LineTo(Point(x + width, y)), LineTo(Point(x + width, y + height)),
     LineTo(Point(x, y + height)), Close]
  }

  /** The curve segment `om_addCurve(to: end)` appends when the current point is `start`. */
  function CurveSegment(start: Point, end: Point): (c: PathCommand)
    ensures c.CurveTo? && c.to == end
  {
    var cp1 := Point((end.x + start.x) / 2.0, start.y);
    var cp2 := Point(cp1.x, end.y);
    CurveTo(end, cp1, cp2)
  }

  /**
   * The control points of a curve segment: the first sits halfway along x
   * at the start's height, the second at the same x and the end's height,
   * so the curve leaves and arrives horizontally.
   */
  lemma CurveSegmentShape(start: Point, end: Point)
    ensures var c := CurveSegment(start, end);
      // horizontal tangent at both ends
      c.cp1.y == start.y && c.cp2.y == end.y &&
      // both control points on the vertical through the x-midpoint of the ends
      c.cp2.x == c.cp1.x && c.cp1.x - start.x == end.x - c.cp1.x &&
      (start.x <= end.x ==> start.x <= c.cp1.x <= end.x) &&
      (end.x <= start.x ==> end.x <= c.cp1.x <= start.x)
  {
  }

  function LastOr(start: Point, pts: seq<Point>): Point
  {
    if pts == [] then start else pts[|pts| - 1]
  }

  /**
   * The commands that repeated `om_addCurve` calls through `pts` append to
   * a path whose current point is `start`.
   */
  function CurveChain(start: Point, pts: seq<Point>): (r: seq<PathCommand>)
    ensures |r| == |pts|
    decreases |pts|
  {
    if pts == [] then []
    else
      var prev := pts[..|pts| - 1];
      CurveChain(start, prev) + [CurveSegment(LastOr(start, prev), pts[|pts| - 1])]
  }

  /** Curve k of a chain runs from the point drawn before it (or `start`) to `pts[k]`. */
  lemma {:induction false} CurveChainAt(start: Point, pts: seq<Point>, k: nat)
    requires k < |pts|
    ensures CurveChain(start, pts)[k] == CurveSegment(LastOr(start, pts[..k]), pts[k])
    decreases |pts|
  {
    var prev := pts[..|pts| - 1];
    if k < |prev| {
      CurveChainAt(start, prev, k);
      assert prev[..k] == pts[..k];
    }
  }

  function TranslateCommand(c: PathCommand, d: Point): PathCommand
  {
    match c
    case MoveTo(p) => MoveTo(Add(p, d))
    case LineTo(p) => LineTo(Add(p, d))
    case CurveTo(p, c1, c2) => CurveTo(Add(p, d), Add(c1, d), Add(c2, d))
    case Close => Close
  }

  /** A path moved by the offset `d`, as applying a translation transform does. */
  function Translated(cmds: seq<PathCommand>, d: Point): (r: seq<PathCommand>)
    ensures |r| == |cmds|
  {
    seq(|cmds|, i requires 0 <= i < |cmds| => TranslateCommand(cmds[i], d))
  }

  function TranslatedPoints(pts: seq<Point>, d: Point): (r: seq<Point>)
    ensures |r| == |pts|
  {
    seq(|pts|, i requires 0 <= i < |pts| => Add(pts[i], d))
  }

  /** Moving a curve segment moves its control points with its ends. */
  lemma CurveSegmentTranslated(start: Point, end: Point, d: Point)
    ensures TranslateCommand(CurveSegment(start, end), d) == CurveSegment(Add(start, d), Add(end, d))
  {
  }

  /** The control-point rule commutes with translation: moving a chain of curves is the chain through the moved points. */
  lemma CurveChainTranslated(start: Point, pts: seq<Point>, d: Point)
    ensures Translated(CurveChain(start, pts), d) == CurveChain(Add(start, d), TranslatedPoints(pts, d))
  {
    var lhs := Translated(CurveChain(start, pts), d);
    var rhs := CurveChain(Add(start, d), TranslatedPoints(pts, d));
    forall k | 0 <= k < |pts|
      ensures lhs[k] == rhs[k]
    {
      var moved := TranslatedPoints(pts, d);
      CurveChainAt(start, pts, k);
      CurveChainAt(Add(start, d), moved, k);
      if k > 0 {
        assert moved[..k][k - 1] == moved[k - 1] == Add(pts[k - 1], d);
        assert pts[..k][k - 1] == pts[k - 1];
      }
      assert LastOr(Add(start, d), moved[..k]) == Add(LastOr(start, pts[..k]), d);
      CurveSegmentTranslated(LastOr(start, pts[..k]), pts[k], d);
    }
  }

  /** A platform path object, mutated in place by the drawing primitives. */
  class BezierPath {
    var commands: seq<PathCommand>

    /** An empty path. */
    constructor ()
      ensures commands == []
    {
      commands := [];
    }

    /** A path holding one rectangle. */
    constructor WithRect(x: real, y: real, width: real, height: real)
      ensures commands == RectCommands(x, y, width, height)
    {
      commands := RectCommands(x, y, width, height);
    }

    method Move(p: Point)
      modifies this
      ensures commands == old(commands) + [MoveTo(p)]
      ensures CurrentPoint(commands) == Some(p)
    {
      commands := commands + [MoveTo(p)];
    }

    /** A line needs a current point to start from. */
    method AddLine(p: Point)
      requires CurrentPoint(commands).Some?
      modifies this
      ensures commands == old(commands) + [LineTo(p)]
      ensures CurrentPoint(commands) == Some(p)
    {
      commands := commands + [LineTo(p)];
    }

    /** `om_addCurve(to:)`: one curve segment from the current point to `end`; earlier commands are kept. */
    method AddCurve(end: Point)
      requires CurrentPoint(commands).Some?
      modifies this
      ensures commands == old(commands) + [CurveSegment(CurrentPoint(old(commands)).value, end)]
      ensures CurrentPoint(commands) == Some(end)
    {
      var current := CurrentPoint(commands).value;
      commands := commands + [CurveSegment(current, end)];
    }

    method ClosePath()
      modifies this
      ensures commands == old(commands) + [Close]
    {
      commands := commands + [Close];
    }

    /** Applies a translation transform by `(dx, dy)` to every point of the path. */
    method ApplyTranslation(dx: real, dy: real)
      modifies this
      ensures commands == Translated(old(commands), Point(dx, dy))
    {
      commands := Translated(commands, Point(dx, dy));
    }
  }
}
