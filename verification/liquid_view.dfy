/**
 * The liquid view's path construction: a fixed reference rectangle (the
 * frame widened by one node segment on either side and lowered by
 * peak + nadir), and on every display tick a closed boundary path that
 * runs along three walls of that rectangle and then through the wave nodes
 * from newest to oldest, plus a thin shadow strip that follows the same
 * curve four points lower.
 *
 * Layers, colours, shadows and the display link are not modelled: the
 * view's state is the generator, the pause flag and the two paths.
 */
module LiquidView {
  import opened Wrappers
  import opened Geometry
  import opened Bezier
  import opened Wave
  import opened Generator

  /** How far the shadow strip is moved down. */
  const ShadowPathAdjust: real := 4.0

  /** The reference rectangle, fixed when the view is made. */
  datatype Reference = Reference(refX: real, refY: real, refWidth: real, refHeight: real)

  /**
   * The reference rectangle for a frame: its left edge one segment before
   * the frame, its right edge one segment past it, its top at peak + nadir
   * and its bottom at the frame's height.
   */
  function ReferenceOf(width: real, height: real, segment: real, peak: real, nadir: real): (g: Reference)
    ensures g.refX == -segment && g.refX + g.refWidth == width + segment
    ensures g.refY == peak + nadir && g.refY + g.refHeight == height
  {
    Reference(-segment, peak + nadir, width + segment * 2.0, height - peak - nadir)
  }

  /** Start of the liquid path: the top right corner, on the top edge one width right of the left edge. */
  function InitialPoint(g: Reference): (p: Point)
    ensures p.y == g.refY && p.x - g.refWidth == g.refX
  {
    Point(g.refX + g.refWidth, g.refY)
  }

  /** Directly below the start, one height down. */
  function BottomRight(g: Reference): (p: Point)
    ensures p.x == InitialPoint(g).x && p.y - InitialPoint(g).y == g.refHeight
  {
    Point(g.refX + g.refWidth, g.refY + g.refHeight)
  }

  /** Level with the bottom right corner, one width to its left. */
  function BottomLeft(g: Reference): (p: Point)
    ensures p.y == BottomRight(g).y && BottomRight(g).x - p.x == g.refWidth
  {
    Point(g.refX, g.refY + g.refHeight)
  }

  /** Directly above the bottom left corner, level with the start. */
  function TopLeft(g: Reference): (p: Point)
    ensures p.x == BottomLeft(g).x && BottomLeft(g).y - p.y == g.refHeight && p.y == InitialPoint(g).y
  {
    Point(g.refX, g.refY)
  }

  /**
   * The corners in terms of the frame: the right edge one segment past the
   * frame, the left edge one segment before it, the top at peak + nadir and
   * the bottom at the frame's height.
   */
  lemma CornersOfFrame(width: real, height: real, segment: real, peak: real, nadir: real)
    ensures var g := ReferenceOf(width, height, segment, peak, nadir);
      InitialPoint(g) == Point(width + segment, peak + nadir) &&
      BottomRight(g) == Point(width + segment, height) &&
      BottomLeft(g) == Point(-segment, height) &&
      TopLeft(g) == Point(-segment, peak + nadir)
  {
  }

  /**
   * Where the curve through node `index` ends: the oldest node (index 0)
   * is snapped to the baseline half a segment further right; any other
   * node sits at its drift and altitude.
   */
  function NodeEndPoint(g: Reference, segment: real, nodes: seq<WaveNode>, index: nat): (p: Point)
    requires index < |nodes|
    ensures index == 0 ==> p.y == g.refY && p.x - g.refX == nodes[0].translation + segment / 2.0
    ensures index > 0 ==> p.y - g.refY == nodes[index].altitude && p.x - g.refX == nodes[index].translation
  {
    if index == 0 then Point(nodes[0].translation + g.refX + segment / 2.0, g.refY)
    else Point(nodes[index].translation + g.refX, g.refY + nodes[index].altitude)
  }

  /** The end points of the wave curves in drawing order, newest node first. */
  function WaveEndPoints(g: Reference, segment: real, nodes: seq<WaveNode>): (pts: seq<Point>)
    ensures |pts| == |nodes|
  {
    seq(|nodes|, k requires 0 <= k < |nodes| => NodeEndPoint(g, segment, nodes, |nodes| - 1 - k))
  }

  /** The liquid boundary: three walls, one curve per node, and back to the start. */
  function LiquidPathFor(g: Reference, segment: real, nodes: seq<WaveNode>): seq<PathCommand>
  {
    Walls(g)
      + CurveChain(TopLeft(g), WaveEndPoints(g, segment, nodes))
      + [LineTo(InitialPoint(g))]
  }

  /** The shadow strip before it is moved: the same curves, closed off `depth` below the top edge. */
  function ShadowOutline(g: Reference, segment: real, depth: real, nodes: seq<WaveNode>): seq<PathCommand>
  {
    [MoveTo(TopLeft(g))]
      + CurveChain(TopLeft(g), WaveEndPoints(g, segment, nodes))
      + ShadowClosing(g, depth)
  }

  function ShadowPathFor(g: Reference, segment: real, depth: real, nodes: seq<WaveNode>): seq<PathCommand>
  {
    Translated(ShadowOutline(g, segment, depth, nodes), Point(0.0, ShadowPathAdjust))
  }

  /**
   * The liquid path for n nodes: a move to the top right corner, lines to
   * the other three corners, n curves that visit the nodes from newest to
   * oldest (the oldest on the baseline), each leaving horizontally from
   * where the previous command ended, and a line back to the start.
   */
  lemma LiquidPathShape(g: Reference, segment: real, nodes: seq<WaveNode>)
    requires nodes != []
    ensures var p, n := LiquidPathFor(g, segment, nodes), |nodes|;
      |p| == n + 5 &&
      p[0] == MoveTo(InitialPoint(g)) && p[1] == LineTo(BottomRight(g)) &&
      p[2] == LineTo(BottomLeft(g)) && p[3] == LineTo(TopLeft(g)) &&
      p[4] == CurveSegment(TopLeft(g), NodeEndPoint(g, segment, nodes, n - 1)) &&
      (forall k :: 5 <= k < n + 4 ==>
        p[k] == CurveSegment(NodeEndPoint(g, segment, nodes, n + 4 - k), NodeEndPoint(g, segment, nodes, n + 3 - k))) &&
      p[n + 3].to == Point(nodes[0].translation + g.refX + segment / 2.0, g.refY) &&
      p[n + 4] == LineTo(p[0].to)
  {
    var p, n := LiquidPathFor(g, segment, nodes), |nodes|;
    var pts := WaveEndPoints(g, segment, nodes);
    var curves := CurveChain(TopLeft(g), pts);
    assert p[4] == curves[0];
    CurveChainAt(TopLeft(g), pts, 0);
    forall k | 5 <= k < n + 4
      ensures p[k] == CurveSegment(NodeEndPoint(g, segment, nodes, n + 4 - k), NodeEndPoint(g, segment, nodes, n + 3 - k))
    {
      assert p[k] == curves[k - 4];
      CurveChainAt(TopLeft(g), pts, k - 4);
      assert pts[..k - 4][k - 5] == pts[k - 5] == NodeEndPoint(g, segment, nodes, n + 4 - k);
    }
    assert p[n + 3] == curves[n - 1];
    CurveChainAt(TopLeft(g), pts, n - 1);
  }

  /**
   * The shadow strip: every command of the outline moved down by the
   * shadow adjustment, and its curves are exactly the liquid path's curves
   * moved down by that much.
   */
  lemma ShadowFollowsLiquid(g: Reference, segment: real, depth: real, nodes: seq<WaveNode>)
    requires nodes != []
    ensures var s, p, n := ShadowPathFor(g, segment, depth, nodes), LiquidPathFor(g, segment, nodes), |nodes|;
      var shift := Point(0.0, ShadowPathAdjust);
      |s| == n + 5 &&
      s[0] == MoveTo(Add(TopLeft(g), shift)) &&
      (forall k :: 1 <= k < n + 1 ==> s[k] == TranslateCommand(p[k + 3], shift)) &&
      s[n + 1] == LineTo(Add(InitialPoint(g), shift)) &&
      s[n + 2] == LineTo(Add(Add(InitialPoint(g), Point(0.0, depth)), shift)) &&
      s[n + 3] == LineTo(Add(Add(TopLeft(g), Point(0.0, depth)), shift)) &&
      s[n + 4] == Close
  {
    var s, p, n := ShadowPathFor(g, segment, depth, nodes), LiquidPathFor(g, segment, nodes), |nodes|;
    var shift := Point(0.0, ShadowPathAdjust);
    var outline := ShadowOutline(g, segment, depth, nodes);
    var curves := CurveChain(TopLeft(g), WaveEndPoints(g, segment, nodes));
    forall k | 1 <= k < n + 1
      ensures s[k] == TranslateCommand(p[k + 3], shift)
    {
      assert outline[k] == curves[k - 1];
      assert p[k + 3] == curves[k - 1];
    }
  }

  /** Drawing one more curve appends one segment, from the chain's last point, to the chain. */
  lemma CurveChainAppend(start: Point, pts: seq<Point>, p: Point)
    ensures CurveChain(start, pts + [p]) == CurveChain(start, pts) + [CurveSegment(LastOr(start, pts), p)]
  {
    assert (pts + [p])[..|pts|] == pts;
  }

  /**
   * One more curve on a path that already holds the chain through `drawn`:
   * the path then holds the chain through `drawn + [p]` and ends at `p`.
   */
  lemma ChainStep(before: seq<PathCommand>, start: Point, drawn: seq<Point>, p: Point)
    ensures before + CurveChain(start, drawn + [p]) ==
      (before + CurveChain(start, drawn)) + [CurveSegment(LastOr(start, drawn), p)]
    ensures LastOr(start, drawn + [p]) == p
    ensures CurrentPoint((before + CurveChain(start, drawn)) + [CurveSegment(LastOr(start, drawn), p)]) == Some(p)
  {
    CurveChainAppend(start, drawn, p);
  }

  /**
   * The body of the `forEach` in `updateLiquidPath()`: the end point of
   * the node at `currentIndex`, and one `om_addCurve` to it on the shadow
   * and then on the liquid path.
   */
  method DrawNode(liquid: BezierPath, shadow: BezierPath, g: Reference, segment: real,
                  allWaveNodes: seq<WaveNode>, currentIndex: nat)
    returns (ghost endPoint: Point)
    requires liquid != shadow && currentIndex < |allWaveNodes|
    requires CurrentPoint(liquid.commands).Some? && CurrentPoint(shadow.commands).Some?
    modifies liquid, shadow
    ensures endPoint == NodeEndPoint(g, segment, allWaveNodes, currentIndex)
    ensures liquid.commands == old(liquid.commands) + [CurveSegment(CurrentPoint(old(liquid.commands)).value, endPoint)]
    ensures shadow.commands == old(shadow.commands) + [CurveSegment(CurrentPoint(old(shadow.commands)).value, endPoint)]
    ensures CurrentPoint(liquid.commands) == Some(endPoint) && CurrentPoint(shadow.commands) == Some(endPoint)
  {
    var currentNode := allWaveNodes[currentIndex];
    var end: Point;
    if currentIndex == 0 {
      end := Point(currentNode.translation + g.refX + segment / 2.0, g.refY);
    } else {
      end := Point(currentNode.translation + g.refX, g.refY + currentNode.altitude);
    }
    shadow.AddCurve(end);
    liquid.AddCurve(end);
    endPoint := end;
  }

  /**
   * The `forEach` over the nodes in `updateLiquidPath()`: for each node
   * from newest to oldest, one `om_addCurve` to its end point on both
   * paths, each of which starts at the top left corner.
   */
  method DrawWave(liquid: BezierPath, shadow: BezierPath, g: Reference, segment: real, allWaveNodes: seq<WaveNode>)
    requires liquid != shadow
    requires CurrentPoint(liquid.commands) == Some(TopLeft(g))
    requires CurrentPoint(shadow.commands) == Some(TopLeft(g))
    modifies liquid, shadow
    ensures liquid.commands == old(liquid.commands) + CurveChain(TopLeft(g), WaveEndPoints(g, segment, allWaveNodes))
    ensures shadow.commands == old(shadow.commands) + CurveChain(TopLeft(g), WaveEndPoints(g, segment, allWaveNodes))
    ensures CurrentPoint(liquid.commands) == Some(LastOr(TopLeft(g), WaveEndPoints(g, segment, allWaveNodes)))
    ensures CurrentPoint(shadow.commands) == Some(LastOr(TopLeft(g), WaveEndPoints(g, segment, allWaveNodes)))
  {
    ghost var pts := WaveEndPoints(g, segment, allWaveNodes);
    ghost var liquidBefore, shadowBefore := liquid.commands, shadow.commands;
    ghost var drawn: seq<Point> := [];
    var index := 0;
    while index < |allWaveNodes|
      invariant 0 <= index <= |allWaveNodes|
      invariant drawn == pts[..index]
      invariant liquid.commands == liquidBefore + CurveChain(TopLeft(g), drawn)
      invariant shadow.commands == shadowBefore + CurveChain(TopLeft(g), drawn)
      invariant CurrentPoint(liquid.commands) == Some(LastOr(TopLeft(g), drawn))
      invariant CurrentPoint(shadow.commands) == Some(LastOr(TopLeft(g), drawn))
    {
      var currentIndex := |allWaveNodes| - 1 - index;
      ghost var endPoint := DrawNode(liquid, shadow, g, segment, allWaveNodes, currentIndex);
      ChainStep(liquidBefore, TopLeft(g), drawn, endPoint);
      ChainStep(shadowBefore, TopLeft(g), drawn, endPoint);
      assert pts[index] == NodeEndPoint(g, segment, allWaveNodes, currentIndex) == endPoint;
      assert pts[..index + 1] == pts[..index] + [endPoint];
      drawn := drawn + [endPoint];
      index := index + 1;
    }
    assert drawn == pts;
  }

  /** The commands that close the shadow strip `depth` below the top edge. */
  function ShadowClosing(g: Reference, depth: real): seq<PathCommand>
  {
    var down := Point(0.0, depth);
    [LineTo(InitialPoint(g)), LineTo(Add(InitialPoint(g), down)), LineTo(Add(TopLeft(g), down)), Close]
  }

  /**
   * The end of the shadow drawing in `updateLiquidPath()`: back along the
   * right edge, down by `depth`, across, closed, and the whole strip moved
   * down by `ShadowPathAdjust`.
   */
  method CloseShadow(shadow: BezierPath, g: Reference, depth: real)
    requires CurrentPoint(shadow.commands).Some?
    modifies shadow
    ensures shadow.commands == Translated(old(shadow.commands) + ShadowClosing(g, depth), Point(0.0, ShadowPathAdjust))
  {
    ghost var drawn := shadow.commands;
    shadow.AddLine(InitialPoint(g));
    shadow.AddLine(Add(InitialPoint(g), Point(0.0, depth)));
    shadow.AddLine(Add(TopLeft(g), Point(0.0, depth)));
    shadow.ClosePath();
    assert shadow.commands == drawn + ShadowClosing(g, depth);
    shadow.ApplyTranslation(0.0, ShadowPathAdjust);
  }

  /** The walls of the liquid boundary, in a new path. */
  function Walls(g: Reference): seq<PathCommand>
  {
    [MoveTo(InitialPoint(g)), LineTo(BottomRight(g)), LineTo(BottomLeft(g)), LineTo(TopLeft(g))]
  }

  /**
   * The start of the liquid drawing in `updateLiquidPath()`: a new path
   * from the top right corner down the right edge, along the bottom and up
   * the left edge, ending at the top left corner.
   */
  method DrawWalls(g: Reference) returns (liquid: BezierPath)
    ensures fresh(liquid)
    ensures liquid.commands == Walls(g)
    ensures CurrentPoint(liquid.commands) == Some(TopLeft(g))
  {
    liquid := new BezierPath();
    liquid.Move(InitialPoint(g));
    liquid.AddLine(BottomRight(g));
    liquid.AddLine(BottomLeft(g));
    liquid.AddLine(TopLeft(g));
  }

  /**
   * The drawing half of `updateLiquidPath()`: two new paths, the liquid
   * boundary and the shadow strip `depth` deep, drawn through the end
   * points of `allWaveNodes`.
   */
  method DrawPaths(g: Reference, segment: real, depth: real, allWaveNodes: seq<WaveNode>)
    returns (liquid: BezierPath, shadow: BezierPath)
    ensures fresh(liquid) && fresh(shadow) && liquid != shadow
    ensures liquid.commands == LiquidPathFor(g, segment, allWaveNodes)
    ensures shadow.commands == ShadowPathFor(g, segment, depth, allWaveNodes)
  {
    liquid := DrawWalls(g);
    shadow := new BezierPath();
    shadow.Move(TopLeft(g));
    DrawWave(liquid, shadow, g, segment, allWaveNodes);
    CloseShadow(shadow, g, depth);
    liquid.AddLine(InitialPoint(g));
  }

  class OMLiquidView {
    const width: real
    const height: real
    const templateWaveNode: WaveNode
    const waveSegment: real
    const hasShadow: bool
    const reference: Reference
    const waveNodeGenerator: WaveNodeGenerator
    var timerIsPaused: bool
    var liquidPath: BezierPath
    var shadowPath: BezierPath?

    ghost predicate Valid()
      reads this, waveNodeGenerator
    {
      waveNodeGenerator.Valid() &&
      waveNodeGenerator.templateWaveNode == templateWaveNode &&
      waveSegment == templateWaveNode.nodeSegment &&
      reference == ReferenceOf(width, height, waveSegment, templateWaveNode.peak, templateWaveNode.nadir)
    }

    /**
     * `init(frame:templateWaveNode:appearance:)`: the reference rectangle
     * as the liquid path, a two-point-high strip (placed at y = refX) as
     * the shadow path when a shadow is configured, and a fresh generator
     * with at most `maxCount` segments of drift.
     */
    constructor (width: real, height: real, templateWaveNode: WaveNode, hasShadow: bool, maxCount: int)
      ensures this.width == width && this.height == height && this.hasShadow == hasShadow
      ensures this.templateWaveNode == templateWaveNode && waveSegment == templateWaveNode.nodeSegment
      ensures reference == ReferenceOf(width, height, waveSegment, templateWaveNode.peak, templateWaveNode.nadir)
      ensures fresh(waveNodeGenerator) && fresh(liquidPath)
      ensures waveNodeGenerator.templateWaveNode == templateWaveNode && waveNodeGenerator.maxNodeCount == maxCount
      ensures waveNodeGenerator.existingWaveNodes == [] && !waveNodeGenerator.timerIsPaused && !timerIsPaused
      ensures liquidPath.commands ==
        RectCommands(reference.refX, reference.refY, reference.refWidth, reference.refHeight)
      ensures hasShadow ==>
        shadowPath != null && fresh(shadowPath) &&
        shadowPath.commands == RectCommands(reference.refX, reference.refX, reference.refWidth, 2.0)
      ensures !hasShadow ==> shadowPath == null
      ensures IsTemplate(templateWaveNode) ==> Valid()
    {
      this.width := width;
      this.height := height;
      this.templateWaveNode := templateWaveNode;
      this.hasShadow := hasShadow;
      waveSegment := templateWaveNode.nodeSegment;
      var g := ReferenceOf(width, height, templateWaveNode.nodeSegment, templateWaveNode.peak, templateWaveNode.nadir);
      reference := g;
      timerIsPaused := false;
      liquidPath := new BezierPath.WithRect(g.refX, g.refY, g.refWidth, g.refHeight);
      if hasShadow {
        shadowPath := new BezierPath.WithRect(g.refX, g.refX, g.refWidth, 2.0);
      } else {
        shadowPath := null;
      }
      waveNodeGenerator := new WaveNodeGenerator(templateWaveNode, maxCount);
    }

    method WillResignActive()
      modifies this
      ensures timerIsPaused
      ensures liquidPath == old(liquidPath) && shadowPath == old(shadowPath)
    {
      timerIsPaused := true;
    }

    method WillEnterForeground()
      modifies this
      ensures !timerIsPaused
      ensures liquidPath == old(liquidPath) && shadowPath == old(shadowPath)
    {
      timerIsPaused := false;
    }

    /** `draw(_:)`: starts the generator (the display link itself is not modelled). */
    method Draw(initialDraw: nat, nextDraw: nat)
      requires Valid() && initialDraw < UInt32Limit && nextDraw < UInt32Limit
      modifies waveNodeGenerator
      ensures Valid() && waveNodeGenerator.timerIsPaused == old(waveNodeGenerator.timerIsPaused)
      ensures var seeded := old(waveNodeGenerator.existingWaveNodes) + [InitialNodeOf(templateWaveNode, initialDraw)];
        waveNodeGenerator.existingWaveNodes ==
          if old(waveNodeGenerator.timerIsPaused) then seeded
          else Evict(seeded + [Successor(templateWaveNode, Last(seeded), nextDraw)],
                     Threshold(templateWaveNode, waveNodeGenerator.maxNodeCount))
    {
      waveNodeGenerator.Begin(initialDraw, nextDraw);
    }

    /**
     * `updateLiquidLayer(timer:)`: one display tick.  While paused, or
     * while the generator holds no node, nothing changes; otherwise both
     * paths are rebuilt from the nodes as they were before this tick, and
     * then every node has taken one step.
     */
    method UpdateLiquidLayer()
      requires Valid()
      modifies this, waveNodeGenerator
      ensures Valid() && timerIsPaused == old(timerIsPaused)
      ensures waveNodeGenerator.timerIsPaused == old(waveNodeGenerator.timerIsPaused)
      ensures old(timerIsPaused) || old(waveNodeGenerator.existingWaveNodes) == [] ==>
        liquidPath == old(liquidPath) && liquidPath.commands == old(liquidPath.commands) &&
        shadowPath == old(shadowPath) &&
        waveNodeGenerator.existingWaveNodes == old(waveNodeGenerator.existingWaveNodes)
      ensures !old(timerIsPaused) && old(waveNodeGenerator.existingWaveNodes) != [] ==>
        fresh(liquidPath) && shadowPath != null && fresh(shadowPath) &&
        liquidPath.commands == LiquidPathFor(reference, waveSegment, old(waveNodeGenerator.existingWaveNodes)) &&
        shadowPath.commands == ShadowPathFor(reference, waveSegment, templateWaveNode.peak + templateWaveNode.nadir,
                                             old(waveNodeGenerator.existingWaveNodes)) &&
        waveNodeGenerator.existingWaveNodes == AdvanceAll(old(waveNodeGenerator.existingWaveNodes))
    {
      if timerIsPaused {
        return;
      }
      UpdateLiquidPath();
    }

    /**
     * `updateLiquidPath()`: with no node, return at once; otherwise take a
     * copy of the nodes, advance the generator, and draw both paths from
     * the copy, newest node first.
     */
    method UpdateLiquidPath()
      requires Valid()
      modifies this, waveNodeGenerator
      ensures Valid() && timerIsPaused == old(timerIsPaused)
      ensures waveNodeGenerator.timerIsPaused == old(waveNodeGenerator.timerIsPaused)
      ensures old(waveNodeGenerator.existingWaveNodes) == [] ==>
        liquidPath == old(liquidPath) && liquidPath.commands == old(liquidPath.commands) &&
        shadowPath == old(shadowPath) &&
        waveNodeGenerator.existingWaveNodes == old(waveNodeGenerator.existingWaveNodes)
      ensures old(waveNodeGenerator.existingWaveNodes) != [] ==>
        fresh(liquidPath) && shadowPath != null && fresh(shadowPath) &&
        liquidPath.commands == LiquidPathFor(reference, waveSegment, old(waveNodeGenerator.existingWaveNodes)) &&
        shadowPath.commands == ShadowPathFor(reference, waveSegment, templateWaveNode.peak + templateWaveNode.nadir,
                                             old(waveNodeGenerator.existingWaveNodes)) &&
        waveNodeGenerator.existingWaveNodes == AdvanceAll(old(waveNodeGenerator.existingWaveNodes))
    {
      var allWaveNodes := waveNodeGenerator.existingWaveNodes;
      var templateNode := waveNodeGenerator.templateWaveNode;
      var nodeSegment := templateNode.nodeSegment;
      if |allWaveNodes| == 0 {
        return;
      }
      waveNodeGenerator.UpdateNodes();
      var depth := templateNode.peak + templateNode.nadir;
      var liquid, shadow := DrawPaths(reference, nodeSegment, depth, allWaveNodes);
      liquidPath := liquid;
      shadowPath := shadow;
    }
  }
}
