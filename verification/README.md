# OMLiquidView in Dafny

OMLiquidView is an iOS view that draws a liquid surface. The surface is a
wave made of a small buffer of nodes.

- **Wave nodes.** Each node bobs between its peak and its nadir. It moves
  fast near the baseline and slows near either bound, and it drifts
  steadily to the right.
- **The generator.** A node generator keeps the buffer oldest first. It is
  driven by a timer. On each firing it appends a new node that heads the
  other way from the newest node, placed at minus the newest node's
  altitude ratio times the bound it now heads towards. It then drops every
  node that has drifted past the visible window.
- **The view.** On every display tick the view asks the generator to step
  every node. It then rebuilds two paths from the buffer as it was before
  that step:
  - the liquid boundary: three walls of a fixed reference rectangle, one
    S-shaped curve per node from newest to oldest, and a line back to the
    start;
  - the shadow strip: the same curves, closed off one wave height lower and
    moved down by 4 points.

The model has five modules:

| module | what it holds | form |
|---|---|---|
| `Geometry` (`geometry.dfy`) | points and the library's point operators | pure functions |
| `Bezier` (`bezier.dfy`) | paths as lists of drawing commands; the platform path object as the class `BezierPath`; `om_addCurve` as its `AddCurve` method, specified by `CurveSegment` | pure functions and a class |
| `Wave` (`wave_node.dfy`) | the node value type | a datatype; each `mutating` member is a function from the node before to the node after, which is what a Swift struct mutation is |
| `Generator` (`wave_node_generator.dfy`) | the class `WaveNodeGenerator` with its buffer as a `seq` field | a class; the `filter` and `map` it applies are the functions `Evict`, `AdvanceAll` and `AdvanceAllHorizontally` |
| `LiquidView` (`liquid_view.dfy`) | the reference geometry and the class `OMLiquidView` | functions and a class; `updateLiquidPath()` draws into fresh `BezierPath` objects, and its `forEach` is the loop in `DrawWave` |

Modelling choices:

- Every random draw (`arc4random()`) is an explicit parameter below 2^32.
- All coordinates and durations are exact reals.
- `Wrappers` (`wrappers.dfy`) holds the `Option` type.

Facts about the code that the model makes precise:

- **Overshoot.** A step can carry the altitude past either bound by up to
  one step before the node turns; a node at 9.9 rising towards a peak of 10
  with a vertical duration of 1 s steps to 10 + 1/15 and only then turns
  down (`Wave.OneStepOvershoot`). A single node never runs further than
  that: a consistent node within one step of its bounds stays so after any
  number of steps (`Wave.UpdateKeepsBounds`, `Wave.AdvancedKeepsBounds`).
  For a symmetric wave (peak equal to nadir) every node the generator
  holds is within one step of its bounds, because a successor mirrors its
  predecessor's altitude (`Generator.SuccessorTurns`), and `Next`,
  `UpdateNodes` and `UpdateNodesHorizontal` keep that in their invariant.
  For an asymmetric wave a successor can start well outside: with peak 20
  and nadir 15, the successor of a node that has just reached 20 starts
  at -20 (`Generator.AsymmetricSuccessorEscapesBounds`).
- **Time to the peak.** A node with bounds 10 and a vertical duration of
  1 s reaches its peak after 48 ticks: the tiered step moves it 2 in 4
  ticks, 2 more in 8, and the remaining 6 in 36
  (`Wave.RisingNodeProfile`).
- **`begin()`.** It leaves two nodes in an empty, running generator with
  a non-negative `maxCount`, because firing the timer at once runs `next`
  once (`Generator.BeginFromEmpty`). With a negative `maxCount` the
  threshold is negative and `next` evicts both nodes at once.
- **Random direction.** `WaveDirection.random()` always gives `up`, because
  the raw value is the draw modulo 1 (`Wave.RandomDirection`).
- **Peak and nadir scaling.** `updatePeakAndNadir()` always scales peak and
  nadir by exactly 1. The reason is that the quotient by 100 is an unsigned
  integer division of a value below 100 (`Wave.PeakAndNadirDelta`). The
  computation traps for a minimum outside 0..99, so a `random(min)` style
  with such a minimum is excluded by `Wave.StyleIsValid`.
- **Phase continuity.** The successor's altitude ratio is minus its
  predecessor's exactly when the wave is symmetric, the predecessor is on
  the baseline, or the predecessor is heading away from the baseline (up
  above it, down below it) (`Generator.SuccessorContinuesPhaseExactly`).
  A predecessor heading towards the baseline of an asymmetric wave has a
  successor on the other side, scaled by one bound and measured against
  the other: with a peak of 20 and a nadir of 15, a node rising at ratio
  -0.5 is followed by one at ratio 0.375
  (`Generator.AsymmetricSuccessorBreaksPhase`).
- **The `threshold:` label.** The view builds its generator with a
  `threshold:` argument label that the generator's initialiser does not
  have. The view therefore takes the generator's `maxCount` as a
  constructor parameter.
- **The shadow rectangle.** The initial shadow rectangle is placed at
  y = `refX`, as written.

## Model

| member | source | states |
|---|---|---|
| Geometry.Neg | OMLiquidView/Classes/CGPoint+OMExtension.swift:11-13 | a point plus its negation is the origin |
| Geometry.Add | OMLiquidView/Classes/CGPoint+OMExtension.swift:15-17 | the componentwise sum, from which subtracting the second point again gives back the first |
| Geometry.NegInvolutive | OMLiquidView/Classes/CGPoint+OMExtension.swift:11-13 | negating twice gives the point back |
| Geometry.AddCommutative | OMLiquidView/Classes/CGPoint+OMExtension.swift:15-17 | point addition is commutative |
| Geometry.AddAssociative | OMLiquidView/Classes/CGPoint+OMExtension.swift:15-17 | point addition is associative |
| Geometry.Sub | OMLiquidView/Classes/CGPoint+OMExtension.swift:19-21 | subtraction written as `a + (-b)` is componentwise subtraction |
| Geometry.SubCancels | OMLiquidView/Classes/CGPoint+OMExtension.swift:19-21 | adding back what was subtracted restores the point; a point minus itself is the origin |
| Bezier.CurveSegment | OMLiquidView/Classes/UIBezierPath+OMExtension.swift:12-17 | the segment is a cubic curve that ends at the requested end point |
| Bezier.CurveSegmentShape | OMLiquidView/Classes/UIBezierPath+OMExtension.swift:14-15 | the curve is horizontal at both ends; both control points lie on the vertical through the midpoint of the ends, between the ends |
| Bezier.BezierPath.AddCurve | OMLiquidView/Classes/UIBezierPath+OMExtension.swift:12-17 | `om_addCurve` appends exactly one segment, from the path's current point to `end`, and `end` becomes the current point |
| Bezier.CurveChain | OMLiquidView/Classes/OMLiquidView.swift:210-221 | the repeated `om_addCurve` calls of the drawing loop give one curve command per point |
| Bezier.CurveChainAt | OMLiquidView/Classes/UIBezierPath+OMExtension.swift:12-17 | in a run of `om_addCurve` calls, curve k runs from the point drawn before it (or the starting point) to the k-th point |
| Bezier.CurveSegmentTranslated | OMLiquidView/Classes/OMLiquidView.swift:226 | translating a curve segment gives the segment between the translated ends |
| Bezier.CurveChainTranslated | OMLiquidView/Classes/OMLiquidView.swift:226 | translating a chain of curves gives the chain through the translated points |
| Bezier.RectCommands | OMLiquidView/Classes/OMLiquidView.swift:123 | a rectangle path is one closed subpath of five commands, starting at its origin corner |
| Bezier.BezierPath.constructor | OMLiquidView/Classes/OMLiquidView.swift:200 | a new path has no commands |
| Bezier.BezierPath.WithRect | OMLiquidView/Classes/OMLiquidView.swift:123 | a rectangle path holds exactly the rectangle's commands |
| Bezier.BezierPath.Move | OMLiquidView/Classes/OMLiquidView.swift:201 | a move appends one MoveTo and makes its target the current point |
| Bezier.BezierPath.AddLine | OMLiquidView/Classes/OMLiquidView.swift:202-204 | a line appends one LineTo and makes its target the current point |
| Bezier.BezierPath.ClosePath | OMLiquidView/Classes/OMLiquidView.swift:225 | closing appends one Close |
| Bezier.BezierPath.ApplyTranslation | OMLiquidView/Classes/OMLiquidView.swift:226 | a translation moves every command by the offset |
| Wave.Inverse | OMLiquidView/Classes/WaveNodeGenerator.swift:33-37 | the inverse direction differs from the direction |
| Wave.InverseInvolutive | OMLiquidView/Classes/WaveNodeGenerator.swift:33-37 | inverting twice gives the direction back |
| Wave.RandomDirection | OMLiquidView/Classes/WaveNodeGenerator.swift:29-31 | for every 32-bit draw the "random" direction is up |
| Wave.DefaultConfiguration | OMLiquidView/Classes/WaveNodeGenerator.swift:40-51 | the default options are valid, and their initial direction is up |
| Wave.FromConfiguration | OMLiquidView/Classes/WaveNodeGenerator.swift:123-138 | whatever the configuration, the node is at rest on the baseline, undrifted, with bounds not yet realised; peak and nadir are the configured ones (equal for `equal(value)`); direction, segment, update style and both durations are copied; the node is well formed exactly when the configuration is valid |
| Wave.SetAltitude | OMLiquidView/Classes/WaveNodeGenerator.swift:57-67 | assigning the altitude changes only altitude and direction: at or below minus the nadir the node heads up, else at or above the peak it heads down, else the direction is kept; with positive bounds the direction rule then holds |
| Wave.RefDistance | OMLiquidView/Classes/WaveNodeGenerator.swift:78-99 | the reference distance is the peak above the baseline, the nadir below it, and on the baseline the bound the node heads to; it is positive for positive bounds |
| Wave.VerticalStep | OMLiquidView/Classes/WaveNodeGenerator.swift:100-117 | for a positive reference distance D and duration T the step is positive and between D/(60T) and D/(20T) |
| Wave.StepTiersOrdered | OMLiquidView/Classes/WaveNodeGenerator.swift:109-116 | the three step sizes are positive and strictly decreasing |
| Wave.StepTiers | OMLiquidView/Classes/WaveNodeGenerator.swift:100-117 | which of the three step sizes applies in each band of the altitude (within 20%, within 40%, beyond) |
| Wave.Deceleration | OMLiquidView/Classes/WaveNodeGenerator.swift:100-117 | a node near the baseline steps strictly further than one near its bound |
| Wave.HorizontalStep | OMLiquidView/Classes/WaveNodeGenerator.swift:119-121 | at 60 ticks per second a node drifts exactly one segment per horizontal duration |
| Wave.AltitudeRatio | OMLiquidView/Classes/WaveNodeGenerator.swift:69-71 | the ratio times the reference distance is the altitude |
| Wave.WithAltitudeRatio | OMLiquidView/Classes/WaveNodeGenerator.swift:140-142 | the new altitude is the ratio times the reference distance in effect before; only altitude and direction change; strictly between minus the nadir and the peak the direction is kept; the direction rule holds afterwards |
| Wave.PeakAndNadirDelta | OMLiquidView/Classes/WaveNodeGenerator.swift:145-151 | the scaling factor exists exactly when the style does not trap, and it is then 1 |
| Wave.UpdatePeakAndNadir | OMLiquidView/Classes/WaveNodeGenerator.swift:144-154 | realising the bounds sets them to the configured peak and nadir and changes nothing else |
| Wave.UpdateAltitudeWith | OMLiquidView/Classes/WaveNodeGenerator.swift:156-164 | the altitude moves by exactly one vertical step, up for `up` and down for `down` (strictly, for a positive reference distance); only altitude and direction change; strictly between minus the nadir and the peak the direction is kept; the direction rule holds afterwards |
| Wave.UpdateAltitude | OMLiquidView/Classes/WaveNodeGenerator.swift:166-168 | the altitude moves by exactly one vertical step in the node's own direction, so it rises exactly when the node heads up; only altitude and direction change; strictly between minus the nadir and the peak the direction is kept; the direction rule holds afterwards |
| Wave.UpdateTranslation | OMLiquidView/Classes/WaveNodeGenerator.swift:170-172 | only the drift changes, by exactly one horizontal step |
| Wave.Update | OMLiquidView/Classes/WaveNodeGenerator.swift:174-177 | a full step keeps the node's shape and bounds, takes the vertical step and adds one horizontal step to the drift |
| Wave.StepAtMostMax | OMLiquidView/Classes/WaveNodeGenerator.swift:100-117 | no step exceeds the larger bound over 20T |
| Wave.UpdateKeepsBounds | OMLiquidView/Classes/WaveNodeGenerator.swift:156-177 | a consistent node within one step of its bounds stays consistent and within one step of its bounds |
| Wave.Advanced | OMLiquidView/Classes/WaveNodeGenerator.swift:174-177 | after k steps the shape and bounds are kept and the drift has grown by k horizontal steps |
| Wave.AdvancedKeepsBounds | OMLiquidView/Classes/WaveNodeGenerator.swift:174-177 | for any number of steps the node stays consistent and within one step of its bounds |
| Wave.OneStepOvershoot | OMLiquidView/Classes/WaveNodeGenerator.swift:156-168 | a node at 9.9 rising towards a peak of 10 (T = 1) steps to 10 + 1/15, past its peak, and only then turns down, still within one step of its bounds |
| Wave.RisingStep | OMLiquidView/Classes/WaveNodeGenerator.swift:100-117 | below a peak of 10 with T = 1, a rising node steps 0.5 below 2, 0.25 below 4, 1/6 beyond, and turns down when it reaches 10 |
| Wave.RisingProfileStep | OMLiquidView/Classes/WaveNodeGenerator.swift:100-117 | the closed-form profile grows by that step and stays below 10 until tick 48, where it is exactly 10 |
| Wave.RisingTick | OMLiquidView/Classes/WaveNodeGenerator.swift:174-177 | one step takes the node from the profile at k - 1 to the profile at k, turning it down at tick 48 |
| Wave.RisingNodeProfile | OMLiquidView/Classes/WaveNodeGenerator.swift:174-177 | from the baseline, the altitude after k ≤ 48 steps is the closed-form profile, heading up until tick 48 and down at it |
| Generator.InitialNodeOf | OMLiquidView/Classes/WaveNodeGenerator.swift:206-210 | the first node is realised, on the baseline, undrifted and heads the template's way |
| Generator.Successor | OMLiquidView/Classes/WaveNodeGenerator.swift:212-219 | the next node has the template's shape and drift, and its bounds are realised |
| Generator.SuccessorTurns | OMLiquidView/Classes/WaveNodeGenerator.swift:212-219 | the next node is realised (for a symmetric wave: within one step of its bounds) and undrifted, really heads the other way from the newest node, and sits at minus its ratio times its own bound; for a symmetric wave that is exactly minus the newest node's altitude |
| Generator.SuccessorOfDescending | OMLiquidView/Classes/WaveNodeGenerator.swift:212-219 | after a node heading down, the next heads up, scaled by the peak |
| Generator.SuccessorOfAscending | OMLiquidView/Classes/WaveNodeGenerator.swift:212-219 | after a node heading up, the next heads down, scaled by the nadir |
| Generator.RatioAwayFromBound | OMLiquidView/Classes/WaveNodeGenerator.swift:57-71 | a consistent node heading down has ratio above -1, and one heading up has ratio below 1 |
| Generator.TurnedUpKeepsHeading | OMLiquidView/Classes/WaveNodeGenerator.swift:140-142 | a node on the baseline heading up, placed at a ratio below 1, lands at that ratio of its peak and keeps heading up |
| Generator.TurnedDownKeepsHeading | OMLiquidView/Classes/WaveNodeGenerator.swift:140-142 | a node on the baseline heading down, placed at a ratio above -1, lands at that ratio of its nadir and keeps heading down |
| Generator.SuccessorContinuesPhaseExactly | OMLiquidView/Classes/WaveNodeGenerator.swift:212-219 | the next node's ratio is minus the newest node's if and only if peak equals nadir, the newest node is on the baseline, or it heads away from the baseline |
| Generator.AsymmetricSuccessorBreaksPhase | OMLiquidView/Classes/WaveNodeGenerator.swift:212-219 | with peak 20 and nadir 15, a node at ratio -0.5 is followed by one at ratio 0.375 |
| Generator.AsymmetricSuccessorEscapesBounds | OMLiquidView/Classes/WaveNodeGenerator.swift:212-219 | with peak 20 and nadir 15, the successor of a realised node at 20 heading down starts at -20, more than one step below the nadir |
| Generator.Evict | OMLiquidView/Classes/WaveNodeGenerator.swift:231-233 | the kept nodes are exactly those within the threshold, and there are no more of them than before |
| Generator.EvictAppend | OMLiquidView/Classes/WaveNodeGenerator.swift:230-233 | filtering after an append filters the old buffer, then judges the new node alone |
| Generator.EvictOldestFirst | OMLiquidView/Classes/WaveNodeGenerator.swift:231-233 | on a buffer in creation order, eviction keeps a suffix, so it drops only the oldest nodes |
| Generator.EvictKeepsAll | OMLiquidView/Classes/WaveNodeGenerator.swift:231-233 | a buffer entirely within the threshold is kept unchanged |
| Generator.EvictKeepsNodesValid | OMLiquidView/Classes/WaveNodeGenerator.swift:231-233 | eviction keeps the buffer realised and in creation order |
| Generator.Threshold | OMLiquidView/Classes/WaveNodeGenerator.swift:232 | the eviction threshold is `maxCount` segments: non-negative exactly when the count is |
| Generator.AdvanceAll | OMLiquidView/Classes/WaveNodeGenerator.swift:246-250 | stepping every node keeps the count, each node's shape and bounds, gives each node the altitude and direction of its vertical step, and drifts each node by its horizontal step |
| Generator.AdvanceAllKeepsNodesValid | OMLiquidView/Classes/WaveNodeGenerator.swift:245-251 | stepping all nodes keeps their count, drifts each by the same step, and keeps them realised and in creation order |
| Generator.UpdateKeepsConsistent | OMLiquidView/Classes/WaveNodeGenerator.swift:174-177 | with positive bounds a full step leaves the direction rule satisfied |
| Generator.AdvanceAllHorizontally | OMLiquidView/Classes/WaveNodeGenerator.swift:237-243 | drifting all nodes keeps their count, changes only each node's drift, and grows it by exactly its horizontal step |
| Generator.AdvanceAllHorizontallyKeepsNodesValid | OMLiquidView/Classes/WaveNodeGenerator.swift:237-243 | drifting all nodes keeps them realised and in creation order |
| Generator.BeginFromEmpty | OMLiquidView/Classes/WaveNodeGenerator.swift:221-225 | begin on an empty, running generator with non-negative count leaves two nodes on the baseline, undrifted, heading opposite ways |
| Generator.WaveNodeGenerator.constructor | OMLiquidView/Classes/WaveNodeGenerator.swift:190-196 | a new generator is empty and running, with the template, count and interval given; it is valid for a template node |
| Generator.WaveNodeGenerator.WillResignActive | OMLiquidView/Classes/WaveNodeGenerator.swift:198-200 | pauses without touching the buffer |
| Generator.WaveNodeGenerator.WillEnterForeground | OMLiquidView/Classes/WaveNodeGenerator.swift:202-204 | resumes without touching the buffer |
| Generator.WaveNodeGenerator.InitialNode | OMLiquidView/Classes/WaveNodeGenerator.swift:206-210 | returns the realised template at rest, heading the template's way |
| Generator.WaveNodeGenerator.NextNode | OMLiquidView/Classes/WaveNodeGenerator.swift:212-219 | returns the successor of the newest node: realised, undrifted and heading the other way |
| Generator.WaveNodeGenerator.Next | OMLiquidView/Classes/WaveNodeGenerator.swift:227-235 | while paused nothing changes; otherwise the buffer becomes the filtered buffer with the successor appended; every kept node is within the threshold; with a non-negative count the successor is the newest; the buffer stays valid |
| Generator.WaveNodeGenerator.Begin | OMLiquidView/Classes/WaveNodeGenerator.swift:221-225 | appends the initial node and then runs one firing of `next` |
| Generator.WaveNodeGenerator.UpdateNodesHorizontal | OMLiquidView/Classes/WaveNodeGenerator.swift:237-243 | every node drifts one step and the buffer stays valid |
| Generator.WaveNodeGenerator.UpdateNodes | OMLiquidView/Classes/WaveNodeGenerator.swift:245-251 | every node takes one full step and the buffer stays valid |
| LiquidView.CornersOfFrame | OMLiquidView/Classes/OMLiquidView.swift:64-96 | the four corners in frame terms: right edge at width + segment, left edge at -segment, top at peak + nadir, bottom at the frame's height |
| LiquidView.ReferenceOf | OMLiquidView/Classes/OMLiquidView.swift:64-75 | the reference rectangle runs from one segment before the frame to one segment past it, and from peak + nadir down to the frame's height |
| LiquidView.InitialPoint | OMLiquidView/Classes/OMLiquidView.swift:79-81 | the start is on the top edge, one width right of the left edge |
| LiquidView.BottomRight | OMLiquidView/Classes/OMLiquidView.swift:84-86 | directly below the start, one height down |
| LiquidView.BottomLeft | OMLiquidView/Classes/OMLiquidView.swift:89-91 | level with the bottom right corner, one width to its left |
| LiquidView.TopLeft | OMLiquidView/Classes/OMLiquidView.swift:94-96 | directly above the bottom left corner, one height up, level with the start |
| LiquidView.NodeEndPoint | OMLiquidView/Classes/OMLiquidView.swift:213-218 | the oldest node's curve ends on the baseline, half a segment right of its drift; any other node's ends at its drift and altitude relative to the rectangle's top left corner |
| LiquidView.LiquidPathShape | OMLiquidView/Classes/OMLiquidView.swift:190-229 | the liquid path has n + 5 commands: three walls, a curve from the top left corner to the newest node, curves between consecutive nodes down to the oldest, which is on the baseline, and a line back to the start |
| LiquidView.ShadowFollowsLiquid | OMLiquidView/Classes/OMLiquidView.swift:206-226 | every shadow curve is the matching liquid curve moved down by 4; the shadow is closed by lines one wave height lower |
| LiquidView.CurveChainAppend | OMLiquidView/Classes/OMLiquidView.swift:210-221 | drawing one more curve appends one segment from the chain's last point |
| LiquidView.DrawNode | OMLiquidView/Classes/OMLiquidView.swift:211-220 | one iteration: the node's end point, with the oldest node snapped to the baseline, and one curve to it on the shadow path and on the liquid path |
| LiquidView.DrawWave | OMLiquidView/Classes/OMLiquidView.swift:210-221 | the loop appends the whole curve chain through the nodes, newest first, to both paths, and leaves both at the chain's last point |
| LiquidView.CloseShadow | OMLiquidView/Classes/OMLiquidView.swift:222-226 | the shadow is closed one wave height lower, then every command is moved down by 4 |
| LiquidView.DrawWalls | OMLiquidView/Classes/OMLiquidView.swift:200-204 | a fresh liquid path is drawn along three walls to the top left corner |
| LiquidView.DrawPaths | OMLiquidView/Classes/OMLiquidView.swift:200-228 | the two fresh paths are exactly the liquid boundary and the shadow strip for the nodes |
| LiquidView.OMLiquidView.constructor | OMLiquidView/Classes/OMLiquidView.swift:98-131 | the reference rectangle is computed from frame, segment and template; the liquid path is that rectangle; a shadow path exists exactly when a shadow is configured; a fresh, empty, running generator is created |
| LiquidView.OMLiquidView.WillResignActive | OMLiquidView/Classes/OMLiquidView.swift:110-112 | pauses without touching the paths |
| LiquidView.OMLiquidView.WillEnterForeground | OMLiquidView/Classes/OMLiquidView.swift:114-116 | resumes without touching the paths |
| LiquidView.OMLiquidView.Draw | OMLiquidView/Classes/OMLiquidView.swift:176-181 | starts the generator, whose buffer then holds the initial node and, unless paused, the filtered successor; the generator's pause flag is unchanged |
| LiquidView.OMLiquidView.UpdateLiquidLayer | OMLiquidView/Classes/OMLiquidView.swift:183-188 | both pause flags are unchanged; while paused, or with no node, paths and buffer are unchanged; otherwise both paths are rebuilt from the nodes as they were before the tick, and every node has stepped |
| LiquidView.OMLiquidView.UpdateLiquidPath | OMLiquidView/Classes/OMLiquidView.swift:190-231 | both pause flags are unchanged; with no node paths and buffer are unchanged; otherwise the paths are rebuilt from the snapshot of the nodes, and the generator has stepped every node |

## Left out

- Layers, colours, gradients, shadow appearance and the view's
  `setupLiquidLayer()` layer wiring are not modelled. The only appearance
  fact kept is whether a shadow is configured.
- The display link, the generator's timer and `NotificationCenter` are not
  modelled. A display tick is a call to `UpdateLiquidLayer`, a timer firing
  is a call to `Next`, and a lifecycle notification is a call to
  `WillResignActive` or `WillEnterForeground`.
- `arc4random()` is not modelled. Each draw is a parameter below 2^32.
- Floating point is not modelled. Coordinates and durations are exact reals.
- The internals of `UIBezierPath` and `CGPath` are not modelled. A path is
  the list of commands it records, and only the primitives the library
  calls are modelled.
- The debug `print` in `next(timer:)` is not modelled.
- `Options` (OptionsProtocol.swift) and the demo view controller are not
  part of this model.
- `init?(coder:)` is not modelled. It always traps.
- Generator.WaveNodeGenerator.Next: the force-unwrap of the newest node is
  a precondition (a non-empty buffer unless paused) rather than a modelled
  trap.
- Generator.WaveNodeGenerator.NextNode: the force-unwrap of the newest node
  is a precondition rather than a modelled trap.
- Wave.UpdatePeakAndNadir: a `random(min)` style outside 0..99 traps. This
  is a precondition here; the trap itself is modelled by
  `Wave.PeakAndNadirDelta`.
- The generator's invariant `Valid()` (and through it every generator and
  view method) assumes a positive peak, nadir and node segment in the
  template node; the source never checks them.
- Wave.VerticalStep: a non-positive vertical duration, which divides by
  zero or gives a negative step, is excluded by precondition.
- Wave.HorizontalStep: a non-positive horizontal duration is excluded by
  precondition.
- LiquidView.OMLiquidView.constructor: the generator is given `maxCount`
  directly. The call in the source passes a `threshold:` label that no
  initialiser has.
- Wave.RisingNodeProfile: the scenario is proved for any node with bounds
  10 and a vertical duration of 1 s, not for a run of the timers.
