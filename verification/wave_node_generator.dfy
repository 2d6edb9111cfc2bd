/**
 * The wave node generator: an ordered buffer of nodes, oldest first, fed
 * with a turned successor of its newest node on every firing of its timer, pruned of
 * the nodes that have drifted past the visible window, and advanced on
 * every display tick.
 *
 * Timers and notifications are not modelled: a firing is a call to `Next`,
 * and the two lifecycle notifications are the methods `WillResignActive`
 * and `WillEnterForeground`.
 */
module Generator {
  import opened Wave

  /**
   * A node this generator produced: the template's shape, its bounds
   * realised (they always equal the template's peak and nadir), the
   * direction rule satisfied and a non-negative drift; for a symmetric wave
   * also an altitude no more than one step past either bound.
   */
  predicate Realised(t: WaveNode, n: WaveNode)
  {
    SameShape(n, t) && n.currentPeak == t.peak && n.currentNadir == t.nadir &&
    Consistent(n) && n.translation >= 0.0 &&
    (t.peak == t.nadir && n.verticalDuration > 0.0 ==> InBounds(n))
  }

  /** Creation order: the older a node, the further it has drifted. */
  predicate OldestFirst(s: seq<WaveNode>)
  {
    forall i, j :: 0 <= i < j < |s| ==> s[j].translation <= s[i].translation
  }

  predicate NodesValid(t: WaveNode, s: seq<WaveNode>)
  {
    (forall i :: 0 <= i < |s| ==> Realised(t, s[i])) && OldestFirst(s)
  }

  /** The drift beyond which a node is dropped: `nodeSegment * maxNodeCount`. */
  function Threshold(t: WaveNode, maxCount: int): (r: real)
    ensures t.nodeSegment > 0.0 ==> r / t.nodeSegment == maxCount as real
    ensures t.nodeSegment > 0.0 ==> (r >= 0.0 <==> maxCount >= 0)
  {
    t.nodeSegment * maxCount as real
  }

  function Last(s: seq<WaveNode>): WaveNode
    requires s != []
  {
    s[|s| - 1]
  }

  /** `initialNode()`: a copy of the template with its bounds realised, at rest on the baseline. */
  function InitialNodeOf(t: WaveNode, draw: nat): (n: WaveNode)
    requires StyleIsValid(t.updateStyle) && draw < UInt32Limit
    ensures IsTemplate(t) ==>
      Realised(t, n) && n.altitude == 0.0 && n.translation == 0.0 && n.direction == t.direction
  {
    UpdatePeakAndNadir(t, draw)
  }

  /**
   * `nextNode()` for a buffer whose newest node is `last`: a copy of the
   * template with its bounds realised, turned the other way from `last`,
   * whose altitude is minus `last`'s altitude ratio times its own
   * reference distance.
   */
  function Successor(t: WaveNode, last: WaveNode, draw: nat): (n: WaveNode)
    requires StyleIsValid(t.updateStyle) && draw < UInt32Limit && RefDistance(last) != 0.0
    ensures SameShape(n, t) && n.translation == t.translation
    ensures n.currentPeak == t.peak && n.currentNadir == t.nadir
  {
    var node := UpdatePeakAndNadir(t, draw);
    WithAltitudeRatio(node.(direction := Inverse(last.direction)), -AltitudeRatio(last))
  }

  /**
   * A successor of a node produced by the generator really is turned the
   * other way: the direction rule never overrides the inverted direction,
   * because the predecessor's ratio cannot reach the bound it is heading
   * away from.
   */
  lemma SuccessorTurns(t: WaveNode, last: WaveNode, draw: nat)
    requires IsTemplate(t) && Realised(t, last) && draw < UInt32Limit
    ensures RefDistance(last) > 0.0
    ensures var n := Successor(t, last, draw);
      Realised(t, n) && n.translation == 0.0 && n.direction == Inverse(last.direction) &&
      n.altitude == -AltitudeRatio(last) * (if n.direction == Up then t.peak else t.nadir)
    ensures t.peak == t.nadir ==> Successor(t, last, draw).altitude == -last.altitude
  {
    if last.direction == Down {
      SuccessorOfDescending(t, last, draw);
    } else {
      SuccessorOfAscending(t, last, draw);
    }
    if t.peak == t.nadir {
      var n := Successor(t, last, draw);
      assert RefDistance(last) == t.peak;
      assert n.altitude == -(AltitudeRatio(last) * RefDistance(last));
      assert MaxStep(n) == MaxStep(last);
    }
  }

  /** The successor of a node heading down heads up, scaled by the peak. */
  lemma SuccessorOfDescending(t: WaveNode, last: WaveNode, draw: nat)
    requires IsTemplate(t) && Realised(t, last) && draw < UInt32Limit && last.direction == Down
    ensures RefDistance(last) > 0.0
    ensures var n := Successor(t, last, draw);
      n.direction == Up && n.altitude == -AltitudeRatio(last) * t.peak
  {
    RatioAwayFromBound(last);
    var turned := UpdatePeakAndNadir(t, draw).(direction := Up);
    TurnedUpKeepsHeading(turned, -AltitudeRatio(last));
    assert Successor(t, last, draw) == WithAltitudeRatio(turned, -AltitudeRatio(last));
  }

  /** The successor of a node heading up heads down, scaled by the nadir. */
  lemma SuccessorOfAscending(t: WaveNode, last: WaveNode, draw: nat)
    requires IsTemplate(t) && Realised(t, last) && draw < UInt32Limit && last.direction == Up
    ensures RefDistance(last) > 0.0
    ensures var n := Successor(t, last, draw);
      n.direction == Down && n.altitude == -AltitudeRatio(last) * t.nadir
  {
    RatioAwayFromBound(last);
    var turned := UpdatePeakAndNadir(t, draw).(direction := Down);
    TurnedDownKeepsHeading(turned, -AltitudeRatio(last));
    assert Successor(t, last, draw) == WithAltitudeRatio(turned, -AltitudeRatio(last));
  }

  /** A node on the baseline heading up, placed at a ratio below 1, is placed against its peak and keeps heading up. */
  lemma TurnedUpKeepsHeading(m: WaveNode, ratio: real)
    requires m.altitude == 0.0 && m.direction == Up && m.currentPeak > 0.0 && ratio < 1.0
    ensures WithAltitudeRatio(m, ratio).direction == Up
    ensures WithAltitudeRatio(m, ratio).altitude == ratio * m.currentPeak
  {
    assert RefDistance(m) == m.currentPeak;
    MulLess(ratio, 1.0, m.currentPeak);
  }

  /** A node on the baseline heading down, placed at a ratio above -1, is placed against its nadir and keeps heading down. */
  lemma TurnedDownKeepsHeading(m: WaveNode, ratio: real)
    requires m.altitude == 0.0 && m.direction == Down && m.currentNadir > 0.0 && ratio > -1.0
    ensures WithAltitudeRatio(m, ratio).direction == Down
    ensures WithAltitudeRatio(m, ratio).altitude == ratio * m.currentNadir
  {
    assert RefDistance(m) == m.currentNadir;
    MulLess(-1.0, ratio, m.currentNadir);
  }

  /** `r < c` and `d > 0` give `r * d < c * d`. */
  lemma MulLess(r: real, c: real, d: real)
    requires r < c && d > 0.0
    ensures r * d < c * d
  {
  }

  /**
   * A realised node's ratio has not reached the bound it is heading away
   * from: heading down it is above -1, heading up below 1.
   */
  lemma RatioAwayFromBound(n: WaveNode)
    requires n.currentPeak > 0.0 && n.currentNadir > 0.0 && Consistent(n)
    ensures RefDistance(n) > 0.0
    ensures n.direction == Down ==> AltitudeRatio(n) > -1.0
    ensures n.direction == Up ==> AltitudeRatio(n) < 1.0
  {
    var d := RefDistance(n);
    QuotientBounds(n.altitude, d);
  }

  /** Where a quotient by a positive number lies relative to -1, 0 and 1. */
  lemma QuotientBounds(a: real, d: real)
    requires d > 0.0
    ensures a > -d ==> a / d > -1.0
    ensures a < d ==> a / d < 1.0
    ensures a >= 0.0 ==> a / d >= 0.0
    ensures a <= 0.0 ==> a / d <= 0.0
  {
    var q := a / d;
    assert q * d == a;
    if q <= -1.0 { MulAtMost(q, -1.0, d); }
    if q >= 1.0 { MulAtMost(1.0, q, d); }
    if q < 0.0 { MulLess(q, 0.0, d); }
    if q > 0.0 { MulLess(0.0, q, d); }
  }

  /** `r <= c` and `d > 0` give `r * d <= c * d`. */
  lemma MulAtMost(r: real, c: real, d: real)
    requires r <= c && d > 0.0
    ensures r * d <= c * d
  {
  }

  /**
   * Phase continuity, exactly: the successor's altitude ratio is minus its
   * predecessor's if and only if the wave is symmetric, the predecessor is
   * on the baseline, or the predecessor is heading away from the baseline
   * (up above it, down below it).  A predecessor heading towards the
   * baseline of an asymmetric wave has a successor scaled by one bound but
   * measured against the other.
   */
  lemma SuccessorContinuesPhaseExactly(t: WaveNode, last: WaveNode, draw: nat)
    requires IsTemplate(t) && Realised(t, last) && draw < UInt32Limit
    ensures RefDistance(last) > 0.0 && RefDistance(Successor(t, last, draw)) > 0.0
    ensures AltitudeRatio(Successor(t, last, draw)) == -AltitudeRatio(last) <==>
      t.peak == t.nadir || last.altitude == 0.0 || ((last.direction == Down) == (last.altitude < 0.0))
  {
    SuccessorTurns(t, last, draw);
    TurnedRatio(last, Successor(t, last, draw), t.peak, t.nadir);
  }

  /** The ratio of a node turned from `last` and scaled by the bound it now heads towards. */
  lemma TurnedRatio(last: WaveNode, n: WaveNode, peak: real, nadir: real)
    requires peak > 0.0 && nadir > 0.0 && RefDistance(last) > 0.0
    requires n.currentPeak == peak && n.currentNadir == nadir && n.direction == Inverse(last.direction)
    requires n.altitude == -AltitudeRatio(last) * (if n.direction == Up then peak else nadir)
    ensures RefDistance(n) > 0.0
    ensures AltitudeRatio(n) == -AltitudeRatio(last) <==>
      peak == nadir || last.altitude == 0.0 || ((last.direction == Down) == (last.altitude < 0.0))
  {
    var r := AltitudeRatio(last);
    var x := -r;
    var b := if last.direction == Down then peak else nadir;
    assert n.altitude == x * b;
    assert x == 0.0 <==> last.altitude == 0.0 by { SameSign(r, RefDistance(last)); }
    assert (n.altitude > 0.0 <==> last.altitude < 0.0) && (n.altitude < 0.0 <==> last.altitude > 0.0) by {
      SameSign(r, RefDistance(last));
      SameSign(x, b);
    }
    var dn := RefDistance(n);
    assert dn == if last.altitude < 0.0 then peak else if last.altitude > 0.0 then nadir else b;
    var q := AltitudeRatio(n);
    assert q == (x * b) / dn;
    ScaledQuotient(x, b, dn);
    PhaseCases(last.altitude, x, q, b, dn, peak, nadir, last.direction == Down);
  }

  /** The case analysis behind `SuccessorContinuesPhaseExactly`, on the quantities it names. */
  lemma PhaseCases(a: real, x: real, q: real, b: real, dn: real, peak: real, nadir: real, down: bool)
    requires x == 0.0 <==> a == 0.0
    requires b == if down then peak else nadir
    requires dn == if a < 0.0 then peak else if a > 0.0 then nadir else b
    requires q == x <==> x == 0.0 || b == dn
    ensures q == x <==> peak == nadir || a == 0.0 || (down == (a < 0.0))
  {
  }

  /** A positive factor keeps the sign of a product. */
  lemma SameSign(x: real, b: real)
    requires b > 0.0
    ensures x * b > 0.0 <==> x > 0.0
    ensures x * b < 0.0 <==> x < 0.0
  {
    if x > 0.0 { MulLess(0.0, x, b); }
    if x < 0.0 { MulLess(x, 0.0, b); }
  }

  /** Scaling by `b` and dividing by `d` returns `x` exactly when `x` is 0 or `b` is `d`. */
  lemma ScaledQuotient(x: real, b: real, d: real)
    requires b > 0.0 && d > 0.0
    ensures (x * b) / d == x <==> x == 0.0 || b == d
  {
    var q := (x * b) / d;
    assert q * d == x * b;
    if b == d {
      MulCancel(q, x, d);
    }
    if q == x && x > 0.0 {
      MulCancel(b, d, x);
    }
    if q == x && x < 0.0 {
      assert b * -x == d * -x;
      MulCancel(b, d, -x);
    }
  }

  /** Multiplication by a positive number is injective. */
  lemma MulCancel(a: real, b: real, d: real)
    requires d > 0.0 && a * d == b * d
    ensures a == b
  {
    if a < b { MulLess(a, b, d); }
    if b < a { MulLess(b, a, d); }
  }

  /**
   * For an asymmetric wave (peak 20, nadir 15) the ratio is not carried
   * over when a node rising below the baseline is followed: the successor
   * lands above the baseline, scaled by the nadir but measured against the
   * peak.
   */
  lemma AsymmetricSuccessorBreaksPhase()
    ensures var t := WaveNode(20.0, 15.0, 300.0, Up, 0.0, 0.0, Const, 6.0, 2.0, 0.0, 0.0);
      var last := t.(altitude := -7.5, currentPeak := 20.0, currentNadir := 15.0);
      IsTemplate(t) && Realised(t, last) &&
      AltitudeRatio(last) == -0.5 && AltitudeRatio(Successor(t, last, 0)) == 0.375
  {
    var t := WaveNode(20.0, 15.0, 300.0, Up, 0.0, 0.0, Const, 6.0, 2.0, 0.0, 0.0);
    var last := t.(altitude := -7.5, currentPeak := 20.0, currentNadir := 15.0);
    assert RefDistance(last) == 15.0;
    assert AltitudeRatio(last) == -0.5;
    SuccessorOfAscending(t, last, 0);
    var n := Successor(t, last, 0);
    assert n.altitude == 7.5;
    assert RefDistance(n) == 20.0;
  }

  /**
   * The bound is not carried over to asymmetric waves (peak 20, nadir 15):
   * the successor of a node that has just reached its peak of 20 lands at
   * -20, five below the nadir and so more than one step (at most 1/6 here)
   * past it.
   */
  lemma AsymmetricSuccessorEscapesBounds()
    ensures var t := WaveNode(20.0, 15.0, 300.0, Up, 0.0, 0.0, Const, 6.0, 2.0, 0.0, 0.0);
      var last := t.(altitude := 20.0, direction := Down, currentPeak := 20.0, currentNadir := 15.0);
      var n := Successor(t, last, 0);
      IsTemplate(t) && Realised(t, last) && InBounds(last) && MaxStep(last) == 1.0 / 6.0 &&
      Realised(t, n) && n.altitude == -20.0 && !InBounds(n)
  {
    var t := WaveNode(20.0, 15.0, 300.0, Up, 0.0, 0.0, Const, 6.0, 2.0, 0.0, 0.0);
    var last := t.(altitude := 20.0, direction := Down, currentPeak := 20.0, currentNadir := 15.0);
    assert RefDistance(last) == 20.0;
    assert AltitudeRatio(last) == 1.0;
    SuccessorOfDescending(t, last, 0);
    SuccessorTurns(t, last, 0);
    var n := Successor(t, last, 0);
    assert n.altitude == -20.0;
    assert MaxStep(n) == 1.0 / 6.0;
  }

  /** `filter`: the nodes whose drift is at most `threshold`, in their original order. */
  function Evict(s: seq<WaveNode>, threshold: real): (r: seq<WaveNode>)
    ensures |r| <= |s|
    ensures forall x :: x in r <==> x in s && x.translation <= threshold
    decreases |s|
  {
    if s == [] then []
    else if s[0].translation <= threshold then [s[0]] + Evict(s[1..], threshold)
    else Evict(s[1..], threshold)
  }

  /** Filtering distributes over appending one node: order is kept and the new node is judged alone. */
  lemma {:induction false} EvictAppend(s: seq<WaveNode>, x: WaveNode, threshold: real)
    ensures Evict(s + [x], threshold) == Evict(s, threshold) + (if x.translation <= threshold then [x] else [])
    decreases |s|
  {
    if s == [] {
      assert [] + [x] == [x];
    } else {
      assert (s + [x])[0] == s[0];
      assert (s + [x])[1..] == s[1..] + [x];
      EvictAppend(s[1..], x, threshold);
    }
  }

  /** On a buffer in creation order, eviction drops exactly some of the oldest nodes. */
  lemma {:induction false} EvictOldestFirst(s: seq<WaveNode>, threshold: real)
    requires OldestFirst(s)
    ensures Evict(s, threshold) == s[|s| - |Evict(s, threshold)|..]
    decreases |s|
  {
    if s != [] {
      if s[0].translation <= threshold {
        assert forall i :: 0 <= i < |s| ==> s[i].translation <= s[0].translation;
        EvictKeepsAll(s, threshold);
      } else {
        var tail := s[1..];
        assert forall i, j :: 0 <= i < j < |tail| ==> tail[i] == s[i + 1] && tail[j] == s[j + 1];
        EvictOldestFirst(tail, threshold);
        var r := Evict(tail, threshold);
        assert Evict(s, threshold) == r;
        assert tail[|tail| - |r|..] == s[|s| - |r|..];
      }
    }
  }

  /** Eviction keeps a buffer whose nodes are all within the threshold unchanged. */
  lemma {:induction false} EvictKeepsAll(s: seq<WaveNode>, threshold: real)
    requires forall i :: 0 <= i < |s| ==> s[i].translation <= threshold
    ensures Evict(s, threshold) == s
    decreases |s|
  {
    if s != [] {
      EvictKeepsAll(s[1..], threshold);
    }
  }

  lemma EvictKeepsNodesValid(t: WaveNode, s: seq<WaveNode>, threshold: real)
    requires NodesValid(t, s)
    ensures NodesValid(t, Evict(s, threshold))
  {
    var r := Evict(s, threshold);
    EvictOldestFirst(s, threshold);
    forall i | 0 <= i < |r|
      ensures Realised(t, r[i])
    {
      assert r[i] in s;
    }
  }

  /** `updateNodes`' map: every node takes one full step, in place. */
  function AdvanceAll(s: seq<WaveNode>): (r: seq<WaveNode>)
    requires forall i :: 0 <= i < |s| ==> s[i].verticalDuration > 0.0 && s[i].horizontalDuration > 0.0
    ensures |r| == |s|
    ensures forall i :: 0 <= i < |s| ==>
      SameShape(r[i], s[i]) && r[i].translation == s[i].translation + HorizontalStep(s[i])
    ensures forall i :: 0 <= i < |s| ==>
      r[i].altitude == UpdateAltitude(s[i]).altitude && r[i].direction == UpdateAltitude(s[i]).direction &&
      r[i].currentPeak == s[i].currentPeak && r[i].currentNadir == s[i].currentNadir
  {
    seq(|s|, i requires 0 <= i < |s| => Update(s[i]))
  }

  /** `updateNodesHorizontal`' map: every node drifts one step; altitudes and directions are untouched. */
  function AdvanceAllHorizontally(s: seq<WaveNode>): (r: seq<WaveNode>)
    requires forall i :: 0 <= i < |s| ==> s[i].horizontalDuration > 0.0
    ensures |r| == |s|
    ensures forall i :: 0 <= i < |s| ==> r[i] == s[i].(translation := r[i].translation)
    ensures forall i :: 0 <= i < |s| ==> r[i].translation == s[i].translation + HorizontalStep(s[i])
    ensures forall i :: 0 <= i < |s| && s[i].nodeSegment > 0.0 ==> r[i].translation > s[i].translation
  {
    seq(|s|, i requires 0 <= i < |s| => UpdateTranslation(s[i]))
  }

  /**
   * Advancing all nodes keeps their count, drifts each by the same
   * horizontal step, and keeps them realised and in creation order.
   */
  lemma AdvanceAllKeepsNodesValid(t: WaveNode, s: seq<WaveNode>)
    requires IsTemplate(t) && NodesValid(t, s)
    ensures |AdvanceAll(s)| == |s|
    ensures forall i :: 0 <= i < |s| ==> AdvanceAll(s)[i].translation == s[i].translation + HorizontalStep(t)
    ensures NodesValid(t, AdvanceAll(s))
  {
    var r := AdvanceAll(s);
    var h := HorizontalStep(t);
    forall i | 0 <= i < |s|
      ensures Realised(t, r[i]) && r[i].translation == s[i].translation + h
    {
      UpdateKeepsConsistent(s[i]);
      if t.peak == t.nadir {
        UpdateKeepsBounds(s[i]);
      }
    }
  }

  lemma UpdateKeepsConsistent(n: WaveNode)
    requires n.verticalDuration > 0.0 && n.horizontalDuration > 0.0
    requires n.currentPeak > 0.0 && n.currentNadir > 0.0
    ensures Consistent(Update(n))
  {
  }

  lemma AdvanceAllHorizontallyKeepsNodesValid(t: WaveNode, s: seq<WaveNode>)
    requires IsTemplate(t) && NodesValid(t, s)
    ensures NodesValid(t, AdvanceAllHorizontally(s))
  {
    var r := AdvanceAllHorizontally(s);
    var h := HorizontalStep(t);
    forall i | 0 <= i < |s|
      ensures Realised(t, r[i]) && r[i].translation == s[i].translation + h
    {
    }
  }

  /**
   * What `begin()` leaves in an empty, running generator with a
   * non-negative node count: two nodes, both on the baseline and undrifted,
   * the second heading the other way from the first.
   */
  lemma BeginFromEmpty(t: WaveNode, maxCount: int, initialDraw: nat, nextDraw: nat)
    requires IsTemplate(t) && maxCount >= 0 && initialDraw < UInt32Limit && nextDraw < UInt32Limit
    ensures var first := InitialNodeOf(t, initialDraw);
      var nodes := Evict([first] + [Successor(t, first, nextDraw)], Threshold(t, maxCount));
      |nodes| == 2 && nodes[0] == first &&
      nodes[0].altitude == 0.0 && nodes[0].translation == 0.0 && nodes[0].direction == t.direction &&
      nodes[1].altitude == 0.0 && nodes[1].translation == 0.0 && nodes[1].direction == Inverse(t.direction)
  {
    var first := InitialNodeOf(t, initialDraw);
    SuccessorTurns(t, first, nextDraw);
    var second := Successor(t, first, nextDraw);
    assert AltitudeRatio(first) == 0.0;
    var threshold := Threshold(t, maxCount);
    assert threshold >= 0.0 by { MulAtMost(0.0, maxCount as real, t.nodeSegment); }
    EvictKeepsAll([first] + [second], threshold);
  }

  class WaveNodeGenerator {
    const templateWaveNode: WaveNode
    const maxNodeCount: int
    const nodeTimeInterval: real
    var existingWaveNodes: seq<WaveNode>
    var timerIsPaused: bool

    ghost predicate Valid()
      reads this
    {
      IsTemplate(templateWaveNode) && NodesValid(templateWaveNode, existingWaveNodes)
    }

    /** `init(waveNode:maxCount:)`: an empty, running generator; valid when given a template node. */
    constructor (waveNode: WaveNode, maxCount: int)
      ensures templateWaveNode == waveNode && maxNodeCount == maxCount
      ensures nodeTimeInterval == waveNode.horizontalDuration
      ensures existingWaveNodes == [] && !timerIsPaused
      ensures IsTemplate(waveNode) ==> Valid()
    {
      templateWaveNode := waveNode;
      maxNodeCount := maxCount;
      nodeTimeInterval := waveNode.horizontalDuration;
      existingWaveNodes := [];
      timerIsPaused := false;
    }

    method WillResignActive()
      modifies this
      ensures timerIsPaused && existingWaveNodes == old(existingWaveNodes)
    {
      timerIsPaused := true;
    }

    method WillEnterForeground()
      modifies this
      ensures !timerIsPaused && existingWaveNodes == old(existingWaveNodes)
    {
      timerIsPaused := false;
    }

    /** `initialNode()`: the first node, realised, at rest on the baseline and heading the template's way. */
    method InitialNode(draw: nat) returns (node: WaveNode)
      requires Valid() && draw < UInt32Limit
      ensures node == InitialNodeOf(templateWaveNode, draw)
      ensures Realised(templateWaveNode, node) && node.altitude == 0.0 && node.translation == 0.0
      ensures node.direction == templateWaveNode.direction
    {
      node := UpdatePeakAndNadir(templateWaveNode, draw);
    }

    /** `nextNode()`: needs a newest node; its successor starts undrifted and heads the other way. */
    method NextNode(draw: nat) returns (node: WaveNode)
      requires Valid() && draw < UInt32Limit && existingWaveNodes != []
      ensures RefDistance(Last(existingWaveNodes)) > 0.0
      ensures node == Successor(templateWaveNode, Last(existingWaveNodes), draw)
      ensures Realised(templateWaveNode, node) && node.translation == 0.0
      ensures node.direction == Inverse(Last(existingWaveNodes).direction)
    {
      var lastNode := existingWaveNodes[|existingWaveNodes| - 1];
      SuccessorTurns(templateWaveNode, lastNode, draw);
      node := UpdatePeakAndNadir(templateWaveNode, draw);
      node := node.(direction := Inverse(lastNode.direction));
      node := WithAltitudeRatio(node, -AltitudeRatio(lastNode));
    }

    /**
     * `next(timer:)`: nothing while paused; otherwise append the successor
     * of the newest node and keep, in order, the nodes within the threshold.
     */
    method Next(draw: nat)
      requires Valid() && draw < UInt32Limit
      requires timerIsPaused || existingWaveNodes != []
      modifies this
      ensures Valid() && timerIsPaused == old(timerIsPaused)
      ensures old(timerIsPaused) ==> existingWaveNodes == old(existingWaveNodes)
      ensures !old(timerIsPaused) ==>
        existingWaveNodes ==
          Evict(old(existingWaveNodes) + [Successor(templateWaveNode, Last(old(existingWaveNodes)), draw)],
                Threshold(templateWaveNode, maxNodeCount))
      ensures !old(timerIsPaused) ==>
        forall i :: 0 <= i < |existingWaveNodes| ==>
          existingWaveNodes[i].translation <= Threshold(templateWaveNode, maxNodeCount)
      ensures !old(timerIsPaused) && maxNodeCount >= 0 ==>
        existingWaveNodes != [] &&
        Last(existingWaveNodes) == Successor(templateWaveNode, Last(old(existingWaveNodes)), draw)
    {
      if timerIsPaused {
        return;
      }
      var node := NextNode(draw);
      var appended := existingWaveNodes + [node];
      var threshold := Threshold(templateWaveNode, maxNodeCount);
      assert NodesValid(templateWaveNode, appended);
      EvictKeepsNodesValid(templateWaveNode, appended, threshold);
      EvictAppend(existingWaveNodes, node, threshold);
      existingWaveNodes := Evict(appended, threshold);
    }

    /**
     * `begin()`: append the initial node (the buffer is not cleared), then
     * fire the timer once at once.
     */
    method Begin(initialDraw: nat, nextDraw: nat)
      requires Valid() && initialDraw < UInt32Limit && nextDraw < UInt32Limit
      modifies this
      ensures Valid() && timerIsPaused == old(timerIsPaused)
      ensures var seeded := old(existingWaveNodes) + [InitialNodeOf(templateWaveNode, initialDraw)];
        existingWaveNodes ==
          if old(timerIsPaused) then seeded
          else Evict(seeded + [Successor(templateWaveNode, Last(seeded), nextDraw)],
                     Threshold(templateWaveNode, maxNodeCount))
    {
      var node := InitialNode(initialDraw);
      existingWaveNodes := existingWaveNodes + [node];
      Next(nextDraw);
    }

    /** `updateNodesHorizontal()`: every node drifts one step. */
    method UpdateNodesHorizontal()
      requires Valid()
      modifies this
      ensures Valid() && timerIsPaused == old(timerIsPaused)
      ensures existingWaveNodes == AdvanceAllHorizontally(old(existingWaveNodes))
    {
      AdvanceAllHorizontallyKeepsNodesValid(templateWaveNode, existingWaveNodes);
      existingWaveNodes := AdvanceAllHorizontally(existingWaveNodes);
    }

    /** `updateNodes()`: every node takes one full step; count and order are kept. */
    method UpdateNodes()
      requires Valid()
      modifies this
      ensures Valid() && timerIsPaused == old(timerIsPaused)
      ensures existingWaveNodes == AdvanceAll(old(existingWaveNodes))
    {
      AdvanceAllKeepsNodesValid(templateWaveNode, existingWaveNodes);
      existingWaveNodes := AdvanceAll(existingWaveNodes);
    }
  }
}
