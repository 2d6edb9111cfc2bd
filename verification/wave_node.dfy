/**
 * One wave node: a sample point of the liquid's surface that oscillates
 * vertically between its peak and its nadir while it drifts to the right.
 *
 * The node is a value type in the library, copied into the generator's
 * buffer; each of its mutating members is therefore modelled as a function
 * from the node before the call to the node after it.  Random draws are
 * explicit parameters (32-bit unsigned values).
 */
module Wave {
  import opened Wrappers

  /** One more than the largest 32-bit unsigned value. */
  const UInt32Limit: nat := 0x1_0000_0000

  datatype Direction = Up | Down

  /** The opposite direction. */
  function Inverse(d: Direction): (r: Direction)
    ensures r != d
  {
    match d
    case Up => Down
    case Down => Up
  }

  lemma InverseInvolutive(d: Direction)
    ensures Inverse(Inverse(d)) == d
  {
  }

  /** The direction with a given raw value (0 is up, 1 is down); none for any other value. */
  function DirectionOfRaw(raw: int): Option<Direction>
  {
    if raw == 0 then Some(Up) else if raw == 1 then Some(Down) else None
  }

  /**
   * `WaveDirection.random()` for the 32-bit draw `draw`: the raw value is
   * the draw modulo 1, so the direction is always up.
   */
  function RandomDirection(draw: nat): (r: Direction)
    requires draw < UInt32Limit
    ensures r == Up
  {
    DirectionOfRaw(draw % 1).value
  }

  datatype PeakAndNadir = Equal(value: real) | NotEqual(peak: real, nadir: real)

  datatype UpdateStyle = Const | Random(min: int)

  /** The options a node is built from. */
  datatype Configuration = Configuration(
    peakAndNadir: PeakAndNadir,
    updateStyle: UpdateStyle,
    nodeSegment: real,
    verticalDuration: real,
    horizontalDuration: real,
    initialDirection: Direction)

  /** An update style that does not trap: `random(min)` only works for 0 <= min <= 99. */
  predicate StyleIsValid(s: UpdateStyle)
  {
    s.Random? ==> 0 <= s.min <= 99
  }

  function PeakOf(p: PeakAndNadir): real
  {
    match p
    case Equal(v) => v
    case NotEqual(peak, _) => peak
  }

  function NadirOf(p: PeakAndNadir): real
  {
    match p
    case Equal(v) => v
    case NotEqual(_, nadir) => nadir
  }

  /** Positive magnitudes, spacing and durations, and an update style that does not trap. */
  predicate ConfigurationIsValid(c: Configuration)
  {
    PeakOf(c.peakAndNadir) > 0.0 && NadirOf(c.peakAndNadir) > 0.0 && c.nodeSegment > 0.0 &&
    c.verticalDuration > 0.0 && c.horizontalDuration > 0.0 && StyleIsValid(c.updateStyle)
  }

  /**
   * The default options: peak and nadir 15, random style with minimum 70,
   * segment 360, durations 6 and 3, and a random initial direction, which
   * is always up.
   */
  function DefaultConfiguration(draw: nat): (c: Configuration)
    requires draw < UInt32Limit
    ensures c.initialDirection == Up
    ensures ConfigurationIsValid(c)
  {
    Configuration(Equal(15.0), Random(70), 360.0, 6.0, 3.0, RandomDirection(draw))
  }

  datatype WaveNode = WaveNode(
    peak: real,
    nadir: real,
    nodeSegment: real,
    direction: Direction,
    altitude: real,
    translation: real,
    updateStyle: UpdateStyle,
    verticalDuration: real,
    horizontalDuration: real,
    currentPeak: real,
    currentNadir: real)

  /** The constant shape of a node: everything its configuration fixes. */
  predicate WellFormed(n: WaveNode)
  {
    n.peak > 0.0 && n.nadir > 0.0 && n.nodeSegment > 0.0 &&
    n.verticalDuration > 0.0 && n.horizontalDuration > 0.0 && StyleIsValid(n.updateStyle)
  }

  /** A node as its public initialiser leaves it: at rest on the baseline, bounds not yet realised. */
  predicate IsTemplate(n: WaveNode)
  {
    WellFormed(n) && n.altitude == 0.0 && n.translation == 0.0 &&
    n.currentPeak == 0.0 && n.currentNadir == 0.0
  }

  /** Two nodes built from the same configuration (they may differ in state). */
  predicate SameShape(a: WaveNode, b: WaveNode)
  {
    a.peak == b.peak && a.nadir == b.nadir && a.nodeSegment == b.nodeSegment &&
    a.updateStyle == b.updateStyle && a.verticalDuration == b.verticalDuration &&
    a.horizontalDuration == b.horizontalDuration
  }

  /**
   * `WaveNode(configuration:)`: a node at rest on the baseline with
   * unrealised bounds and the configured shape, well formed exactly when
   * the configuration is valid.
   */
  function FromConfiguration(c: Configuration): (n: WaveNode)
    ensures n.altitude == 0.0 && n.translation == 0.0 && n.currentPeak == 0.0 && n.currentNadir == 0.0
    ensures WellFormed(n) <==> ConfigurationIsValid(c)
    ensures IsTemplate(n) <==> ConfigurationIsValid(c)
    ensures n.direction == c.initialDirection
    ensures n.peak == PeakOf(c.peakAndNadir) && n.nadir == NadirOf(c.peakAndNadir)
    ensures c.peakAndNadir.Equal? ==> n.peak == n.nadir == c.peakAndNadir.value
    ensures n.nodeSegment == c.nodeSegment && n.updateStyle == c.updateStyle
    ensures n.verticalDuration == c.verticalDuration && n.horizontalDuration == c.horizontalDuration
  {
    var (peak, nadir) := match c.peakAndNadir
      case Equal(v) => (v, v)
      case NotEqual(p, q) => (p, q);
    WaveNode(peak, nadir, c.nodeSegment, c.initialDirection, 0.0, 0.0, c.updateStyle,
             c.verticalDuration, c.horizontalDuration, 0.0, 0.0)
  }

  /**
   * The direction rule run after every assignment to the altitude: at or
   * above the current peak the node turns down; at or below minus the
   * current nadir it turns up.
   */
  predicate Consistent(n: WaveNode)
  {
    (n.altitude >= n.currentPeak ==> n.direction == Down) &&
    (n.altitude <= -n.currentNadir ==> n.direction == Up)
  }

  /**
   * Assigning `a` to the altitude, with the observer that follows: the
   * nadir check runs second, so it wins when both bounds are crossed.
   */
  function SetAltitude(n: WaveNode, a: real): (r: WaveNode)
    ensures r == n.(altitude := a, direction := r.direction)
    ensures a <= -n.currentNadir ==> r.direction == Up
    ensures -n.currentNadir < a && n.currentPeak <= a ==> r.direction == Down
    ensures -n.currentNadir < a < n.currentPeak ==> r.direction == n.direction
    ensures n.currentPeak + n.currentNadir > 0.0 ==> Consistent(r)
  {
    var afterPeakCheck := if a >= n.currentPeak then Down else n.direction;
    var afterNadirCheck := if a <= -n.currentNadir then Up else afterPeakCheck;
    n.(altitude := a, direction := afterNadirCheck)
  }

  /**
   * The reference distance: the current peak above the baseline, the
   * current nadir below it, and on the baseline the bound the node is
   * travelling towards.
   */
  function RefDistance(n: WaveNode): (d: real)
    ensures n.altitude > 0.0 ==> d == n.currentPeak
    ensures n.altitude < 0.0 ==> d == n.currentNadir
    ensures n.altitude == 0.0 ==> d == (if n.direction == Up then n.currentPeak else n.currentNadir)
    ensures n.currentPeak > 0.0 && n.currentNadir > 0.0 ==> d > 0.0
  {
    var distance := 0.0;
    var d1 := if n.altitude > 0.0 then n.currentPeak else distance;
    var d2 := if n.altitude < 0.0 then n.currentNadir else d1;
    if n.altitude == 0.0 then
      match n.direction
      case Up => n.currentPeak
      case Down => n.currentNadir
    else d2
  }

  /**
   * The vertical distance moved in one tick (the profile assumes 60 ticks
   * per second): fast near the baseline, slower further out.  For a
   * positive reference distance D and vertical duration T it is positive,
   * at most D / (20 T) and at least D / (60 T).
   */
  function VerticalStep(n: WaveNode): (r: real)
    requires n.verticalDuration > 0.0
    ensures RefDistance(n) > 0.0 ==>
      RefDistance(n) / (60.0 * n.verticalDuration) <= r <= RefDistance(n) / (20.0 * n.verticalDuration)
    ensures RefDistance(n) > 0.0 ==> r > 0.0
  {
    var distance := RefDistance(n);
    var min1 := -0.2 * distance;
    var max1 := 0.2 * distance;
    var min2 := -0.4 * distance;
    var max2 := 0.4 * distance;
    var t := n.verticalDuration;
    StepTiersOrdered(distance, t);
    if min1 < n.altitude < max1 then distance / (20.0 * t)
    else if min2 < n.altitude < max2 then distance / (40.0 * t)
    else distance / (60.0 * t)
  }

  /** For a positive distance and duration, the three tiers are positive and strictly decreasing. */
  lemma StepTiersOrdered(distance: real, t: real)
    requires t > 0.0
    ensures distance > 0.0 ==>
      distance / (20.0 * t) > distance / (40.0 * t) > distance / (60.0 * t) > 0.0
  {
    if distance > 0.0 {
      var unit := distance / (120.0 * t);
      assert unit > 0.0;
      assert distance / (20.0 * t) == 6.0 * unit;
      assert distance / (40.0 * t) == 3.0 * unit;
      assert distance / (60.0 * t) == 2.0 * unit;
    }
  }

  /**
   * The tier bands: D / (20 T) strictly inside plus or minus 0.2 D,
   * D / (40 T) strictly inside plus or minus 0.4 D but not 0.2 D, and
   * D / (60 T) beyond; so a node near the baseline moves strictly faster
   * than one near its bound.
   */
  lemma StepTiers(n: WaveNode)
    requires n.verticalDuration > 0.0 && RefDistance(n) > 0.0
    ensures var d, t, a := RefDistance(n), n.verticalDuration, n.altitude;
      (-0.2 * d < a < 0.2 * d ==> VerticalStep(n) == d / (20.0 * t)) &&
      ((a <= -0.2 * d || 0.2 * d <= a) && -0.4 * d < a < 0.4 * d ==> VerticalStep(n) == d / (40.0 * t)) &&
      (a <= -0.4 * d || 0.4 * d <= a ==> VerticalStep(n) == d / (60.0 * t))
  {
  }

  /** Deceleration: with the same reference distance, a node within 20% of it steps further than one beyond 40%. */
  lemma Deceleration(near: WaveNode, far: WaveNode)
    requires near.verticalDuration > 0.0 && near.verticalDuration == far.verticalDuration
    requires RefDistance(near) > 0.0 && RefDistance(near) == RefDistance(far)
    requires -0.2 * RefDistance(near) < near.altitude < 0.2 * RefDistance(near)
    requires far.altitude <= -0.4 * RefDistance(far) || 0.4 * RefDistance(far) <= far.altitude
    ensures VerticalStep(near) > VerticalStep(far)
  {
    StepTiers(near);
    StepTiers(far);
    StepTiersOrdered(RefDistance(near), near.verticalDuration);
  }

  /**
   * The horizontal distance moved in one tick: at 60 ticks per second a
   * node drifts exactly one segment per horizontal duration.
   */
  function HorizontalStep(n: WaveNode): (r: real)
    requires n.horizontalDuration > 0.0
    ensures r * (60.0 * n.horizontalDuration) == n.nodeSegment
    ensures n.nodeSegment > 0.0 ==> r > 0.0
  {
    n.nodeSegment / (60.0 * n.horizontalDuration)
  }

  /** The altitude as a fraction of the reference distance. */
  function AltitudeRatio(n: WaveNode): (r: real)
    requires RefDistance(n) != 0.0
    ensures r * RefDistance(n) == n.altitude
  {
    n.altitude / RefDistance(n)
  }

  /** `currentAltitude(with: ratio)`: the altitude becomes `ratio` times the reference distance in effect before the assignment. */
  function WithAltitudeRatio(n: WaveNode, ratio: real): (r: WaveNode)
    ensures r.altitude == ratio * RefDistance(n)
    ensures r == n.(altitude := r.altitude, direction := r.direction)
    ensures -n.currentNadir < r.altitude < n.currentPeak ==> r.direction == n.direction
    ensures n.currentPeak + n.currentNadir > 0.0 ==> Consistent(r)
  {
    SetAltitude(n, ratio * RefDistance(n))
  }

  /**
   * The damping factor `updatePeakAndNadir` scales peak and nadir by; none
   * when the computation traps (a negative minimum does not convert to an
   * unsigned value, a minimum over 100 underflows, 100 divides by zero).
   * The integer quotient of a remainder below 100 by 100 is 0, so the
   * factor is always exactly 1.
   */
  function PeakAndNadirDelta(style: UpdateStyle, draw: nat): (r: Option<real>)
    requires draw < UInt32Limit
    ensures r.Some? <==> StyleIsValid(style)
    ensures r.Some? ==> r.value == 1.0
  {
    match style
    case Const => Some(1.0)
    case Random(min) =>
      if min < 0 || UInt32Limit <= min then None
      else if 100 < min then None
      else if min == 100 then None
      else Some(1.0 - ((draw % (100 - min)) / 100) as real)
  }

  /** `updatePeakAndNadir()`: realises the node's bounds, which always equal the configured peak and nadir. */
  function UpdatePeakAndNadir(n: WaveNode, draw: nat): (r: WaveNode)
    requires StyleIsValid(n.updateStyle) && draw < UInt32Limit
    ensures r == n.(currentPeak := n.peak, currentNadir := n.nadir)
  {
    var delta := PeakAndNadirDelta(n.updateStyle, draw).value;
    n.(currentNadir := n.nadir * delta, currentPeak := n.peak * delta)
  }

  /**
   * `updateAltitude(with: d)`: one vertical step (computed before the
   * assignment) up or down according to `d`, then the direction rule.
   */
  function UpdateAltitudeWith(n: WaveNode, d: Direction): (r: WaveNode)
    requires n.verticalDuration > 0.0
    ensures r == n.(altitude := r.altitude, direction := r.direction)
    ensures RefDistance(n) > 0.0 && d == Up ==> r.altitude > n.altitude
    ensures RefDistance(n) > 0.0 && d == Down ==> r.altitude < n.altitude
    ensures r.altitude == n.altitude + (if d == Up then VerticalStep(n) else -VerticalStep(n))
    ensures -n.currentNadir < r.altitude < n.currentPeak ==> r.direction == n.direction
    ensures n.currentPeak + n.currentNadir > 0.0 ==> Consistent(r)
  {
    var step := VerticalStep(n);
    match d
    case Up => SetAltitude(n, n.altitude + step)
    case Down => SetAltitude(n, n.altitude - step)
  }

  /** `updateAltitude()`: one vertical step in the node's own direction. */
  function UpdateAltitude(n: WaveNode): (r: WaveNode)
    requires n.verticalDuration > 0.0
    ensures r == n.(altitude := r.altitude, direction := r.direction)
    ensures r.altitude == n.altitude + (if n.direction == Up then VerticalStep(n) else -VerticalStep(n))
    ensures RefDistance(n) > 0.0 ==> (r.altitude > n.altitude <==> n.direction == Up)
    ensures -n.currentNadir < r.altitude < n.currentPeak ==> r.direction == n.direction
    ensures n.currentPeak + n.currentNadir > 0.0 ==> Consistent(r)
  {
    UpdateAltitudeWith(n, n.direction)
  }

  /** `updateTranslation()`: one horizontal step; nothing else changes. */
  function UpdateTranslation(n: WaveNode): (r: WaveNode)
    requires n.horizontalDuration > 0.0
    ensures r == n.(translation := r.translation)
    ensures (r.translation - n.translation) * (60.0 * n.horizontalDuration) == n.nodeSegment
  {
    n.(translation := n.translation + HorizontalStep(n))
  }

  /** `update()`: the altitude step, then the translation step. */
  function Update(n: WaveNode): (r: WaveNode)
    requires n.verticalDuration > 0.0 && n.horizontalDuration > 0.0
    ensures SameShape(r, n) && r.currentPeak == n.currentPeak && r.currentNadir == n.currentNadir
    ensures r.altitude == UpdateAltitude(n).altitude && r.direction == UpdateAltitude(n).direction
    ensures r.translation == n.translation + HorizontalStep(n)
  {
    UpdateTranslation(UpdateAltitude(n))
  }

  function Max(a: real, b: real): real
  {
    if a >= b then a else b
  }

  /** The largest vertical step a node with these bounds can take. */
  function MaxStep(n: WaveNode): real
    requires n.verticalDuration > 0.0
  {
    Max(n.currentPeak, n.currentNadir) / (20.0 * n.verticalDuration)
  }

  /** Within the bounds, allowing for the overshoot of one step past either bound. */
  predicate InBounds(n: WaveNode)
    requires n.verticalDuration > 0.0
  {
    -n.currentNadir - MaxStep(n) <= n.altitude <= n.currentPeak + MaxStep(n)
  }

  lemma StepAtMostMax(n: WaveNode)
    requires n.verticalDuration > 0.0 && n.currentPeak > 0.0 && n.currentNadir > 0.0
    ensures 0.0 < VerticalStep(n) <= MaxStep(n)
  {
    var d, m, t := RefDistance(n), Max(n.currentPeak, n.currentNadir), n.verticalDuration;
    assert d <= m;
    assert d / (20.0 * t) <= m / (20.0 * t) by {
      var k := 1.0 / (20.0 * t);
      assert k > 0.0;
      assert d / (20.0 * t) == d * k && m / (20.0 * t) == m * k;
    }
  }

  /**
   * The altitude never runs further than one step past either bound: a
   * consistent node within that band stays consistent and within it after
   * any update.
   */
  lemma UpdateKeepsBounds(n: WaveNode)
    requires n.verticalDuration > 0.0 && n.horizontalDuration > 0.0
    requires n.currentPeak > 0.0 && n.currentNadir > 0.0
    requires Consistent(n) && InBounds(n)
    ensures Consistent(Update(n)) && InBounds(Update(n))
  {
    StepAtMostMax(n);
    var r := Update(n);
    assert MaxStep(r) == MaxStep(n);
  }

  /** A node after `k` calls of `update()`. */
  function Advanced(n: WaveNode, k: nat): (r: WaveNode)
    requires n.verticalDuration > 0.0 && n.horizontalDuration > 0.0
    ensures SameShape(r, n) && r.currentPeak == n.currentPeak && r.currentNadir == n.currentNadir
    ensures r.translation == n.translation + k as real * HorizontalStep(n)
    decreases k
  {
    if k == 0 then n
    else
      var prev := Advanced(n, k - 1);
      assert HorizontalStep(prev) == HorizontalStep(n);
      assert (k - 1) as real * HorizontalStep(n) + HorizontalStep(n) == k as real * HorizontalStep(n);
      Update(prev)
  }

  /**
   * For any number of ticks, a consistent node that starts within its
   * bounds stays consistent and never runs more than one step past either
   * bound.
   */
  lemma {:induction false} AdvancedKeepsBounds(n: WaveNode, k: nat)
    requires n.verticalDuration > 0.0 && n.horizontalDuration > 0.0
    requires n.currentPeak > 0.0 && n.currentNadir > 0.0
    requires Consistent(n) && InBounds(n)
    ensures Consistent(Advanced(n, k)) && InBounds(Advanced(n, k))
    decreases k
  {
    if k > 0 {
      AdvancedKeepsBounds(n, k - 1);
      UpdateKeepsBounds(Advanced(n, k - 1));
    }
  }

  /**
   * The overshoot is real: a node at 9.9 rising towards a peak of 10 with
   * a vertical duration of 1 s steps by 1/6 to above the peak, and only then
   * turns down.
   */
  lemma OneStepOvershoot()
    ensures var n := WaveNode(10.0, 10.0, 100.0, Up, 9.9, 0.0, Const, 1.0, 2.0, 10.0, 10.0);
      Consistent(n) && InBounds(n) &&
      Update(n).altitude == 9.9 + 1.0 / 6.0 && Update(n).altitude > n.currentPeak &&
      Update(n).direction == Down && InBounds(Update(n))
  {
    var n := WaveNode(10.0, 10.0, 100.0, Up, 9.9, 0.0, Const, 1.0, 2.0, 10.0, 10.0);
    RisingStep(n);
    UpdateKeepsBounds(n);
  }

  /** Bounds of 10 and a vertical duration of 1 s. */
  predicate TenByOne(n: WaveNode)
  {
    n.currentPeak == 10.0 && n.currentNadir == 10.0 && n.verticalDuration == 1.0 && n.horizontalDuration > 0.0
  }

  /** One tick of such a node rising from the baseline: 0.5 below 2, 0.25 below 4, 1/6 beyond. */
  lemma RisingStep(p: WaveNode)
    requires TenByOne(p) && p.direction == Up && 0.0 <= p.altitude < 10.0
    ensures Update(p).altitude ==
      p.altitude + (if p.altitude < 2.0 then 0.5 else if p.altitude < 4.0 then 0.25 else 10.0 / 60.0)
    ensures Update(p).direction == if Update(p).altitude >= 10.0 then Down else Up
  {
    assert RefDistance(p) == 10.0;
    StepTiers(p);
  }

  /** Its altitude after `k` ticks: four steps of 0.5 up to 2, eight of 0.25 up to 4, then steps of 1/6. */
  function RisingProfile(k: nat): real
  {
    if k <= 4 then 0.5 * k as real
    else if k <= 12 then 2.0 + 0.25 * (k - 4) as real
    else 4.0 + (k - 12) as real / 6.0
  }

  /** The profile grows by the step `RisingStep` takes at its previous value. */
  lemma RisingProfileStep(k: nat)
    requires 0 < k <= 48
    ensures var a := RisingProfile(k - 1);
      0.0 <= a < 10.0 &&
      RisingProfile(k) == a + (if a < 2.0 then 0.5 else if a < 4.0 then 0.25 else 10.0 / 60.0)
    ensures k < 48 ==> RisingProfile(k) < 10.0
    ensures k == 48 ==> RisingProfile(k) == 10.0
  {
    if k <= 4 {
    } else if k <= 12 {
    } else {
      assert RisingProfile(k) == RisingProfile(k - 1) + 1.0 / 6.0;
    }
  }

  /** The tick from `RisingProfile(k - 1)` to `RisingProfile(k)`, turning down on the 48th. */
  lemma RisingTick(p: WaveNode, k: nat)
    requires TenByOne(p) && p.direction == Up && 0 < k <= 48 && p.altitude == RisingProfile(k - 1)
    ensures Update(p).altitude == RisingProfile(k)
    ensures Update(p).direction == if k == 48 then Down else Up
  {
    RisingProfileStep(k);
    RisingStep(p);
  }

  /**
   * A node with bounds of 10 and a vertical duration of 1 s, starting on
   * the baseline heading up, rises with the decelerating profile, below its
   * peak and still heading up, for 47 ticks; the 48th lands exactly on the
   * peak and turns it down.
   */
  lemma {:induction false} RisingNodeProfile(n: WaveNode, k: nat)
    requires TenByOne(n) && n.altitude == 0.0 && n.direction == Up && k <= 48
    ensures Advanced(n, k).altitude == RisingProfile(k)
    ensures Advanced(n, k).direction == if k == 48 then Down else Up
    decreases k
  {
    if k > 0 {
      RisingNodeProfile(n, k - 1);
      var prev := Advanced(n, k - 1);
      assert TenByOne(prev);
      RisingTick(prev, k);
      assert Advanced(n, k) == Update(prev);
    }
  }
}
