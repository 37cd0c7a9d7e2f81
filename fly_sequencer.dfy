/**
 * The flight sequencer of the fly animation: a one-time setup that places the
 * sprite on the first anchor, and one "leg" per step that flies it to the
 * next anchor of a fixed cyclic sequence.
 *
 * Each leg is one atomic transition. `SetupStep` and `LegStep` are the
 * transitions as functions of the state record and a snapshot of the layout;
 * they return the next state and the calls made on the animation controls.
 * The class `FlyAnimation` holds the same state in fields and its methods are
 * proved to perform exactly these transitions.
 */
module FlySequencer {
  import opened Wrappers
  import opened FlyGeometry

  /** The order in which the sprite visits the anchors; it wraps around. */
  const Sequence: seq<TargetKey> := [Pill, Cta, Ipad, Cta]

  /** The component's props that the sequencer reads (the durations are not modelled). */
  datatype Config = Config(
    flyWidth: real,
    flyHeight: real,
    targetOffsets: map<TargetKey, Offset>,
    pathRandomnessFactor: real,
    pathKeyframeSamples: int)

  /** The props' defaults. */
  const DefaultConfig: Config := Config(40.0, 40.0, map[], 0.4, 5)

  /** What the DOM reports when a leg runs: the container's box and each ref's element box. */
  datatype Layout = Layout(container: Option<Rect>, targets: map<TargetKey, Option<Rect>>)

  /** The component's state: three state hooks, the visibility hook and the setup ref. */
  datatype FlyState = FlyState(
    sequenceIndex: nat,
    currentFlyTopLeft: Option<Point>,
    isFlipped: bool,
    isInitialFlight: bool,
    isVisible: bool,
    hasRunInitialSetup: bool)

  /** The state on mount. */
  const InitialState: FlyState := FlyState(0, None, true, true, false, false)

  /**
   * One effect of a leg: a timer pause before a flight, or a call on the
   * animation controls, namely an immediate `set` (with a horizontal scale or
   * without), the flip animation to a horizontal scale, or the flight along a
   * sampled path.
   */
  datatype Effect = Pause | SetPose(topLeft: Point, scaleX: Option<int>) | AnimateFlip(targetScaleX: int) | AnimatePath(path: Keyframes)

  datatype Step = Step(next: FlyState, effects: seq<Effect>)

  /** The sprite's top-left corner when its centre is at `centre`. */
  function TopLeft(centre: Point, cfg: Config): (r: Point)
    ensures Centre(r, cfg) == centre
  {
    Point(centre.x - cfg.flyWidth / 2.0, centre.y - cfg.flyHeight / 2.0)
  }

  /** The sprite's centre when its top-left corner is at `topLeft`. */
  function Centre(topLeft: Point, cfg: Config): (r: Point)
    ensures r.x - cfg.flyWidth / 2.0 == topLeft.x && r.y - cfg.flyHeight / 2.0 == topLeft.y
  {
    Point(topLeft.x + cfg.flyWidth / 2.0, topLeft.y + cfg.flyHeight / 2.0)
  }

  /** The anchor point of `key` in the given layout. */
  function Anchor(key: TargetKey, cfg: Config, layout: Layout): Option<Point> {
    GetAbsolutePosition(key, layout.targets, Some(cfg.targetOffsets), layout.container)
  }

  /** The horizontal scale the flip animation sets for a flip state. */
  function ScaleX(flipped: bool): (r: int)
    ensures r == 1 || r == -1
    ensures r == 1 <==> flipped
  {
    if flipped then 1 else -1
  }

  /**
   * The initial-setup effect: unless setup already ran or the container is
   * missing, place the sprite's top-left corner so that it is centred on the
   * first anchor, mirrored, and make it visible; if that anchor does not
   * resolve, hide the sprite and leave setup to a later run.
   */
  function SetupStep(s: FlyState, cfg: Config, layout: Layout): (r: Step)
    // at most once: after a successful setup nothing changes
    ensures s.hasRunInitialSetup ==> r == Step(s, [])
    ensures r.next.hasRunInitialSetup
            <==> s.hasRunInitialSetup || (layout.container.Some? && Anchor(Sequence[0], cfg, layout).Some?)
    ensures !s.hasRunInitialSetup && r.next.hasRunInitialSetup ==>
      var tl := TopLeft(Anchor(Sequence[0], cfg, layout).value, cfg);
      && r.next.currentFlyTopLeft == Some(tl)
      && Centre(tl, cfg) == Anchor(Sequence[0], cfg, layout).value
      && r.next.sequenceIndex == 0
      && r.next.isVisible
      && r.effects == [SetPose(tl, Some(-1))]
    ensures !r.next.hasRunInitialSetup ==>
      && r.next.currentFlyTopLeft == s.currentFlyTopLeft
      && r.next.sequenceIndex == s.sequenceIndex
      && r.effects == []
      && (layout.container.Some? ==> !r.next.isVisible)
      && (layout.container.None? ==> r.next.isVisible == s.isVisible)
    ensures r.next.isFlipped == s.isFlipped && r.next.isInitialFlight == s.isInitialFlight
  {
    if s.hasRunInitialSetup || layout.container.None? then
      Step(s, [])
    else
      match Anchor(Sequence[0], cfg, layout)
      case None => Step(s.(isVisible := false), [])
      case Some(startPos) =>
        var tl := TopLeft(startPos, cfg);
        Step(s.(currentFlyTopLeft := Some(tl), isVisible := true, sequenceIndex := 0, hasRunInitialSetup := true),
             [SetPose(tl, Some(-1))])
  }

  /** The cursor after `i`, wrapping from the last entry of the sequence to the first. */
  function NextIndex(i: nat): (r: nat)
    ensures r < |Sequence|
    ensures i + 1 < |Sequence| ==> r == i + 1
    ensures i + 1 == |Sequence| ==> r == 0
  {
    (i + 1) % |Sequence|
  }

  /** Where a leg starts: the committed position if there is one, else the source anchor. */
  function PathStart(s: FlyState, cfg: Config, layout: Layout): (r: Option<Point>)
    requires s.sequenceIndex < |Sequence|
    // a committed position is the start: the sprite's centre, whatever the layout says
    ensures s.currentFlyTopLeft.Some? ==> r.Some? && TopLeft(r.value, cfg) == s.currentFlyTopLeft.value
    ensures s.currentFlyTopLeft.None? ==> r == Anchor(Sequence[s.sequenceIndex], cfg, layout)
  {
    if s.currentFlyTopLeft.Some? then Some(Centre(s.currentFlyTopLeft.value, cfg))
    else Anchor(Sequence[s.sequenceIndex], cfg, layout)
  }

  /** Where a leg ends: the anchor after the current one in the sequence. */
  function PathEnd(s: FlyState, cfg: Config, layout: Layout): (r: Option<Point>)
    ensures var dest := Sequence[NextIndex(s.sequenceIndex)];
      r.None? <==> layout.container.None? || dest !in layout.targets || layout.targets[dest].None?
  {
    Anchor(Sequence[NextIndex(s.sequenceIndex)], cfg, layout)
  }

  /** The guard of the main animation effect. */
  predicate Runs(s: FlyState, layout: Layout) {
    s.isVisible && layout.container.Some? && s.hasRunInitialSetup
  }

  /**
   * The branch a leg takes: not at all, skip (no destination), snap (no
   * start), critical (neither), or the full pause, flip, fly and commit.
   */
  datatype Branch = NotRun | Skip | Snap | Critical | Flight

  function LegBranch(s: FlyState, cfg: Config, layout: Layout): (b: Branch)
    requires s.sequenceIndex < |Sequence|
    ensures b == NotRun <==> !Runs(s, layout)
    ensures b == Flight <==> Runs(s, layout) && PathStart(s, cfg, layout).Some? && PathEnd(s, cfg, layout).Some?
    // the recovery branches run only when an end is missing
    ensures b in {Skip, Snap, Critical} ==> PathStart(s, cfg, layout).None? || PathEnd(s, cfg, layout).None?
  {
    if !Runs(s, layout) then NotRun
    else
      var start, end := PathStart(s, cfg, layout), PathEnd(s, cfg, layout);
      if start.Some? && end.Some? then Flight
      else if start.Some? then Skip
      else if end.Some? then Snap
      else Critical
  }

  /** The flip state of the next flight: unmirrored on the first flight, otherwise the opposite of now. */
  function NextFlipState(s: FlyState): (r: bool)
    // the first flight is unmirrored, every later one reverses the current state
    ensures s.isInitialFlight ==> !r
    ensures !s.isInitialFlight ==> r != s.isFlipped
  {
    if s.isInitialFlight then false else !s.isFlipped
  }

  /** One leg of the sequence, with the random draws of its curve as a parameter. */
  function LegStep(s: FlyState, cfg: Config, layout: Layout, d: Draws): (r: Step)
    requires s.sequenceIndex < |Sequence| && cfg.pathKeyframeSamples >= 1
    ensures LegBranch(s, cfg, layout) == NotRun ==> r == Step(s, [])
    // every branch that runs moves the cursor on by one, cyclically
    ensures LegBranch(s, cfg, layout) != NotRun ==> r.next.sequenceIndex == (s.sequenceIndex + 1) % |Sequence|
    ensures r.next.sequenceIndex < |Sequence|
    ensures r.next.isVisible == s.isVisible && r.next.hasRunInitialSetup == s.hasRunInitialSetup
  {
    var nextIndex := NextIndex(s.sequenceIndex);
    match LegBranch(s, cfg, layout)
    case NotRun => Step(s, [])
    case Skip => Step(s.(sequenceIndex := nextIndex), [Pause])
    case Critical => Step(s.(sequenceIndex := nextIndex), [])
    case Snap =>
      var tl := TopLeft(PathEnd(s, cfg, layout).value, cfg);
      Step(s.(currentFlyTopLeft := Some(tl), sequenceIndex := nextIndex), [SetPose(tl, None)])
    case Flight =>
      FlightStep(s, cfg, PathStart(s, cfg, layout).value, PathEnd(s, cfg, layout).value, d)
  }

  /** Steps 2 to 5 of a leg once both ends are known: flip, sample the curve, fly, commit, advance. */
  function FlightStep(s: FlyState, cfg: Config, start: Point, end: Point, d: Draws): (r: Step)
    requires cfg.pathKeyframeSamples >= 1
    ensures r.next.sequenceIndex == NextIndex(s.sequenceIndex)
    ensures r.next.isVisible == s.isVisible && r.next.hasRunInitialSetup == s.hasRunInitialSetup
  {
    var flip := NextFlipState(s);
    var n := cfg.pathKeyframeSamples;
    var cp := ControlPoints(start, end, d, cfg.pathRandomnessFactor);
    var kf := CurvedPathKeyframes(start, cp.0, cp.1, end, cfg.flyWidth, cfg.flyHeight, n);
    KeyframeLengths(start, cp.0, cp.1, end, cfg.flyWidth, cfg.flyHeight, n);
    var last := Point(kf.xKeyframes[|kf.xKeyframes| - 1], kf.yKeyframes[|kf.yKeyframes| - 1]);
    Step(s.(isFlipped := flip, isInitialFlight := false, currentFlyTopLeft := Some(last), sequenceIndex := NextIndex(s.sequenceIndex)),
         [Pause, AnimateFlip(ScaleX(flip)), AnimatePath(kf)])
  }

  /**
   * The flip rule: a flight sets the flip state to `false` on the first
   * flight and to the opposite of the current one afterwards, and ends the
   * first-flight phase; every other branch leaves both flags alone.
   */
  lemma LegFlipRule(s: FlyState, cfg: Config, layout: Layout, d: Draws)
    requires s.sequenceIndex < |Sequence| && cfg.pathKeyframeSamples >= 1
    ensures var r := LegStep(s, cfg, layout, d);
      if LegBranch(s, cfg, layout) == Flight then
        && r.next.isFlipped == (!s.isInitialFlight && !s.isFlipped)
        && !r.next.isInitialFlight
        && r.effects[1] == AnimateFlip(ScaleX(r.next.isFlipped))
      else
        r.next.isFlipped == s.isFlipped && r.next.isInitialFlight == s.isInitialFlight
  {
  }

  /**
   * What each failure branch does: a skip pauses and keeps the position, a
   * critical failure does nothing but advance, and a snap sets the sprite
   * straight onto the destination anchor.
   */
  lemma LegFailureBranches(s: FlyState, cfg: Config, layout: Layout, d: Draws)
    requires s.sequenceIndex < |Sequence| && cfg.pathKeyframeSamples >= 1
    ensures var r, b := LegStep(s, cfg, layout, d), LegBranch(s, cfg, layout);
      && (b == Skip ==> r == Step(s.(sequenceIndex := NextIndex(s.sequenceIndex)), [Pause]))
      && (b == Critical ==> r == Step(s.(sequenceIndex := NextIndex(s.sequenceIndex)), []))
      && (b == Snap ==>
            var tl := TopLeft(PathEnd(s, cfg, layout).value, cfg);
            && Centre(tl, cfg) == PathEnd(s, cfg, layout).value
            && r.next == s.(currentFlyTopLeft := Some(tl), sequenceIndex := NextIndex(s.sequenceIndex))
            && r.effects == [SetPose(tl, None)])
  {
  }

  /**
   * A flight pauses, flips, and flies along a path of numSamples + 1
   * keyframes that leaves from the sprite's current top-left corner (the
   * committed position when there is one) and ends at the destination
   * anchor's top-left corner, which becomes the committed position.
   */
  lemma LegFlightPath(s: FlyState, cfg: Config, layout: Layout, d: Draws)
    requires s.sequenceIndex < |Sequence| && cfg.pathKeyframeSamples >= 1
    requires LegBranch(s, cfg, layout) == Flight
    ensures var r, n := LegStep(s, cfg, layout, d), cfg.pathKeyframeSamples;
      && |r.effects| == 3
      && r.effects[0] == Pause && r.effects[1].AnimateFlip? && r.effects[2].AnimatePath?
      && var kf := r.effects[2].path;
         && |kf.xKeyframes| == |kf.yKeyframes| == |kf.times| == n + 1
         && Point(kf.xKeyframes[0], kf.yKeyframes[0]) == TopLeft(PathStart(s, cfg, layout).value, cfg)
         && (s.currentFlyTopLeft.Some? ==> Point(kf.xKeyframes[0], kf.yKeyframes[0]) == s.currentFlyTopLeft.value)
         && r.next.currentFlyTopLeft == Some(Point(kf.xKeyframes[n], kf.yKeyframes[n]))
         && r.next.currentFlyTopLeft == Some(TopLeft(PathEnd(s, cfg, layout).value, cfg))
  {
    var start, end := PathStart(s, cfg, layout).value, PathEnd(s, cfg, layout).value;
    var n := cfg.pathKeyframeSamples;
    var cp := ControlPoints(start, end, d, cfg.pathRandomnessFactor);
    KeyframeLengths(start, cp.0, cp.1, end, cfg.flyWidth, cfg.flyHeight, n);
    FirstKeyframeIsStart(start, cp.0, cp.1, end, cfg.flyWidth, cfg.flyHeight, n);
    LastKeyframeIsEnd(start, cp.0, cp.1, end, cfg.flyWidth, cfg.flyHeight, n);
  }

  /**
   * The states the component can reach: the cursor is in range, a position is
   * committed exactly when setup has run, and after setup the sprite is visible.
   */
  predicate Consistent(s: FlyState) {
    && s.sequenceIndex < |Sequence|
    && (s.hasRunInitialSetup <==> s.currentFlyTopLeft.Some?)
    && (s.hasRunInitialSetup ==> s.isVisible)
  }

  lemma InitialStateIsConsistent()
    ensures Consistent(InitialState) && !InitialState.hasRunInitialSetup
  {
  }

  lemma SetupKeepsConsistent(s: FlyState, cfg: Config, layout: Layout)
    requires Consistent(s)
    ensures Consistent(SetupStep(s, cfg, layout).next)
  {
  }

  lemma LegKeepsConsistent(s: FlyState, cfg: Config, layout: Layout, d: Draws)
    requires s.sequenceIndex < |Sequence| && cfg.pathKeyframeSamples >= 1
    ensures Consistent(s) ==> Consistent(LegStep(s, cfg, layout, d).next)
  {
  }

  /**
   * In a reachable state the snap and critical branches never run: a leg
   * either does not run, flies, or skips, and it skips exactly when the
   * destination anchor does not resolve.
   */
  lemma ReachableLegIsFlightOrSkip(s: FlyState, cfg: Config, layout: Layout)
    requires Consistent(s)
    ensures LegBranch(s, cfg, layout) in {NotRun, Skip, Flight}
    ensures Runs(s, layout) ==>
      (LegBranch(s, cfg, layout) == Skip <==> PathEnd(s, cfg, layout).None?)
  {
  }

  /** The inputs of one leg: the layout at that moment and the random draws. */
  datatype LegInput = LegInput(layout: Layout, draws: Draws)

  /** The state after running the given legs one after another. */
  function RunLegs(s: FlyState, cfg: Config, inputs: seq<LegInput>): (r: FlyState)
    requires s.sequenceIndex < |Sequence| && cfg.pathKeyframeSamples >= 1
    ensures r.sequenceIndex < |Sequence|
    ensures r.isVisible == s.isVisible && r.hasRunInitialSetup == s.hasRunInitialSetup
    decreases |inputs|
  {
    if inputs == [] then s
    else RunLegs(LegStep(s, cfg, inputs[0].layout, inputs[0].draws).next, cfg, inputs[1..])
  }

  /**
   * Progress: while the sprite is set up and the container is mounted, every
   * leg advances the cursor by one, whatever anchors are missing, so after k
   * legs the cursor has moved k places around the sequence.
   */
  lemma {:induction false} RunLegsAdvance(s: FlyState, cfg: Config, inputs: seq<LegInput>)
    requires s.sequenceIndex < |Sequence| && cfg.pathKeyframeSamples >= 1
    requires s.isVisible && s.hasRunInitialSetup
    requires forall k :: 0 <= k < |inputs| ==> inputs[k].layout.container.Some?
    ensures RunLegs(s, cfg, inputs).sequenceIndex == (s.sequenceIndex + |inputs|) % |Sequence|
    decreases |inputs|
  {
    if inputs != [] {
      var s' := LegStep(s, cfg, inputs[0].layout, inputs[0].draws).next;
      LegAdvancesCursor(s, cfg, inputs[0]);
      RunLegsAdvance(s', cfg, inputs[1..]);
      CursorArithmetic(s.sequenceIndex, |inputs| - 1);
    }
  }

  lemma LegAdvancesCursor(s: FlyState, cfg: Config, input: LegInput)
    requires s.sequenceIndex < |Sequence| && cfg.pathKeyframeSamples >= 1
    requires s.isVisible && s.hasRunInitialSetup && input.layout.container.Some?
    ensures
      var s' := LegStep(s, cfg, input.layout, input.draws).next;
      && s'.sequenceIndex == NextIndex(s.sequenceIndex)
      && s'.isVisible && s'.hasRunInitialSetup
  {
    assert LegBranch(s, cfg, input.layout) != NotRun;
  }

  lemma CursorArithmetic(i: nat, k: nat)
    ensures (NextIndex(i) + k) % |Sequence| == (i + k + 1) % |Sequence|
  {
  }

  /** Four legs bring the cursor back to where it was; from the setup state, back to 0. */
  lemma FourLegsCloseTheCycle(s: FlyState, cfg: Config, inputs: seq<LegInput>)
    requires s.sequenceIndex < |Sequence| && cfg.pathKeyframeSamples >= 1
    requires s.isVisible && s.hasRunInitialSetup
    requires |inputs| == |Sequence|
    requires forall k :: 0 <= k < |inputs| ==> inputs[k].layout.container.Some?
    ensures RunLegs(s, cfg, inputs).sequenceIndex == s.sequenceIndex
  {
    RunLegsAdvance(s, cfg, inputs);
  }

  /**
   * A leg towards an anchor that is not mounted (the iPad, say) pauses and
   * moves the cursor on without moving the sprite or touching its flip state.
   */
  lemma UnmountedDestinationIsSkipped(s: FlyState, cfg: Config, layout: Layout, d: Draws)
    requires Consistent(s) && cfg.pathKeyframeSamples >= 1 && Runs(s, layout)
    requires var dest := Sequence[NextIndex(s.sequenceIndex)]; dest !in layout.targets || layout.targets[dest].None?
    ensures LegStep(s, cfg, layout, d) == Step(s.(sequenceIndex := NextIndex(s.sequenceIndex)), [Pause])
  {
  }

  /**
   * With the default props and every anchor mounted, setup succeeds and the
   * first leg is a flight from the pill to the call-to-action button along
   * six keyframes, animated to scale -1.
   */
  lemma DefaultFirstFlight(layout: Layout, d: Draws)
    requires layout.container.Some?
    requires forall key :: key in layout.targets && layout.targets[key].Some?
    ensures
      var s := SetupStep(InitialState, DefaultConfig, layout).next;
      var r := LegStep(s, DefaultConfig, layout, d);
      && s.hasRunInitialSetup && s.sequenceIndex == 0
      && LegBranch(s, DefaultConfig, layout) == Flight
      && PathEnd(s, DefaultConfig, layout) == Anchor(Cta, DefaultConfig, layout)
      && r.effects[1] == AnimateFlip(-1)
      && |r.effects[2].path.xKeyframes| == 6
      && r.next.currentFlyTopLeft == Some(TopLeft(Anchor(Cta, DefaultConfig, layout).value, DefaultConfig))
  {
    var s := SetupStep(InitialState, DefaultConfig, layout).next;
    assert Pill in layout.targets && layout.targets[Pill].Some?;
    assert Cta in layout.targets && layout.targets[Cta].Some?;
    LegFlipRule(s, DefaultConfig, layout, d);
    LegFlightPath(s, DefaultConfig, layout, d);
  }

  /**
   * A leg away from a `cta` anchor whose destination is not mounted skips and
   * leaves the sprite on `cta`; the leg after it flies back to `cta`, so with
   * the layout unchanged it starts where it ends. The source's control points
   * are then 0 / 0: its path and the position it commits are NaN.
   */
  lemma SkipBeforeCtaGivesUndefinedPath(s: FlyState, cfg: Config, layout: Layout, d1: Draws, d2: Draws)
    requires Consistent(s) && cfg.pathKeyframeSamples >= 1 && Runs(s, layout)
    requires Sequence[s.sequenceIndex] == Cta && Anchor(Cta, cfg, layout).Some?
    requires s.currentFlyTopLeft == Some(TopLeft(Anchor(Cta, cfg, layout).value, cfg))
    requires PathEnd(s, cfg, layout).None?
    ensures
      var s' := LegStep(s, cfg, layout, d1).next;
      && LegBranch(s, cfg, layout) == Skip
      && LegBranch(s', cfg, layout) == Flight
      && PathStart(s', cfg, layout) == PathEnd(s', cfg, layout)
      && var p := PathStart(s', cfg, layout).value;
         ControlPointsAsWritten(p, p, d2, cfg.pathRandomnessFactor, 0.0) == None
  {
    var s' := LegStep(s, cfg, layout, d1).next;
    assert s'.sequenceIndex == NextIndex(s.sequenceIndex);
    assert Sequence[NextIndex(s'.sequenceIndex)] == Cta;
  }

  /**
   * The same situation with the corrected control points: the flight after
   * the skip keeps the sprite still, every keyframe on its committed corner,
   * and commits that same corner again.
   */
  lemma SkipBeforeCtaKeepsSpriteStill(s: FlyState, cfg: Config, layout: Layout, d1: Draws, d2: Draws)
    requires Consistent(s) && cfg.pathKeyframeSamples >= 1 && Runs(s, layout)
    requires Sequence[s.sequenceIndex] == Cta && Anchor(Cta, cfg, layout).Some?
    requires s.currentFlyTopLeft == Some(TopLeft(Anchor(Cta, cfg, layout).value, cfg))
    requires PathEnd(s, cfg, layout).None?
    ensures
      var s' := LegStep(s, cfg, layout, d1).next;
      var r := LegStep(s', cfg, layout, d2);
      && |r.effects| == 3 && r.effects[2].AnimatePath?
      && var kf := r.effects[2].path;
         && |kf.xKeyframes| == |kf.yKeyframes|
         && (forall i :: 0 <= i < |kf.xKeyframes| ==>
               Point(kf.xKeyframes[i], kf.yKeyframes[i]) == s.currentFlyTopLeft.value)
         && r.next.currentFlyTopLeft == s.currentFlyTopLeft
  {
    SkipBeforeCtaGivesUndefinedPath(s, cfg, layout, d1, d2);
    var s' := LegStep(s, cfg, layout, d1).next;
    var p := PathStart(s', cfg, layout).value;
    LegFlightPath(s', cfg, layout, d2);
    StationaryPathStaysPut(p, d2, cfg.pathRandomnessFactor, cfg.flyWidth, cfg.flyHeight, cfg.pathKeyframeSamples);
  }

  /**
   * The flip animation's scale: setup shows the sprite at scale -1, the first
   * flight animates to the unmirrored flip state `false`, which the code maps
   * to scale -1 as well (so the first flip shows no change), and the second
   * flight to `true`, scale 1.
   */
  lemma FirstTwoFlightsScale(s: FlyState, cfg: Config, l1: Layout, l2: Layout, d1: Draws, d2: Draws)
    requires Consistent(s) && cfg.pathKeyframeSamples >= 1 && s.isInitialFlight
    requires LegBranch(s, cfg, l1) == Flight
    requires LegBranch(LegStep(s, cfg, l1, d1).next, cfg, l2) == Flight
    ensures
      var first := LegStep(s, cfg, l1, d1);
      var second := LegStep(first.next, cfg, l2, d2);
      && first.effects[1] == AnimateFlip(-1) && !first.next.isFlipped
      && second.effects[1] == AnimateFlip(1) && second.next.isFlipped
  {
  }

  /**
   * The component itself: the state hooks as fields and the calls made on the
   * animation controls as a log.
   */
  class FlyAnimation {
    const config: Config
    var sequenceIndex: nat
    var currentFlyTopLeft: Option<Point>
    var isFlipped: bool
    var isInitialFlight: bool
    var isVisible: bool
    var hasRunInitialSetup: bool
    var effects: seq<Effect>

    function State(): FlyState
      reads this
    {
      FlyState(sequenceIndex, currentFlyTopLeft, isFlipped, isInitialFlight, isVisible, hasRunInitialSetup)
    }

    /** The fields hold a state the component can reach. */
    ghost predicate Valid()
      reads this
    {
      Consistent(State())
    }

    constructor (config: Config)
      ensures Valid()
      ensures this.config == config && State() == InitialState && effects == []
    {
      this.config := config;
      sequenceIndex := 0;
      currentFlyTopLeft := None;
      isFlipped := true;
      isInitialFlight := true;
      isVisible := false;
      hasRunInitialSetup := false;
      effects := [];
    }

    /** The initial-setup effect. */
    method RunInitialSetup(layout: Layout)
      requires Valid()
      modifies this
      ensures Valid()
      ensures var step := SetupStep(old(State()), config, layout);
        State() == step.next && effects == old(effects) + step.effects
    {
      SetupKeepsConsistent(State(), config, layout);
      if hasRunInitialSetup || layout.container.None? {
        return;
      }
      var startPos := GetAbsolutePosition(Sequence[0], layout.targets, Some(config.targetOffsets), layout.container);
      if startPos.Some? {
        var initialTopLeft := Point(startPos.value.x - config.flyWidth / 2.0, startPos.value.y - config.flyHeight / 2.0);
        effects := effects + [SetPose(initialTopLeft, Some(-1))];
        currentFlyTopLeft := Some(initialTopLeft);
        isVisible := true;
        sequenceIndex := 0;
        hasRunInitialSetup := true;
      } else {
        isVisible := false;
      }
    }

    /** One run of the main animation effect, `draws` being the curve's random draws. */
    method AnimateFlightSequence(layout: Layout, draws: Draws)
      requires sequenceIndex < |Sequence| && config.pathKeyframeSamples >= 1
      modifies this
      // it keeps the invariant, and (unlike the setup) also runs its recovery branches outside it
      ensures old(Valid()) ==> Valid()
      ensures var step := LegStep(old(State()), config, layout, draws);
        State() == step.next && effects == old(effects) + step.effects
    {
      ghost var s0 := State();
      ghost var step := LegStep(s0, config, layout, draws);
      LegKeepsConsistent(s0, config, layout, draws);
      if !isVisible || layout.container.None? || !hasRunInitialSetup {
        assert LegBranch(s0, config, layout) == NotRun;
        return;
      }
      var sourceKey := Sequence[sequenceIndex];
      var nextIndex := (sequenceIndex + 1) % |Sequence|;
      var destinationKey := Sequence[nextIndex];

      var pathStartPos: Option<Point>;
      if currentFlyTopLeft.Some? {
        pathStartPos := Some(Point(currentFlyTopLeft.value.x + config.flyWidth / 2.0,
                                   currentFlyTopLeft.value.y + config.flyHeight / 2.0));
      } else {
        pathStartPos := GetAbsolutePosition(sourceKey, layout.targets, Some(config.targetOffsets), layout.container);
      }
      var pathEndPos := GetAbsolutePosition(destinationKey, layout.targets, Some(config.targetOffsets), layout.container);
      assert pathStartPos == PathStart(s0, config, layout) && pathEndPos == PathEnd(s0, config, layout);

      if pathStartPos.None? || pathEndPos.None? {
        if pathStartPos.Some? && pathEndPos.None? {
          assert LegBranch(s0, config, layout) == Skip;
          effects := effects + [Pause];
        } else if pathStartPos.None? && pathEndPos.Some? && layout.container.Some? {
          assert LegBranch(s0, config, layout) == Snap;
          var newTopLeft := Point(pathEndPos.value.x - config.flyWidth / 2.0, pathEndPos.value.y - config.flyHeight / 2.0);
          effects := effects + [SetPose(newTopLeft, None)];
          currentFlyTopLeft := Some(newTopLeft);
        } else {
          assert LegBranch(s0, config, layout) == Critical;
        }
        sequenceIndex := nextIndex;
        return;
      }

      assert LegBranch(s0, config, layout) == Flight;
      Fly(pathStartPos.value, pathEndPos.value, draws);
    }

    /** Steps 2 to 5 of a leg: pause, flip, fly along a fresh curve, commit the landing point, advance. */
    method Fly(pathStartPos: Point, pathEndPos: Point, draws: Draws)
      requires config.pathKeyframeSamples >= 1
      modifies this
      ensures var step := FlightStep(old(State()), config, pathStartPos, pathEndPos, draws);
        State() == step.next && effects == old(effects) + step.effects
    {
      ghost var step := FlightStep(State(), config, pathStartPos, pathEndPos, draws);
      ghost var cp := ControlPoints(pathStartPos, pathEndPos, draws, config.pathRandomnessFactor);
      ghost var kf := CurvedPathKeyframes(pathStartPos, cp.0, cp.1, pathEndPos, config.flyWidth, config.flyHeight, config.pathKeyframeSamples);
      ghost var oldEffects := effects;
      ghost var flip := NextFlipState(State());
      effects := effects + [Pause];

      var nextFlipState := if isInitialFlight then false else !isFlipped;
      effects := effects + [AnimateFlip(if nextFlipState then 1 else -1)];
      isFlipped := nextFlipState;
      if isInitialFlight {
        isInitialFlight := false;
      }

      var xKeyframes, yKeyframes, times := GenerateCurvedPathKeyframes(
        pathStartPos, pathEndPos, config.flyWidth, config.flyHeight,
        config.pathRandomnessFactor, config.pathKeyframeSamples, draws);
      KeyframeLengths(pathStartPos, cp.0, cp.1, pathEndPos, config.flyWidth, config.flyHeight, config.pathKeyframeSamples);
      assert Keyframes(xKeyframes, yKeyframes, times) == kf;
      effects := effects + [AnimatePath(Keyframes(xKeyframes, yKeyframes, times))];
      assert nextFlipState == flip;
      assert effects == oldEffects + [Pause, AnimateFlip(ScaleX(flip)), AnimatePath(kf)];

      currentFlyTopLeft := Some(Point(xKeyframes[|xKeyframes| - 1], yKeyframes[|yKeyframes| - 1]));
      sequenceIndex := (sequenceIndex + 1) % |Sequence|;
    }
  }
}
