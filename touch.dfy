/**
 * Touch input: counting touches by phase (TouchPhaseCount), turning a
 * touch's phase into the per-finger press/down/up flags, and the per-finger
 * part of the controller tick (tap timer, swipe latch, button injection).
 */
module Touch {

  import opened Buttons
  import opened Kinds
  import opened VecComp

  /** Unity's TouchPhase, in declaration order. */
  datatype TouchPhase = Began | Moved | Stationary | Ended | Canceled

  const AllPhases: seq<TouchPhase> := [Began, Moved, Stationary, Ended, Canceled]

  /** How many phases satisfy `notequal ^ (phase == p)`. */
  function Count(phases: seq<TouchPhase>, p: TouchPhase, notequal: bool): (n: nat)
    ensures n <= |phases|
  {
    if phases == [] then 0
    else Count(phases[..|phases| - 1], p, notequal) + (if notequal != (phases[|phases| - 1] == p) then 1 else 0)
  }

  /** Counting the phases equal to `p` and those not equal to it splits the touches. */
  lemma {:induction false} CountComplement(phases: seq<TouchPhase>, p: TouchPhase)
    ensures Count(phases, p, false) + Count(phases, p, true) == |phases|
  {
    if phases != [] {
      CountComplement(phases[..|phases| - 1], p);
    }
  }

  /** The counts of the five phases add up to the number of touches. */
  lemma {:induction false} CountPartition(phases: seq<TouchPhase>)
    ensures Count(phases, Began, false) + Count(phases, Moved, false) + Count(phases, Stationary, false)
          + Count(phases, Ended, false) + Count(phases, Canceled, false) == |phases|
  {
    if phases != [] {
      CountPartition(phases[..|phases| - 1]);
    }
  }

  /** TouchPhaseCount.PhaseCount. */
  method PhaseCount(touches: seq<TouchPhase>, touchPhase: TouchPhase, notequal: bool) returns (count: nat)
    ensures count == Count(touches, touchPhase, notequal)
  {
    count := 0;
    var i := 0;
    while i < |touches|
      invariant 0 <= i <= |touches|
      invariant count == Count(touches[..i], touchPhase, notequal)
    {
      assert touches[..i + 1][..i] == touches[..i];
      if notequal != (touches[i] == touchPhase) {
        count := count + 1;
      }
      i := i + 1;
    }
    assert touches[..i] == touches;
  }

  /** TouchPhaseCount.GetNotEndedCount: touches not ended, minus the canceled ones. */
  method GetNotEndedCount(touches: seq<TouchPhase>) returns (notEnded: int)
    ensures notEnded == Count(touches, Began, false) + Count(touches, Moved, false) + Count(touches, Stationary, false)
  {
    notEnded := PhaseCount(touches, Ended, true);
    var canceled := PhaseCount(touches, Canceled, false);
    notEnded := notEnded - canceled;
    CountComplement(touches, Ended);
    CountPartition(touches);
  }

  /** TouchPhaseCount(touches): one count per phase. */
  method PhaseCounts(touches: seq<TouchPhase>) returns (counts: map<TouchPhase, int>)
    ensures counts.Keys == set p | p in AllPhases
    ensures forall p :: p in counts ==> counts[p] == Count(touches, p, false)
  {
    counts := map[];
    var j := 0;
    while j < |AllPhases|
      invariant 0 <= j <= |AllPhases|
      invariant counts.Keys == set p | p in AllPhases[..j]
      invariant forall p :: p in counts ==> counts[p] == Count(touches, p, false)
    {
      var n := PhaseCount(touches, AllPhases[j], false);
      counts := counts[AllPhases[j] := n];
      assert AllPhases[..j + 1] == AllPhases[..j] + [AllPhases[j]];
      j := j + 1;
    }
  }

  /** The per-finger flags one touch sets, by phase. */
  datatype FingerFlags = FingerFlags(press: bool, down: bool, up: bool)

  const NoFlags: FingerFlags := FingerFlags(false, false, false)

  function PhaseFlags(phase: TouchPhase): (f: FingerFlags)
    ensures f.press
    ensures f.down <==> phase == Began
    ensures f.up <==> phase == Ended || phase == Canceled
  {
    match phase
    case Began => FingerFlags(true, true, false)
    case Moved => FingerFlags(true, false, false)
    case Stationary => FingerFlags(true, false, false)
    case Ended => FingerFlags(true, false, true)
    case Canceled => FingerFlags(true, false, true)
  }

  /** The state the controller keeps per finger across ticks. */
  datatype Finger = Finger(
    time: real, swipe: bool, downPosition: Vec2, vector: Vec2, deltaVector: Vec2,
    beforeVector: Vec2, upPosition: Vec2)

  /** The per-finger settings: tap button, its mode, the stick key driven by the finger. */
  datatype FingerConfig = FingerConfig(
    buttonFlag: bool, buttonName: ButtonType, buttonMode: ButtonMode, vectorMode: PosType,
    swipeDead: real, rotReverse: Vec2, deltaMagnitude: real)

  /** A finger's request to merge a (not yet radius-scaled) vector into a stick key. */
  datatype SwipeRequest = SwipeRequest(pos: PosType, vector: Vec2, magnitude: real)

  datatype FingerResult = FingerResult(finger: Finger, inject: ButtonType, swipe: Option<SwipeRequest>)

  function Minus(a: Vec2, b: Vec2): Vec2 { Vec2(a.x - b.x, a.y - b.y) }

  /** `v.magnitude > dead`, compared on squares. */
  predicate LongerThan(v: Vec2, dead: real)
  {
    dead < 0.0 || v.x * v.x + v.y * v.y > dead * dead
  }

  /** The Down part of a finger's tick: reset the timer and the swipe, remember where it went down. */
  function FingerDown(f: Finger, position: Vec2): Finger
  {
    f.(time := 0.0, swipe := false, downPosition := position)
  }

  /** Whether the finger is swiping after the Press part of its tick. */
  function SwipeAfterPress(cfg: FingerConfig, f: Finger, flags: FingerFlags, position: Vec2): bool
  {
    var f1 := if flags.down then FingerDown(f, position) else f;
    if flags.press then f1.swipe || LongerThan(Minus(position, f1.downPosition), cfg.swipeDead)
    else f1.swipe
  }

  /** One finger in one tick (the body of the per-finger loop of ControllerUpdate). */
  function FingerStep(cfg: FingerConfig, f: Finger, flags: FingerFlags, position: Vec2,
                      beforePosition: Vec2, dt: real): (r: FingerResult)
    ensures flags.up ==> !r.finger.swipe && r.finger.time == 0.0 && r.finger.vector == Zero2
    ensures !flags.up ==> r.finger.swipe == SwipeAfterPress(cfg, f, flags, position)
    ensures r.inject == NONE || r.inject == cfg.buttonName
    ensures !cfg.buttonFlag ==> r.inject == NONE
    ensures r.swipe.Some? ==> flags.press && SwipeAfterPress(cfg, f, flags, position)
  {
    // Down
    var f1 := if flags.down then FingerDown(f, position) else f;
    var downHit := flags.down && cfg.buttonFlag && ModeHas(cfg.buttonMode, Down);
    // Press (the three flags are disjoint, so their sum is their OR)
    var pressHit := flags.press && cfg.buttonFlag && ModeHas(cfg.buttonMode, Press + Repeat + Double);
    var f2 := if flags.press then
                var v := Minus(position, f1.downPosition);
                f1.(time := f1.time + dt, vector := v, deltaVector := Minus(position, beforePosition),
                    swipe := f1.swipe || LongerThan(v, cfg.swipeDead))
              else f1;
    var request :=
      if flags.press && cfg.vectorMode != PosNone && f2.swipe then
        if cfg.vectorMode == PosRot then
          Some(SwipeRequest(PosRot, Vec2(f2.deltaVector.x * cfg.rotReverse.x, f2.deltaVector.y * cfg.rotReverse.y),
                            cfg.deltaMagnitude))
        else Some(SwipeRequest(cfg.vectorMode, f2.vector, 1.0))
      else None;
    // Up
    var upHit := flags.up && cfg.buttonFlag &&
                 (ModeHas(cfg.buttonMode, Up) || (ModeHas(cfg.buttonMode, Click) && !f2.swipe));
    var f3 := if flags.up then
                f2.(upPosition := position, beforeVector := Minus(position, f2.downPosition),
                    vector := Zero2, swipe := false, time := 0.0)
              else f2;
    // Each part ORs either nothing or the finger's button into the mask.
    FingerResult(f3, if downHit || pressHit || upHit then cfg.buttonName else NONE, request)
  }

  /** A finger that is already swiping keeps swiping while it stays down. */
  lemma SwipeLatches(cfg: FingerConfig, f: Finger, flags: FingerFlags, position: Vec2, beforePosition: Vec2, dt: real)
    requires f.swipe && !flags.down && !flags.up
    ensures FingerStep(cfg, f, flags, position, beforePosition, dt).finger.swipe
  {}

  /** In Click mode the tap button is injected only on a release that never became a swipe. */
  lemma ClickNeedsNoSwipe(cfg: FingerConfig, f: Finger, flags: FingerFlags, position: Vec2, beforePosition: Vec2, dt: real)
    requires cfg.buttonMode == Click
    ensures FingerStep(cfg, f, flags, position, beforePosition, dt).inject
         == if flags.up && cfg.buttonFlag && !SwipeAfterPress(cfg, f, flags, position) then cfg.buttonName else NONE
  {
    assert !ModeHas(Click, Down) && !ModeHas(Click, Press + Repeat + Double) && !ModeHas(Click, Up);
    assert ModeHas(Click, Click);
  }

  /** In the default Press mode the tap button is injected exactly while the finger is down. */
  lemma PressModeFollowsPress(cfg: FingerConfig, f: Finger, flags: FingerFlags, position: Vec2, beforePosition: Vec2, dt: real)
    requires cfg.buttonMode == Press && cfg.buttonFlag && cfg.buttonName != NONE
    ensures FingerStep(cfg, f, flags, position, beforePosition, dt).inject == (if flags.press then cfg.buttonName else NONE)
  {
    assert !ModeHas(Press, Down) && ModeHas(Press, Press + Repeat + Double) && !ModeHas(Press, Up) && !ModeHas(Press, Click);
  }

  /** A swipe starts once the finger is farther than SwipeDead from where it went down. */
  lemma SwipeStarts(cfg: FingerConfig, f: Finger, flags: FingerFlags, position: Vec2)
    requires flags.press && flags.down
    ensures SwipeAfterPress(cfg, f, flags, position) <==> LongerThan(Zero2, cfg.swipeDead)
  {
    assert Minus(position, position) == Zero2;
  }
}
