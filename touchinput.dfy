/**
 * The touch half of the controller tick: which touches fill the three
 * finger slots (or, without touches, the three mouse buttons), the
 * "anything touched" flags, and the per-finger loop that injects tap
 * buttons and merges swipe vectors into the sticks.
 */
module TouchInput {

  import opened Buttons
  import opened Kinds
  import opened VecComp
  import opened Stick
  import opened Touch

  /** USE_TOUCHESCOUNT: the number of finger slots. */
  const Slots: nat := 3

  /** One entry of Input.touches. */
  datatype TouchSample = TouchSample(fingerId: int, phase: TouchPhase, position: Vec2)

  const NoSlotFlags: seq<FingerFlags> := [NoFlags, NoFlags, NoFlags]

  // ---------------------------------------------------------------------
  // Reading touches and the mouse

  /** The touches whose finger is not locked, in their original order. */
  function Unlocked(touches: seq<TouchSample>, lock: set<int>): (r: seq<TouchSample>)
    ensures |r| <= |touches|
    ensures forall t :: t in r ==> t in touches && t.fingerId !in lock
  {
    if touches == [] then []
    else
      var rest := Unlocked(touches[..|touches| - 1], lock);
      var t := touches[|touches| - 1];
      if t.fingerId in lock then rest else rest + [t]
  }

  /** Filtering distributes over concatenation. */
  lemma {:induction false} UnlockedAppend(a: seq<TouchSample>, b: seq<TouchSample>, lock: set<int>)
    ensures Unlocked(a + b, lock) == Unlocked(a, lock) + Unlocked(b, lock)
    decreases |b|
  {
    if b == [] {
      assert a + b == a;
    } else {
      var b' := b[..|b| - 1];
      assert (a + b)[..|a + b| - 1] == a + b';
      UnlockedAppend(a, b', lock);
    }
  }

  /** Every touch of an unlocked finger is kept. */
  lemma {:induction false} UnlockedComplete(touches: seq<TouchSample>, lock: set<int>)
    ensures forall t :: t in touches && t.fingerId !in lock ==> t in Unlocked(touches, lock)
  {
    if touches != [] {
      var init := touches[..|touches| - 1];
      UnlockedComplete(init, lock);
      assert touches == init + [touches[|touches| - 1]];
    }
  }

  /**
   * The touch branch of ControllerUpdate: unlocked touches fill the slots in
   * order, at most three; a filled slot takes the touch's position and the
   * flags of its phase, an unfilled one keeps its position and no flags.
   */
  method ReadTouches(touches: seq<TouchSample>, lock: set<int>, positions: seq<Vec2>)
    returns (positions': seq<Vec2>, flags: seq<FingerFlags>)
    requires |positions| == Slots
    ensures |positions'| == Slots && |flags| == Slots
    ensures forall k :: 0 <= k < Slots && k < |Unlocked(touches, lock)| ==>
      positions'[k] == Unlocked(touches, lock)[k].position && flags[k] == PhaseFlags(Unlocked(touches, lock)[k].phase)
    ensures forall k :: |Unlocked(touches, lock)| <= k < Slots ==> positions'[k] == positions[k] && flags[k] == NoFlags
  {
    positions', flags := positions, NoSlotFlags;
    var count := 0;
    var i := 0;
    while i < |touches|
      invariant 0 <= i <= |touches|
      invariant count == |Unlocked(touches[..i], lock)| <= Slots
      invariant |positions'| == Slots && |flags| == Slots
      invariant forall k :: 0 <= k < count ==>
        positions'[k] == Unlocked(touches[..i], lock)[k].position && flags[k] == PhaseFlags(Unlocked(touches[..i], lock)[k].phase)
      invariant forall k :: count <= k < Slots ==> positions'[k] == positions[k] && flags[k] == NoFlags
    {
      if count >= Slots {
        break;
      }
      var t := touches[i];
      UnlockedNext(touches, i, lock);
      if t.fingerId !in lock {
        positions' := positions'[count := t.position];
        flags := flags[count := PhaseFlags(t.phase)];
        count := count + 1;
      }
      i := i + 1;
    }
    // either every touch was read, or the slots filled up first
    if i == |touches| {
      assert touches[..i] == touches;
    } else {
      UnlockedPrefix(touches, i, lock);
    }
  }

  /** One more touch: the filter grows by that touch unless its finger is locked. */
  lemma UnlockedNext(touches: seq<TouchSample>, i: nat, lock: set<int>)
    requires i < |touches|
    ensures Unlocked(touches[..i + 1], lock)
         == Unlocked(touches[..i], lock) + (if touches[i].fingerId in lock then [] else [touches[i]])
  {
    assert touches[..i + 1][..i] == touches[..i];
  }

  /** The filter of a prefix is a prefix of the filter. */
  lemma UnlockedPrefix(touches: seq<TouchSample>, i: nat, lock: set<int>)
    requires i <= |touches|
    ensures |Unlocked(touches[..i], lock)| <= |Unlocked(touches, lock)|
    ensures forall k :: 0 <= k < |Unlocked(touches[..i], lock)| ==> Unlocked(touches[..i], lock)[k] == Unlocked(touches, lock)[k]
  {
    assert touches[..i] + touches[i..] == touches;
    UnlockedAppend(touches[..i], touches[i..], lock);
  }

  /**
   * The mouse branch of ControllerUpdate: every slot takes the mouse
   * position and the state of mouse button i; TouchedDown is the OR of the
   * Down flags (set only here, not in the touch branch).
   */
  method ReadMouse(mousePosition: Vec2, mouseButton: int -> FingerFlags)
    returns (positions: seq<Vec2>, flags: seq<FingerFlags>, touchedDown: bool)
    ensures |positions| == Slots && |flags| == Slots
    ensures forall k :: 0 <= k < Slots ==> positions[k] == mousePosition && flags[k] == mouseButton(k)
    ensures touchedDown == (mouseButton(0).down || mouseButton(1).down || mouseButton(2).down)
  {
    positions, flags, touchedDown := [Zero2, Zero2, Zero2], NoSlotFlags, false;
    var i := 0;
    while i < Slots
      invariant 0 <= i <= Slots && |positions| == Slots && |flags| == Slots
      invariant forall k :: 0 <= k < i ==> positions[k] == mousePosition && flags[k] == mouseButton(k)
      invariant touchedDown == exists k :: 0 <= k < i && mouseButton(k).down
    {
      positions := positions[i := mousePosition];
      flags := flags[i := mouseButton(i)];
      touchedDown := touchedDown || flags[i].down;
      i := i + 1;
    }
    assert mouseButton(0).down || mouseButton(1).down || mouseButton(2).down ==> touchedDown;
  }

  /** TouchedPress / TouchedUp: the OR of the slots' Press and Up flags. */
  method TouchedAny(flags: seq<FingerFlags>) returns (press: bool, up: bool)
    ensures press == exists k :: 0 <= k < |flags| && flags[k].press
    ensures up == exists k :: 0 <= k < |flags| && flags[k].up
  {
    press, up := false, false;
    var i := 0;
    while i < |flags|
      invariant 0 <= i <= |flags|
      invariant press == exists k :: 0 <= k < i && flags[k].press
      invariant up == exists k :: 0 <= k < i && flags[k].up
    {
      press := press || flags[i].press;
      up := up || flags[i].up;
      i := i + 1;
    }
  }

  /**
   * With touches present, something counts as touched exactly when an
   * unlocked touch exists: every phase sets Press.
   */
  lemma TouchedIffUnlocked(touches: seq<TouchSample>, lock: set<int>, flags: seq<FingerFlags>)
    requires |flags| == Slots
    requires forall k :: 0 <= k < Slots && k < |Unlocked(touches, lock)| ==>
      flags[k] == PhaseFlags(Unlocked(touches, lock)[k].phase)
    requires forall k :: |Unlocked(touches, lock)| <= k < Slots ==> flags[k] == NoFlags
    ensures (exists k :: 0 <= k < |flags| && flags[k].press) == (|Unlocked(touches, lock)| > 0)
  {
    if |Unlocked(touches, lock)| > 0 {
      assert flags[0].press;
    }
  }

  // ---------------------------------------------------------------------
  // The per-finger loop

  /** Every slot's result for this tick. */
  function Results(cfgs: seq<FingerConfig>, fingers: seq<Finger>, flags: seq<FingerFlags>,
                   positions: seq<Vec2>, before: seq<Vec2>, dt: real): (rs: seq<FingerResult>)
    requires |cfgs| == |fingers| == |flags| == |positions| == |before|
    ensures |rs| == |fingers|
  {
    seq(|fingers|, i requires 0 <= i < |fingers| => FingerStep(cfgs[i], fingers[i], flags[i], positions[i], before[i], dt))
  }

  /** The buttons the fingers inject, ORed slot by slot. */
  function InjectMask(rs: seq<FingerResult>): ButtonType
  {
    if rs == [] then NONE else InjectMask(rs[..|rs| - 1]) | rs[|rs| - 1].inject
  }

  /** The sticks after the swipe requests, slot by slot, each scaled to the swipe radius first. */
  function SwipeStick(rs: seq<FingerResult>, m: map<PosType, Vec2>, g: Geometry, radius: real): (r: map<PosType, Vec2>)
    ensures r.Keys == m.Keys
  {
    if rs == [] then m
    else
      var m' := SwipeStick(rs[..|rs| - 1], m, g, radius);
      match rs[|rs| - 1].swipe
      case None => m'
      case Some(req) => SetMostMap(m', req.pos, ConvMag(g, req.vector, radius), req.magnitude)
  }

  lemma InjectMaskNext(rs: seq<FingerResult>, i: nat)
    requires i < |rs|
    ensures InjectMask(rs[..i + 1]) == InjectMask(rs[..i]) | rs[i].inject
  {
    assert rs[..i + 1][..i] == rs[..i];
  }

  lemma SwipeStickNext(rs: seq<FingerResult>, i: nat, m: map<PosType, Vec2>, g: Geometry, radius: real)
    requires i < |rs|
    ensures SwipeStick(rs[..i + 1], m, g, radius)
         == match rs[i].swipe
            case None => SwipeStick(rs[..i], m, g, radius)
            case Some(req) => SetMostMap(SwipeStick(rs[..i], m, g, radius), req.pos, ConvMag(g, req.vector, radius), req.magnitude)
  {
    assert rs[..i + 1][..i] == rs[..i];
  }

  /** When every slot injects either nothing or `name`, so does the whole loop. */
  lemma {:induction false} InjectOnly(rs: seq<FingerResult>, name: ButtonType)
    requires forall k :: 0 <= k < |rs| ==> rs[k].inject == NONE || rs[k].inject == name
    ensures InjectMask(rs) == NONE || InjectMask(rs) == name
  {
    if rs != [] {
      InjectOnly(rs[..|rs| - 1], name);
    }
  }

  /** No swipe request leaves the sticks alone. */
  lemma {:induction false} NoSwipeNoStick(rs: seq<FingerResult>, m: map<PosType, Vec2>, g: Geometry, radius: real)
    requires forall k :: 0 <= k < |rs| ==> rs[k].swipe.None?
    ensures SwipeStick(rs, m, g, radius) == m
  {
    if rs != [] {
      NoSwipeNoStick(rs[..|rs| - 1], m, g, radius);
    }
  }

  /**
   * The per-finger loop of ControllerUpdate (run when something is
   * touched): every slot steps its finger, ORs its button into the mask
   * and, while swiping, merges its vector into the stick it drives.
   */
  method StepFingers(cfgs: seq<FingerConfig>, fingers: seq<Finger>, flags: seq<FingerFlags>,
                     positions: seq<Vec2>, before: seq<Vec2>, dt: real, g: Geometry, radius: real,
                     stick: StickObj)
    returns (fingers': seq<Finger>, inject: ButtonType)
    requires |cfgs| == |fingers| == |flags| == |positions| == |before|
    modifies stick
    ensures |fingers'| == |fingers|
    ensures forall k :: 0 <= k < |fingers| ==>
      fingers'[k] == Results(cfgs, fingers, flags, positions, before, dt)[k].finger
    ensures inject == InjectMask(Results(cfgs, fingers, flags, positions, before, dt))
    ensures stick.pos == SwipeStick(Results(cfgs, fingers, flags, positions, before, dt), old(stick.pos), g, radius)
  {
    ghost var rs := Results(cfgs, fingers, flags, positions, before, dt);
    fingers', inject := fingers, NONE;
    var i := 0;
    while i < |fingers|
      invariant 0 <= i <= |fingers| && |fingers'| == |fingers|
      invariant forall k :: 0 <= k < i ==> fingers'[k] == rs[k].finger
      invariant forall k :: i <= k < |fingers| ==> fingers'[k] == fingers[k]
      invariant inject == InjectMask(rs[..i])
      invariant stick.pos == SwipeStick(rs[..i], old(stick.pos), g, radius)
    {
      var r := FingerStep(cfgs[i], fingers'[i], flags[i], positions[i], before[i], dt);
      assert r == rs[i];
      InjectMaskNext(rs, i);
      SwipeStickNext(rs, i, old(stick.pos), g, radius);
      fingers' := fingers'[i := r.finger];
      inject := inject | r.inject;
      match r.swipe {
        case None =>
        case Some(req) =>
          stick.SetMost(req.pos, ConvMag(g, req.vector, radius), req.magnitude);
      }
      i := i + 1;
    }
    assert rs[..i] == rs;
  }
}
