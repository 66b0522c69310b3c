/**
 * VirtualButton: an on-screen button. Pointer events flip three flags
 * (PressFlag, clickFlag, swipeLock) according to the button's switch mode;
 * every frame Update decides what to inject into the controller from those
 * flags, and a click in Click mode injects the button directly.
 */
module VirtualButton {

  import opened Buttons
  import opened Kinds
  import opened Controller

  /** ButtonSwitch. */
  datatype SwitchMode = Normal | Toggle | Click

  datatype ButtonFlags = ButtonFlags(press: bool, click: bool, swipeLock: bool)

  /** The flags' initial values. */
  const Released: ButtonFlags := ButtonFlags(false, false, false)

  /** The pointer events the handlers answer: down, up, enter, exit and click. */
  datatype PointerEvent = Down | Up | Enter | Exit | Clicked

  /** What Update hands to the controller: a button alone, or a button with the swipe lock. */
  datatype Injection = Plain(button: ButtonType) | WithLock(button: ButtonType, lock: bool)

  /** The flags after one event in the given mode (_onDown, _onUp, _onEnter, _onExit, _onClick). */
  function Step(mode: SwitchMode, s: ButtonFlags, e: PointerEvent): ButtonFlags
  {
    match e
    case Down => ButtonFlags(!s.press, s.click || mode == Click, true)
    case Up => if mode == Toggle then s.(swipeLock := false) else ButtonFlags(false, false, false)
    case Enter => if mode == Click && s.click then s.(press := true) else s
    case Exit => if mode == Click && s.click then s.(press := false) else s
    case Clicked => if mode == Click then s.(press := false) else s
  }

  /** The flags after a sequence of events. */
  function Run(mode: SwitchMode, s: ButtonFlags, evs: seq<PointerEvent>): ButtonFlags
    decreases |evs|
  {
    if evs == [] then s else Run(mode, Step(mode, s, evs[0]), evs[1..])
  }

  /**
   * Update's decision: while pressed, NONE if the click latch is set and
   * otherwise the button with the swipe lock; while released, NONE if the
   * swipe lock is still set; otherwise nothing.
   */
  function Emission(s: ButtonFlags, pressButton: ButtonType): (r: Option<Injection>)
    ensures r == None <==> !s.press && !s.swipeLock
    ensures r == Some(WithLock(pressButton, s.swipeLock)) <==> s.press && !s.click
    ensures r == Some(Plain(NONE)) <==> (s.press && s.click) || (!s.press && s.swipeLock)
  {
    if s.press then
      if s.click then Some(Plain(NONE)) else Some(WithLock(pressButton, s.swipeLock))
    else if s.swipeLock then Some(Plain(NONE))
    else None
  }

  /** Number of Down events in a sequence. */
  function Downs(evs: seq<PointerEvent>): (n: nat)
    ensures n <= |evs|
  {
    if evs == [] then 0 else (if evs[0] == Down then 1 else 0) + Downs(evs[1..])
  }

  /** In Toggle mode only a Down changes PressFlag: it flips once per Down. */
  lemma {:induction false} ToggleParity(s: ButtonFlags, evs: seq<PointerEvent>)
    ensures Run(Toggle, s, evs).press == (s.press != (Downs(evs) % 2 == 1))
    decreases |evs|
  {
    if evs != [] {
      ToggleParity(Step(Toggle, s, evs[0]), evs[1..]);
    }
  }

  /** In Toggle mode two complete down/up cycles restore PressFlag. */
  lemma ToggleTwoCycles(s: ButtonFlags)
    ensures Run(Toggle, s, [Down, Up, Down, Up]).press == s.press
  {
    ToggleParity(s, [Down, Up, Down, Up]);
    assert Downs([Down, Up, Down, Up]) == 2 by {
      assert [Down, Up, Down, Up][1..] == [Up, Down, Up];
      assert [Up, Down, Up][1..] == [Down, Up];
      assert [Down, Up][1..] == [Up];
    }
  }

  /** In one Toggle cycle the button stays pressed after release exactly when it was released before. */
  lemma ToggleCycleFlips(s: ButtonFlags)
    ensures Run(Toggle, s, [Down, Up]).press == !s.press
    ensures !Run(Toggle, s, [Down, Up]).swipeLock
  {
    assert [Down, Up][1..] == [Up];
  }

  /** Outside Click mode the click latch never changes. */
  lemma {:induction false} ClickLatchOnlyInClickMode(mode: SwitchMode, s: ButtonFlags, evs: seq<PointerEvent>)
    requires mode != Click && !s.click
    ensures !Run(mode, s, evs).click
    decreases |evs|
  {
    if evs != [] {
      ClickLatchOnlyInClickMode(mode, Step(mode, s, evs[0]), evs[1..]);
    }
  }

  /**
   * In Click mode PressFlag is only ever set with the click latch, so Update
   * never injects the button itself: only a click does.
   */
  lemma {:induction false} ClickModeNeverHolds(s: ButtonFlags, evs: seq<PointerEvent>, pressButton: ButtonType)
    requires s.press ==> s.click
    ensures Run(Click, s, evs).press ==> Run(Click, s, evs).click
    ensures Emission(Run(Click, s, evs), pressButton) in {None, Some(Plain(NONE))}
    decreases |evs|
  {
    if evs != [] {
      ClickModeNeverHolds(Step(Click, s, evs[0]), evs[1..], pressButton);
    }
  }

  /**
   * Outside Click mode, from release: a press makes Update inject the button
   * with the swipe lock, and the release that follows leaves nothing to inject
   * in Normal mode.
   */
  lemma NormalPressAndRelease(mode: SwitchMode, s: ButtonFlags, pressButton: ButtonType)
    requires mode != Click && !s.press && !s.click
    ensures Emission(Step(mode, s, Down), pressButton) == Some(WithLock(pressButton, true))
    ensures mode == Normal ==> Emission(Run(mode, s, [Down, Up]), pressButton) == None
  {
    assert [Down, Up][1..] == [Up];
  }

  class VirtualButton {
    var pressFlag: bool
    var clickFlag: bool
    var swipeLock: bool
    const pressButton: ButtonType
    const mode: SwitchMode

    function State(): ButtonFlags
      reads this
    {
      ButtonFlags(pressFlag, clickFlag, swipeLock)
    }

    constructor (pressButton0: ButtonType, mode0: SwitchMode)
      ensures State() == Released && pressButton == pressButton0 && mode == mode0
    {
      pressFlag, clickFlag, swipeLock := false, false, false;
      pressButton, mode := pressButton0, mode0;
    }

    /** _onDown: PressFlag flips, the swipe lock is set, and Click mode latches the click. */
    method OnDown()
      modifies this
      ensures pressFlag == !old(pressFlag) && swipeLock
      ensures clickFlag == (old(clickFlag) || mode == Click)
      ensures State() == Step(mode, old(State()), Down)
    {
      pressFlag := !pressFlag;
      swipeLock := true;
      if mode == Click {
        clickFlag := true;
      }
    }

    /** _onUp: the swipe lock is released; outside Toggle mode PressFlag and the click latch are too. */
    method OnUp()
      modifies this
      ensures !swipeLock
      ensures mode == Toggle ==> pressFlag == old(pressFlag) && clickFlag == old(clickFlag)
      ensures mode != Toggle ==> !pressFlag && !clickFlag
      ensures State() == Step(mode, old(State()), Up)
    {
      swipeLock := false;
      if mode != Toggle {
        pressFlag := false;
        clickFlag := false;
      }
    }

    /** _onEnter: in Click mode with the click latched, the pointer coming back presses again. */
    method OnEnter()
      modifies this
      ensures pressFlag == (if mode == Click && clickFlag then true else old(pressFlag))
      ensures clickFlag == old(clickFlag) && swipeLock == old(swipeLock)
      ensures State() == Step(mode, old(State()), Enter)
    {
      if mode == Click && clickFlag {
        pressFlag := true;
      }
    }

    /** _onExit: in Click mode with the click latched, leaving the button releases it. */
    method OnExit()
      modifies this
      ensures pressFlag == (if mode == Click && clickFlag then false else old(pressFlag))
      ensures clickFlag == old(clickFlag) && swipeLock == old(swipeLock)
      ensures State() == Step(mode, old(State()), Exit)
    {
      if mode == Click && clickFlag {
        pressFlag := false;
      }
    }

    /** _onClick: in Click mode the button is injected into the controller and PressFlag cleared. */
    method OnClick(con: Controller)
      modifies this, con`virtualButton
      ensures mode == Click ==> con.virtualButton == Or(old(con.virtualButton), pressButton) && !pressFlag
      ensures mode != Click ==> con.virtualButton == old(con.virtualButton) && pressFlag == old(pressFlag)
      ensures State() == Step(mode, old(State()), Clicked)
    {
      if mode == Click {
        con.SetVirtualButton(pressButton);
        pressFlag := false;
      }
    }

    /** Update's injection for this frame, if any. */
    method Update() returns (inj: Option<Injection>)
      ensures inj == Emission(State(), pressButton)
      ensures inj.Some? <==> pressFlag || swipeLock
    {
      if pressFlag {
        if clickFlag {
          inj := Some(Plain(NONE));
        } else {
          inj := Some(WithLock(pressButton, swipeLock));
        }
      } else if swipeLock {
        inj := Some(Plain(NONE));
      } else {
        inj := None;
      }
    }
  }
}
