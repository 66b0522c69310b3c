/**
 * The Controller object and its per-tick update, ControllerUpdate: clear the
 * outputs, read touches or the mouse into the finger slots, step the
 * fingers, OR every binding's buttons into VirtualButton, apply the two
 * arrow rules, judge every button of the canonical list, run the two timers
 * per button into the mode masks, optionally swap the shoulder buttons, and
 * reset VirtualButton. Engine input arrives as a Frame; trigonometry as a
 * Geometry.
 */
module Controller {

  import opened Buttons
  import opened Kinds
  import opened VecComp
  import opened Comp
  import opened Stick
  import opened Touch
  import opened TouchInput
  import opened Bindings
  import opened KeyRepeat
  import opened Classify
  import opened Arrows
  import opened TickState

  /** Controller.PropertyClass (the display name aside). */
  datatype Property = Property(
    buttonZLRReverse: bool, conKeyboard: bool, multPlayKeyboard: bool, compFlag: bool,
    touchDeltaMagnitude: real, touchRotReverseComp: Vec2, rotReverseComp: Vec2,
    touchButtonFlag: bool, touchesButtonName: seq<ButtonType>, touchesButtonMode: seq<ButtonMode>,
    touchVectorMode: seq<PosType>,
    arrowToMove: bool, arrowKeyStrange: real, moveToArrow: bool, moveArrowDead: real,
    swipeDead: real, swipeMaxRadius: real)

  /** The per-finger settings are arrays of USE_TOUCHESCOUNT entries. */
  predicate PropertyValid(p: Property)
  {
    |p.touchesButtonName| == Slots && |p.touchesButtonMode| == Slots && |p.touchVectorMode| == Slots
  }

  /** The field initialisers of PropertyClass. */
  const DefaultProperty: Property := Property(
    false, true, false, true,
    5.0, Vec2(1.0, 1.0), Vec2(1.0, -1.0),
    true, [A, NONE, NONE], [Click, Press, Press],
    [PosMove, PosRot, PosCenter],
    true, 1.0, true, 0.3,
    20.0, 40.0)

  /** What slot i of the per-finger loop reads from the properties. */
  function FingerConfigs(p: Property): (cfgs: seq<FingerConfig>)
    requires PropertyValid(p)
    ensures |cfgs| == Slots
  {
    seq(Slots, i requires 0 <= i < Slots =>
      FingerConfig(p.touchButtonFlag, p.touchesButtonName[i], p.touchesButtonMode[i], p.touchVectorMode[i],
                   p.swipeDead, p.touchRotReverseComp, p.touchDeltaMagnitude))
  }

  /**
   * With the default properties only the first finger has a tap button: A,
   * in Click mode, so the fingers inject A exactly when the first finger is
   * released without having become a swipe.
   */
  lemma DefaultTapIsClick(fingers: seq<Finger>, flags: seq<FingerFlags>, positions: seq<Vec2>,
                          before: seq<Vec2>, dt: real)
    requires |fingers| == Slots && |flags| == Slots && |positions| == Slots && |before| == Slots
    ensures var cfgs := FingerConfigs(DefaultProperty);
      InjectMask(Results(cfgs, fingers, flags, positions, before, dt))
        == if flags[0].up && !SwipeAfterPress(cfgs[0], fingers[0], flags[0], positions[0]) then A else NONE
  {
    var cfgs := FingerConfigs(DefaultProperty);
    var rs := Results(cfgs, fingers, flags, positions, before, dt);
    assert cfgs[0].buttonMode == Click && cfgs[0].buttonName == A && cfgs[0].buttonFlag;
    ClickNeedsNoSwipe(cfgs[0], fingers[0], flags[0], positions[0], before[0], dt);
    assert rs[1].inject == NONE && rs[2].inject == NONE;
    assert rs[..1][..0] == [] && rs[..2][..1] == rs[..1] && rs[..3][..2] == rs[..2] && rs[..3] == rs;
    assert InjectMask(rs[..1]) == rs[0].inject;
  }

  /** One tick of engine input. Mouse button i and binding i are read through functions. */
  datatype Frame = Frame(
    touchSupported: bool, touches: seq<TouchSample>, mousePosition: Vec2,
    mouseButton: int -> FingerFlags, read: int -> Reading, dt: real)

  // ---------------------------------------------------------------------
  // The bindings loop

  /** ConObj.joysticks: the five joystick axis-name prefixes. */
  const JoystickSlots := 5

  /** The stick dictionary after PosClear: the five keys, each at zero. */
  const ZeroSticks: map<PosType, Vec2> := map k | k in StickKeys :: Zero2

  /** Bitwise OR behind a function, so that folds stay cheap to reason about. */
  function Or(x: ButtonType, y: ButtonType): (r: ButtonType)
  {
    x | y
  }

  /** The buttons of the first n bindings, ORed. */
  function BindingsMask(bs: seq<ConObj>, parent: Parent, comp: ConTable, keyToCon: bool,
                        read: int -> Reading, n: nat): ButtonType
    requires n <= |bs|
  {
    if n == 0 then NONE
    else Or(BindingsMask(bs, parent, comp, keyToCon, read, n - 1), ButtonOf(bs[n - 1], parent, comp, keyToCon, read(n - 1)))
  }

  /** The sticks after the first n bindings. */
  function BindingsStick(bs: seq<ConObj>, parent: Parent, comp: ConTable, read: int -> Reading,
                         m: map<PosType, Vec2>, n: nat): (r: map<PosType, Vec2>)
    requires n <= |bs| && m.Keys == StickKeys
    ensures r.Keys == StickKeys
  {
    if n == 0 then m
    else StickAfter(bs[n - 1], parent, comp, read(n - 1), BindingsStick(bs, parent, comp, read, m, n - 1))
  }

  /** `x & y == y`: every bit of y is in x. */
  predicate Covers(x: ButtonType, y: ButtonType)
  {
    x & y == y
  }

  lemma CoversOrRight(x: ButtonType, y: ButtonType)
    ensures Covers(Or(x, y), y)
  {}

  lemma CoversOrLeft(x: ButtonType, y: ButtonType)
    ensures Covers(Or(x, y), x)
  {}

  lemma CoversGrow(x: ButtonType, a: ButtonType, y: ButtonType)
    requires Covers(x, y)
    ensures Covers(Or(x, a), y)
  {}

  lemma CoversRefl(x: ButtonType)
    ensures Covers(x, x)
  {}

  lemma OrNone(x: ButtonType)
    ensures Or(x, NONE) == x
  {}

  lemma CoversTrans(x: ButtonType, y: ButtonType, z: ButtonType)
    requires Covers(x, y) && Covers(y, z)
    ensures Covers(x, z)
  {}

  /** Every binding that fires has all its button bits in the ORed mask. */
  lemma {:induction false} BindingFires(bs: seq<ConObj>, parent: Parent, comp: ConTable, keyToCon: bool,
                                         read: int -> Reading, n: nat, k: nat)
    requires k < n <= |bs|
    ensures Covers(BindingsMask(bs, parent, comp, keyToCon, read, n), ButtonOf(bs[k], parent, comp, keyToCon, read(k)))
  {
    var prev := BindingsMask(bs, parent, comp, keyToCon, read, n - 1);
    var b := ButtonOf(bs[n - 1], parent, comp, keyToCon, read(n - 1));
    if k == n - 1 {
      CoversOrRight(prev, b);
    } else {
      BindingFires(bs, parent, comp, keyToCon, read, n - 1, k);
      CoversGrow(prev, b, ButtonOf(bs[k], parent, comp, keyToCon, read(k)));
    }
  }

  lemma BindingsMaskNext(bs: seq<ConObj>, parent: Parent, comp: ConTable, keyToCon: bool,
                         read: int -> Reading, i: nat)
    requires i < |bs|
    ensures BindingsMask(bs, parent, comp, keyToCon, read, i + 1)
         == Or(BindingsMask(bs, parent, comp, keyToCon, read, i), ButtonOf(bs[i], parent, comp, keyToCon, read(i)))
  {}

  lemma BindingsStickNext(bs: seq<ConObj>, parent: Parent, comp: ConTable, read: int -> Reading,
                          m: map<PosType, Vec2>, i: nat)
    requires i < |bs| && m.Keys == StickKeys
    ensures BindingsStick(bs, parent, comp, read, m, i + 1)
         == StickAfter(bs[i], parent, comp, read(i), BindingsStick(bs, parent, comp, read, m, i))
  {}

  /** One pass of the bindings loop: binding i's UpdateButton, its button ORed into the mask. */
  method ApplyBinding(bs: seq<ConObj>, parent: Parent, comp: ConTable, keyToCon: bool,
                      read: int -> Reading, stick: StickObj, i: nat, mask: ButtonType, ghost m: map<PosType, Vec2>)
    returns (mask': ButtonType)
    requires i < |bs| && m.Keys == StickKeys
    requires mask == BindingsMask(bs, parent, comp, keyToCon, read, i)
    requires stick.pos == BindingsStick(bs, parent, comp, read, m, i)
    modifies stick
    ensures mask' == BindingsMask(bs, parent, comp, keyToCon, read, i + 1)
    ensures stick.pos == BindingsStick(bs, parent, comp, read, m, i + 1)
  {
    var b := UpdateButton(bs[i], parent, comp, keyToCon, read(i), stick);
    BindingsMaskNext(bs, parent, comp, keyToCon, read, i);
    BindingsStickNext(bs, parent, comp, read, m, i);
    mask' := Or(mask, b);
  }

  /** The bindings loop of ControllerUpdate: each ConObj.UpdateButton in list order. */
  method ApplyBindings(bs: seq<ConObj>, parent: Parent, comp: ConTable, keyToCon: bool,
                       read: int -> Reading, stick: StickObj)
    returns (mask: ButtonType)
    requires stick.pos.Keys == StickKeys
    modifies stick
    ensures mask == BindingsMask(bs, parent, comp, keyToCon, read, |bs|)
    ensures stick.pos == BindingsStick(bs, parent, comp, read, old(stick.pos), |bs|)
  {
    ghost var m0 := stick.pos;
    mask := NONE;
    for i := 0 to |bs|
      invariant mask == BindingsMask(bs, parent, comp, keyToCon, read, i)
      invariant stick.pos == BindingsStick(bs, parent, comp, read, m0, i)
    {
      mask := ApplyBinding(bs, parent, comp, keyToCon, read, stick, i, mask, m0);
    }
  }

  // ---------------------------------------------------------------------
  // The input half of a tick, on values

  /** VirtualButton and the stick dictionary between two stages of a tick. */
  datatype Composed = Composed(vb: ButtonType, pos: map<PosType, Vec2>)

  /**
   * The two arrow rules: when some arrow is held and ArrowToMove is on, the
   * held arrows are merged into Move and Rot on the unit circle; then, when
   * MoveToArrow is on, the (new) Move and Rot headings add their arrows.
   */
  function ArrowRules(p: Property, yreverse: bool, g: Geometry, vb: ButtonType, pos: map<PosType, Vec2>): (r: Composed)
    requires pos.Keys == StickKeys
    ensures r.pos.Keys == StickKeys
    ensures Covers(r.vb, vb)
    ensures !p.moveToArrow ==> r.vb == vb
    ensures !(Has(vb, ANY_ARROW) && p.arrowToMove) ==> r.pos == pos
  {
    var srg := p.arrowKeyStrange;
    var pos1 := if Has(vb, ANY_ARROW) && p.arrowToMove
                then pos[PosMove := SetCurcler(g, pos[PosMove], ArrowVector(vb, MoveArrows, srg, yreverse))]
                        [PosRot := SetCurcler(g, pos[PosRot], ArrowVector(vb, RotArrows, srg, yreverse))]
                else pos;
    var smov, srot := pos1[PosMove], pos1[PosRot];
    var mov := ArrowsFromStick(smov, g.heading(smov), p.moveArrowDead, MoveArrows, yreverse);
    var rot := ArrowsFromStick(srot, g.heading(srot), p.moveArrowDead, RotArrows, yreverse);
    CoversOrLeft(vb, mov);
    CoversOrLeft(Or(vb, mov), rot);
    CoversTrans(Or(Or(vb, mov), rot), Or(vb, mov), vb);
    CoversRefl(vb);
    Composed(if p.moveToArrow then Or(Or(vb, mov), rot) else vb, pos1)
  }

  /** Last tick's finger vectors become this tick's "before" vectors. */
  function Remembered(fs: seq<Finger>): (r: seq<Finger>)
    ensures |r| == |fs|
    ensures forall k :: 0 <= k < |fs| ==> r[k] == fs[k].(beforeVector := fs[k].vector)
  {
    seq(|fs|, k requires 0 <= k < |fs| => fs[k].(beforeVector := fs[k].vector))
  }

  /** The fingers after the per-finger loop, which runs only when some slot is pressed. */
  function FingersAfter(p: Property, frame: Frame, fingers: seq<Finger>, flags: seq<FingerFlags>,
                        positions: seq<Vec2>, before: seq<Vec2>, touched: bool): (r: seq<Finger>)
    requires PropertyValid(p)
    requires |fingers| == Slots && |flags| == Slots && |positions| == Slots && |before| == Slots
    ensures |r| == Slots
    ensures !touched ==> r == fingers
  {
    var rs := Results(FingerConfigs(p), fingers, flags, positions, before, frame.dt);
    if touched then seq(Slots, k requires 0 <= k < Slots => rs[k].finger) else fingers
  }

  /** VirtualButton and the sticks after the per-finger loop: tap buttons ORed in, swipes merged. */
  function FingerInput(p: Property, g: Geometry, frame: Frame, vb: ButtonType, pos: map<PosType, Vec2>,
                       fingers: seq<Finger>, flags: seq<FingerFlags>, positions: seq<Vec2>, before: seq<Vec2>,
                       touched: bool): (r: Composed)
    requires PropertyValid(p) && pos.Keys == StickKeys
    requires |fingers| == Slots && |flags| == Slots && |positions| == Slots && |before| == Slots
    ensures r.pos.Keys == StickKeys
    ensures Covers(r.vb, vb)
    ensures !touched ==> r == Composed(vb, pos)
  {
    var rs := Results(FingerConfigs(p), fingers, flags, positions, before, frame.dt);
    CoversOrLeft(vb, InjectMask(rs));
    CoversRefl(vb);
    if touched then Composed(Or(vb, InjectMask(rs)), SwipeStick(rs, pos, g, p.swipeMaxRadius))
    else Composed(vb, pos)
  }

  /** VirtualButton and the sticks after the bindings loop. */
  function BindingInput(bs: seq<ConObj>, parent: Parent, comp: ConTable, keyToCon: bool, read: int -> Reading,
                        c: Composed): (r: Composed)
    requires c.pos.Keys == StickKeys
    ensures r.pos.Keys == StickKeys
    ensures Covers(r.vb, c.vb) && Covers(r.vb, BindingsMask(bs, parent, comp, keyToCon, read, |bs|))
  {
    var bound := BindingsMask(bs, parent, comp, keyToCon, read, |bs|);
    CoversOrLeft(c.vb, bound);
    CoversOrRight(c.vb, bound);
    Composed(Or(c.vb, bound), BindingsStick(bs, parent, comp, read, c.pos, |bs|))
  }

  /**
   * The input half of an active tick, from VirtualButton `vb` and the
   * sticks `pos` as the tick found them and the slots it read: the finger
   * loop, the bindings loop in list order, then the arrow rules.
   */
  function TickInput(p: Property, yreverse: bool, g: Geometry, bs: seq<ConObj>, parent: Parent, comp: ConTable,
                     frame: Frame, vb: ButtonType, pos: map<PosType, Vec2>,
                     fingers: seq<Finger>, flags: seq<FingerFlags>, positions: seq<Vec2>, before: seq<Vec2>,
                     touched: bool): (r: Composed)
    requires PropertyValid(p) && pos.Keys == StickKeys
    requires |fingers| == Slots && |flags| == Slots && |positions| == Slots && |before| == Slots
    ensures r.pos.Keys == StickKeys
    ensures Covers(r.vb, vb)
    ensures Covers(r.vb, BindingsMask(bs, parent, comp, p.conKeyboard, frame.read, |bs|))
  {
    var c1 := FingerInput(p, g, frame, vb, pos, fingers, flags, positions, before, touched);
    var c2 := BindingInput(bs, parent, comp, p.conKeyboard, frame.read, c1);
    var r := ArrowRules(p, yreverse, g, c2.vb, c2.pos);
    CoversTrans(c2.vb, c1.vb, vb);
    CoversTrans(r.vb, c2.vb, vb);
    CoversTrans(r.vb, c2.vb, BindingsMask(bs, parent, comp, p.conKeyboard, frame.read, |bs|));
    r
  }

  // ---------------------------------------------------------------------
  // The classification outcome

  /**
   * A low button injected with SetVirtualButton before the tick is held in
   * that tick and its Press bit is set (unless the shoulder swap moves it).
   */
  lemma InjectedIsPressed(injected: ButtonType, judged: ButtonType, reps: seq<Timer>, longs: seq<Timer>,
                          dt: real, i: nat)
    requires Covers(judged, injected) && i < |LowButtons| && Has(injected, ButtonList[i])
    requires |reps| == |ButtonList| && |longs| == |ButtonList|
    ensures Judged(judged)[i]
    ensures Has(TickMasks(false, Judged(judged), reps, longs, dt).press, ButtonList[i])
  {
    CoversHas(judged, injected, ButtonList[i]);
    JudgedBits(judged, i);
    PressFollowsMask(judged, reps, longs, dt, i);
  }

  lemma CoversHas(x: ButtonType, y: ButtonType, q: ButtonType)
    requires Covers(x, y) && Has(y, q)
    ensures Has(x, q)
  {}

  /** The shift counts of the four shoulder buttons. */
  lemma BitNumberOfShoulders()
    ensures BitNumber(L) == 8 && BitNumber(ZL) == 10 && BitNumber(R) == 9 && BitNumber(ZR) == 11
  {
    Log2FloorOfShoulders();
  }

  /** The shift count KeySwapLocal computes, (int)Math.Truncate(Math.Log(b, 2)): the highest set bit. */
  function BitNumber(b: ButtonType): (n: bv5)
    requires 0 < b as int < 0x8000_0000
    ensures Pow2(n as int) <= b as int < 2 * Pow2(n as int)
  {
    Log2Below32(b);
    var k := Log2Floor(b as int);
    assert (k as bv5) as int == k;
    k as bv5
  }

  // ---------------------------------------------------------------------
  // The controller

  class Controller {
    var active: bool
    var property: Property
    /** The static Controller.Yreverse (default true). */
    var yreverse: bool
    var joystickID: int
    var conType: ConType
    var sysConType: ConType
    /** m_controller: the installed bindings. */
    var bindings: seq<ConObj>
    var fingerLock: set<int>
    var virtualButton: ButtonType
    /** btnlist, aligned with ButtonList. */
    var btnlist: seq<bool>
    /** Repeat and LongRepeat, aligned with ButtonList. */
    var repeat: seq<Timer>
    var longRepeat: seq<Timer>
    var button: Masks
    /** TouchesPosition, TouchesBeforePosition and the per-slot Press/Down/Up flags. */
    var positions: seq<Vec2>
    var beforePositions: seq<Vec2>
    var flags: seq<FingerFlags>
    /** The remaining per-slot arrays (time, swipe mode, down/up positions, vectors). */
    var fingers: seq<Finger>
    var touchedPress: bool
    var touchedDown: bool
    var touchedUp: bool
    const stick: StickObj
    /** The VirtualButton value the last full tick judged. */
    ghost var judged: ButtonType

    ghost predicate Valid()
      reads this, stick
    {
      Shaped(btnlist, repeat, longRepeat, positions, beforePositions, flags, fingers,
             property.touchesButtonName, property.touchesButtonMode, property.touchVectorMode, stick.pos)
    }

    function Parent(): Parent
      reads this`joystickID, this`property, this`sysConType
    {
      Bindings.Parent(joystickID, property.compFlag, property.multPlayKeyboard, sysConType)
    }

    /**
     * The JoystickID setter: an id is taken only when it is below the number
     * of joystick axis prefixes and at most the number of connected joystick
     * names (`names`); otherwise the current id stays.
     */
    method SetJoystickID(value: int, names: nat)
      modifies this`joystickID
      ensures joystickID == if value < JoystickSlots && value <= names then value else old(joystickID)
    {
      if value < JoystickSlots && value <= names {
        joystickID := value;
      }
    }

    /**
     * Controller.Create: field initialisers (joystick id 0), the joystick id
     * through its setter, the bindings of the requested type (BuildOfType)
     * and btnlist all false. The outcome of the two auto-detection patterns
     * and the number of connected joystick names are passed in.
     */
    constructor (cat: Catalog, contype: ConType, joystickID0: int, names: nat, androidMatch: bool, switchMatch: bool)
      ensures Valid() && fresh(stick)
      ensures active && yreverse && property == DefaultProperty
      ensures joystickID == if joystickID0 < JoystickSlots && joystickID0 <= names then joystickID0 else 0
      ensures conType == contype && sysConType == (if contype == Default then ResolveDefault(androidMatch, switchMatch) else contype)
      ensures bindings == BuildList(cat, sysConType)
      ensures virtualButton == NONE && btnlist == NoneHeld && button == NoMasks && fingerLock == {}
      ensures repeat == seq(|ButtonList|, _ => Initial(RepeatConfig))
      ensures longRepeat == seq(|ButtonList|, _ => Initial(LongConfig))
    {
      active, yreverse, property := true, true, DefaultProperty;
      joystickID := if joystickID0 < JoystickSlots && joystickID0 <= names then joystickID0 else 0;
      var t := if contype == Default then ResolveDefault(androidMatch, switchMatch) else contype;
      conType, sysConType, bindings := contype, t, BuildList(cat, t);
      fingerLock, virtualButton, btnlist, button := {}, NONE, NoneHeld, NoMasks;
      repeat := seq(|ButtonList|, _ => Initial(RepeatConfig));
      longRepeat := seq(|ButtonList|, _ => Initial(LongConfig));
      positions, beforePositions, flags := [Zero2, Zero2, Zero2], [Zero2, Zero2, Zero2], NoSlotFlags;
      var f := Finger(0.0, false, Zero2, Zero2, Zero2, Zero2, Zero2);
      fingers := [f, f, f];
      touchedPress, touchedDown, touchedUp := false, false, false;
      stick := new StickObj();
      judged := NONE;
    }

    /**
     * BuildOfType: Default resolves through auto-detection (Xinput when no
     * pattern matches) and remembers Default as the type; the bindings are
     * the resolved type's template list.
     */
    method BuildOfType(cat: Catalog, contype: ConType, androidMatch: bool, switchMatch: bool)
      modifies this`bindings, this`conType, this`sysConType
      ensures var t := if contype == Default then ResolveDefault(androidMatch, switchMatch) else contype;
        sysConType == t && bindings == BuildList(cat, t) && conType == contype
    {
      var t := contype;
      if contype == Default {
        t := ResolveDefault(androidMatch, switchMatch);
      }
      conType, sysConType := t, t;
      bindings := BuildList(cat, t);
      if contype == Default {
        conType := Default;
      }
    }

    /** SetVirtualButton ORs into the mask, so injecting NONE changes nothing. */
    method SetVirtualButton(btn: ButtonType)
      modifies this`virtualButton
      ensures virtualButton == Or(old(virtualButton), btn)
      ensures Covers(virtualButton, old(virtualButton)) && Covers(virtualButton, btn)
      ensures btn == NONE ==> virtualButton == old(virtualButton)
    {
      CoversOrLeft(virtualButton, btn);
      CoversOrRight(virtualButton, btn);
      OrNone(virtualButton);
      virtualButton := Or(virtualButton, btn);
    }

    /** SetFingerLock: a locked finger is skipped when touches fill the slots. */
    method SetFingerLock(fingerID: int)
      modifies this`fingerLock
      ensures fingerLock == old(fingerLock) + {fingerID}
    {
      if fingerID !in fingerLock {
        fingerLock := fingerLock + {fingerID};
      }
    }

    method SetFingerUnLock(fingerID: int)
      modifies this`fingerLock
      ensures fingerLock == old(fingerLock) - {fingerID}
    {
      fingerLock := fingerLock - {fingerID};
    }

    /**
     * KeySwapLocal: swap (or copy) two buttons in the Press, Repeat, Down and
     * Up masks, then overwrite each Delay mask with the swapped non-Delay
     * mask swapped once more. The bit numbers are the highest set bits of
     * the two codes, which must be positive as C# ints.
     */
    method KeySwapLocal(b1: ButtonType, b2: ButtonType, oneway: bool)
      requires 0 < b1 as int < 0x8000_0000 && 0 < b2 as int < 0x8000_0000
      modifies this`button
      ensures button == SwapLocal(old(button), BitNumber(b1), BitNumber(b2), oneway)
    {
      var num1, num2 := BitNumber(b1), BitNumber(b2);
      var press := KeySwap(button.press, num1, num2, oneway);
      var repeat := KeySwap(button.repeat, num1, num2, oneway);
      var down := KeySwap(button.down, num1, num2, oneway);
      var up := KeySwap(button.up, num1, num2, oneway);
      button := button.(press := press, repeat := repeat, down := down, up := up);
      button := button.(delay := KeySwap(button.press, num1, num2, oneway),
                        delayRepeat := KeySwap(button.repeat, num1, num2, oneway),
                        delayDown := KeySwap(button.down, num1, num2, oneway),
                        delayUp := KeySwap(button.up, num1, num2, oneway));
    }

    /** Every output of a tick at rest: nothing held, no mode bit, no slot flag, every stick at zero. */
    ghost predicate Cleared()
      reads this, stick
    {
      AtRest(btnlist, button, flags, touchedPress, touchedDown, touchedUp, stick.pos)
    }

    /** What the judging half of an active tick leaves, from timers `reps` and `longs`. */
    ghost predicate TickJudged(reps: seq<Timer>, longs: seq<Timer>, dt: real)
      reads this
    {
      Judgement(judged, btnlist, repeat, longRepeat, button, virtualButton, property.buttonZLRReverse, reps, longs, dt)
    }

    /** The opening of ControllerUpdate: every output cleared, active or not. */
    method Clear()
      requires Valid()
      modifies this`btnlist, this`button, this`flags, this`touchedPress, this`touchedDown, this`touchedUp, stick
      ensures Valid() && Cleared() && stick.pos == ZeroSticks
      ensures unchanged(this`repeat, this`longRepeat, this`virtualButton, this`fingers, this`positions)
    {
      btnlist := NoneHeld;
      button := NoMasks;
      stick.PosClear();
      flags := NoSlotFlags;
      touchedPress, touchedDown, touchedUp := false, false, false;
    }

    /** Reading the slots: the touch branch when touches exist, else the mouse unless finger -1 is locked. */
    method ReadSlots(frame: Frame)
      requires Valid() && flags == NoSlotFlags && !touchedDown
      modifies this`positions, this`flags, this`touchedDown
      ensures Valid()
      ensures frame.touchSupported && |frame.touches| > 0 ==>
        && !touchedDown
        && (forall k :: 0 <= k < Slots && k < |Unlocked(frame.touches, fingerLock)| ==>
              positions[k] == Unlocked(frame.touches, fingerLock)[k].position
              && flags[k] == PhaseFlags(Unlocked(frame.touches, fingerLock)[k].phase))
        && (forall k :: |Unlocked(frame.touches, fingerLock)| <= k < Slots ==>
              positions[k] == old(positions)[k] && flags[k] == NoFlags)
      ensures !(frame.touchSupported && |frame.touches| > 0) && -1 !in fingerLock ==>
        && (forall k :: 0 <= k < Slots ==> positions[k] == frame.mousePosition && flags[k] == frame.mouseButton(k))
        && touchedDown == (frame.mouseButton(0).down || frame.mouseButton(1).down || frame.mouseButton(2).down)
      ensures !(frame.touchSupported && |frame.touches| > 0) && -1 in fingerLock ==>
        positions == old(positions) && flags == NoSlotFlags && !touchedDown
    {
      if frame.touchSupported && |frame.touches| > 0 {
        positions, flags := ReadTouches(frame.touches, fingerLock, positions);
      } else if -1 !in fingerLock {
        positions, flags, touchedDown := ReadMouse(frame.mousePosition, frame.mouseButton);
      }
    }

    /** Last tick's positions and finger vectors become this tick's "before" values. */
    method Remember()
      requires Valid()
      modifies this`beforePositions, this`fingers
      ensures Valid()
      ensures beforePositions == old(positions)
      ensures fingers == Remembered(old(fingers))
    {
      beforePositions := positions;
      fingers := Remembered(fingers);
    }

    /** TouchedPress and TouchedUp: some slot is pressed, some slot is released. */
    method Summarise()
      requires Valid()
      modifies this`touchedPress, this`touchedUp
      ensures Valid()
      ensures touchedPress == (exists k :: 0 <= k < Slots && flags[k].press)
      ensures touchedUp == (exists k :: 0 <= k < Slots && flags[k].up)
    {
      touchedPress, touchedUp := TouchedAny(flags);
    }

    /**
     * The reading half of an active tick: remember last tick's positions and
     * vectors, read the slots, and summarise them in TouchedPress/TouchedUp.
     */
    method ReadStage(frame: Frame)
      requires Valid() && flags == NoSlotFlags && !touchedDown
      modifies this`beforePositions, this`fingers, this`positions, this`flags,
               this`touchedDown, this`touchedPress, this`touchedUp
      ensures Valid()
      ensures beforePositions == old(positions)
      ensures fingers == Remembered(old(fingers))
      ensures touchedPress == (exists k :: 0 <= k < Slots && flags[k].press)
      ensures touchedUp == (exists k :: 0 <= k < Slots && flags[k].up)
      ensures frame.touchSupported && |frame.touches| > 0 ==>
        !touchedDown && touchedPress == (|Unlocked(frame.touches, fingerLock)| > 0)
    {
      Remember();
      ReadSlots(frame);
      Summarise();
      if frame.touchSupported && |frame.touches| > 0 {
        TouchedIffUnlocked(frame.touches, fingerLock, flags);
      }
    }

    /** The per-finger loop, run only when some slot is pressed; its tap buttons are ORed into VirtualButton. */
    method FingerStage(frame: Frame, g: Geometry)
      requires Valid()
      modifies this`fingers, this`virtualButton, stick
      ensures Valid()
      ensures fingers == FingersAfter(property, frame, old(fingers), flags, positions, beforePositions, touchedPress)
      ensures Composed(virtualButton, stick.pos)
           == FingerInput(property, g, frame, old(virtualButton), old(stick.pos), old(fingers), flags, positions, beforePositions, touchedPress)
    {
      if touchedPress {
        var inject;
        fingers, inject := StepFingers(FingerConfigs(property), fingers, flags, positions, beforePositions,
                                       frame.dt, g, property.swipeMaxRadius, stick);
        virtualButton := Or(virtualButton, inject);
      }
    }

    /** The bindings loop; every binding's button is ORed into VirtualButton. */
    method BindingStage(frame: Frame, comp: ConTable)
      requires Valid()
      modifies this`virtualButton, stick
      ensures Valid()
      ensures Composed(virtualButton, stick.pos)
           == BindingInput(bindings, Parent(), comp, property.conKeyboard, frame.read, Composed(old(virtualButton), old(stick.pos)))
    {
      var bound := ApplyBindings(bindings, Parent(), comp, property.conKeyboard, frame.read, stick);
      virtualButton := Or(virtualButton, bound);
    }

    /** MoveToArrow: arrows from the Move and Rot headings. */
    method MoveToArrow(g: Geometry)
      requires Valid()
      modifies this`virtualButton
      ensures var smov, srot := stick.pos[PosMove], stick.pos[PosRot];
        virtualButton == Or(Or(old(virtualButton),
                               ArrowsFromStick(smov, g.heading(smov), property.moveArrowDead, MoveArrows, yreverse)),
                            ArrowsFromStick(srot, g.heading(srot), property.moveArrowDead, RotArrows, yreverse))
      ensures Covers(virtualButton, old(virtualButton))
    {
      var smov := stick.pos[PosMove];
      var mov := ArrowsFromStick(smov, g.heading(smov), property.moveArrowDead, MoveArrows, yreverse);
      CoversOrLeft(virtualButton, mov);
      virtualButton := Or(virtualButton, mov);
      var srot := stick.pos[PosRot];
      var rot := ArrowsFromStick(srot, g.heading(srot), property.moveArrowDead, RotArrows, yreverse);
      CoversOrLeft(virtualButton, rot);
      CoversTrans(Or(virtualButton, rot), virtualButton, old(virtualButton));
      virtualButton := Or(virtualButton, rot);
    }

    /** ArrowToMove: the held arrows, merged with each stick and converted to the unit circle. */
    method ArrowToMove(g: Geometry)
      requires Valid()
      modifies stick
      ensures Valid()
      ensures var srg := property.arrowKeyStrange;
        stick.pos == old(stick.pos)[PosMove := SetCurcler(g, old(stick.pos)[PosMove], ArrowVector(virtualButton, MoveArrows, srg, yreverse))]
                                   [PosRot := SetCurcler(g, old(stick.pos)[PosRot], ArrowVector(virtualButton, RotArrows, srg, yreverse))]
    {
      var srg := property.arrowKeyStrange;
      stick.Assign(PosMove, SetCurcler(g, stick.pos[PosMove], ArrowVector(virtualButton, MoveArrows, srg, yreverse)));
      stick.Assign(PosRot, SetCurcler(g, stick.pos[PosRot], ArrowVector(virtualButton, RotArrows, srg, yreverse)));
    }

    /** The two arrow rules, each behind its property switch (ArrowToMove also needs a held arrow). */
    method ArrowStage(g: Geometry)
      requires Valid()
      modifies this`virtualButton, stick
      ensures Valid()
      ensures virtualButton == ArrowRules(property, yreverse, g, old(virtualButton), old(stick.pos)).vb
      ensures stick.pos == ArrowRules(property, yreverse, g, old(virtualButton), old(stick.pos)).pos
    {
      if Has(virtualButton, ANY_ARROW) && property.arrowToMove {
        ArrowToMove(g);
      }
      if property.moveToArrow {
        MoveToArrow(g);
      }
    }

    /** Judge every button of the list against VirtualButton. */
    method JudgeStage()
      requires Valid()
      modifies this`judged, this`btnlist
      ensures Valid()
      ensures judged == virtualButton && btnlist == Judged(judged)
    {
      judged := virtualButton;
      btnlist := JudgeAll(virtualButton);
    }

    /** Step both timers of every button into the mode masks. */
    method ClassifyStage(dt: real)
      requires Valid()
      modifies this`button, this`repeat, this`longRepeat
      ensures Valid()
      ensures repeat == Stepped(RepeatConfig, old(repeat), btnlist, dt)
      ensures longRepeat == Stepped(LongConfig, old(longRepeat), btnlist, dt)
      ensures button == Classified(ButtonList, TickFlags(btnlist, old(repeat), old(longRepeat), dt), |ButtonList|)
    {
      button, repeat, longRepeat := ClassifyAll(btnlist, repeat, longRepeat, dt);
    }

    /** ButtonZLRReverse: swap L with ZL and R with ZR in the masks. */
    method ShoulderStage()
      requires Valid()
      modifies this`button
      ensures Valid()
      ensures button == if property.buttonZLRReverse then ShoulderSwap(old(button)) else old(button)
    {
      if property.buttonZLRReverse {
        BitNumberOfShoulders();
        KeySwapLocal(L, ZL, false);
        KeySwapLocal(R, ZR, false);
      }
    }

    /**
     * The input half of an active tick: read the slots, step the fingers,
     * run the bindings and the arrow rules. VirtualButton only gains bits.
     */
    method InputStage(frame: Frame, g: Geometry, comp: ConTable)
      requires Valid() && flags == NoSlotFlags && !touchedDown
      modifies this`positions, this`beforePositions, this`fingers, this`flags,
               this`touchedPress, this`touchedDown, this`touchedUp, this`virtualButton, stick
      ensures Valid()
      ensures fingers == FingersAfter(property, frame, Remembered(old(fingers)), flags, positions, beforePositions, touchedPress)
      ensures var r := TickInput(property, yreverse, g, bindings, Parent(), comp, frame, old(virtualButton), old(stick.pos),
                                 Remembered(old(fingers)), flags, positions, beforePositions, touchedPress);
        virtualButton == r.vb && stick.pos == r.pos
    {
      ReadStage(frame);
      ghost var c0 := Composed(virtualButton, stick.pos);
      FingerStage(frame, g);
      ghost var c1 := Composed(virtualButton, stick.pos);
      assert c1 == FingerInput(property, g, frame, c0.vb, c0.pos, Remembered(old(fingers)), flags, positions, beforePositions, touchedPress);
      BindingStage(frame, comp);
      ghost var c2 := Composed(virtualButton, stick.pos);
      assert c2 == BindingInput(bindings, Parent(), comp, property.conKeyboard, frame.read, c1);
      ArrowStage(g);
    }

    /** RotReverseComp flips the Rot stick; VirtualButton is reset for the next tick. */
    method Finish()
      requires Valid()
      modifies this`virtualButton, stick
      ensures Valid()
      ensures stick.pos == old(stick.pos)[PosRot := ScaledBy(old(stick.pos)[PosRot], property.rotReverseComp)]
      ensures virtualButton == NONE
    {
      stick.ScaleKey(PosRot, property.rotReverseComp);
      virtualButton := NONE;
    }

    /**
     * The output half of an active tick: judge every button, step the timers
     * into the mode masks, swap the shoulders if asked, flip the Rot stick
     * and reset VirtualButton.
     */
    method OutputStage(dt: real)
      requires Valid()
      modifies this`judged, this`btnlist, this`button, this`repeat, this`longRepeat, this`virtualButton, stick
      ensures Valid()
      ensures judged == old(virtualButton)
      ensures TickJudged(old(repeat), old(longRepeat), dt)
      ensures stick.pos == old(stick.pos)[PosRot := ScaledBy(old(stick.pos)[PosRot], property.rotReverseComp)]
    {
      JudgeStage();
      ClassifyStage(dt);
      ShoulderStage();
      Finish();
    }

    /** An active tick after the clear: the input half, then the judging half. */
    method ActiveTick(frame: Frame, g: Geometry, comp: ConTable)
      requires Valid() && flags == NoSlotFlags && !touchedDown
      modifies this`btnlist, this`button, this`flags, this`touchedPress, this`touchedDown, this`touchedUp,
               this`positions, this`beforePositions, this`fingers, this`virtualButton,
               this`repeat, this`longRepeat, this`judged, stick
      ensures Valid()
      ensures TickJudged(old(repeat), old(longRepeat), frame.dt)
      ensures Covers(judged, old(virtualButton))
      ensures Covers(judged, BindingsMask(bindings, Parent(), comp, property.conKeyboard, frame.read, |bindings|))
    {
      InputStage(frame, g, comp);
      OutputStage(frame.dt);
    }

    /**
     * ControllerUpdate. An inactive controller only clears its outputs; an
     * active one judges the tick's VirtualButton, which keeps every bit
     * injected before the tick and every bit of every binding that fires,
     * steps both timers of every button, fills the mode masks from them and
     * ends with VirtualButton back at NONE.
     */
    method ControllerUpdate(frame: Frame, g: Geometry, comp: ConTable)
      requires Valid()
      modifies this`btnlist, this`button, this`flags, this`touchedPress, this`touchedDown, this`touchedUp,
               this`positions, this`beforePositions, this`fingers, this`virtualButton,
               this`repeat, this`longRepeat, this`judged, stick
      ensures Valid()
      ensures !active ==> Cleared()
      ensures !active ==> repeat == old(repeat) && longRepeat == old(longRepeat) && virtualButton == old(virtualButton)
      ensures !active ==> fingers == old(fingers) && positions == old(positions) && beforePositions == old(beforePositions)
      ensures active ==> TickJudged(old(repeat), old(longRepeat), frame.dt)
      ensures active ==> Covers(judged, old(virtualButton))
      ensures active ==> Covers(judged, BindingsMask(bindings, Parent(), comp, property.conKeyboard, frame.read, |bindings|))
    {
      Clear();
      if active {
        ActiveTick(frame, g, comp);
      }
    }
  }
}
