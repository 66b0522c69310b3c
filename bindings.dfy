/**
 * Key bindings (ConObj): each binding reads one key or axis and turns it
 * into a button bit and, for axes, a stick contribution. The raw value a
 * binding reads from the engine is passed in as a Reading.
 */
module Bindings {

  import opened Buttons
  import opened Kinds
  import opened VecComp
  import opened Comp
  import opened Stick

  /** A ConTemplate / ConObj: what the binding reads and what it produces. */
  datatype ConObj = ConObj(
    keyType: KeyType, button: ButtonType, reverse: bool, dead: real,
    posType: PosType, pntType: PointType)

  /** What the engine reports for this binding this tick: the raw axis value and the key state. */
  datatype Reading = Reading(axis: real, key: bool)

  /** The owning controller's settings that a binding consults. */
  datatype Parent = Parent(joystickID: int, compFlag: bool, multPlayKeyboard: bool, sysConType: ConType)

  predicate IsAxis(k: KeyType) { k == Axis || k == JoyAxis }

  /** The stick an axis binding calibrates against: Left before Right, Center otherwise. */
  function LocalPos(posType: PosType): (p: PosType)
    ensures p == PosLeft || p == PosRight || p == PosCenter
    ensures HasFlag(posType, PosLeft) ==> p == PosLeft
    ensures p == PosRight <==> !HasFlag(posType, PosLeft) && HasFlag(posType, PosRight)
  {
    if HasFlag(posType, PosLeft) then PosLeft
    else if HasFlag(posType, PosRight) then PosRight
    else PosCenter
  }

  /** The axis value after reversal and, if enabled, calibration. */
  function AxisValue(con: ConObj, parent: Parent, comp: ConTable, raw: real): real
  {
    var v := if con.reverse then -raw else raw;
    if parent.compFlag then DoCompCon(comp, v, parent.sysConType, LocalPos(con.posType), con.pntType) else v
  }

  /** The button bits a binding contributes (the return value of ConObj.UpdateButton). */
  function ButtonOf(con: ConObj, parent: Parent, comp: ConTable, keyToCon: bool, raw: Reading): (r: ButtonType)
    ensures r == NONE || r == con.button
    // an axis fires strictly above its dead zone, and not for the keyboard player
    ensures IsAxis(con.keyType) && con.button != NONE ==>
      (r == con.button <==> parent.joystickID >= 0 && AxisValue(con, parent, comp, raw.axis) > con.dead)
    // a keyboard key fires only when keys drive the controller and this is not a second player without keyboard
    ensures con.keyType == Key && con.button != NONE ==>
      (r == con.button <==> keyToCon && (parent.joystickID <= 0 || parent.multPlayKeyboard) && raw.key)
    ensures con.keyType == JoyKey && con.button != NONE ==>
      (r == con.button <==> parent.joystickID >= 0 && raw.key)
    ensures con.keyType == Unbound && con.button != NONE ==> (r == con.button <==> raw.key)
  {
    if IsAxis(con.keyType) then AxisButton(con, parent, comp, raw.axis) else KeyButton(con, parent, keyToCon, raw)
  }

  /** The key branches of ConObj.UpdateButton. */
  function KeyButton(con: ConObj, parent: Parent, keyToCon: bool, raw: Reading): ButtonType
  {
    match con.keyType
    case Key =>
      if keyToCon && !(parent.joystickID > 0 && !parent.multPlayKeyboard) && raw.key then con.button else NONE
    case JoyKey => if parent.joystickID >= 0 && raw.key then con.button else NONE
    case _ => if raw.key then con.button else NONE
  }

  function AxisButton(con: ConObj, parent: Parent, comp: ConTable, raw: real): ButtonType
  {
    if parent.joystickID >= 0 && AxisValue(con, parent, comp, raw) > con.dead then con.button else NONE
  }

  /** The vector an axis binding merges: the local stick's vector with one component replaced.
      A Z binding changes only the dropped z component. */
  function WithComponent(v: Vec2, p: PointType, value: real): (r: Vec2)
    ensures p == PointX ==> r == Vec2(value, v.y)
    ensures p == PointY ==> r == Vec2(v.x, value)
    ensures p == PointZ ==> r == v
  {
    match p
    case PointX => v.(x := value)
    case PointY => v.(y := value)
    case PointZ => v
  }

  /** The sticks after an axis binding: SetMost on its own key (a no-op for a combined key),
      then on Move and on Rot when those flags are set. */
  function AxisStick(con: ConObj, parent: Parent, comp: ConTable, raw: real, m: map<PosType, Vec2>): map<PosType, Vec2>
    requires m.Keys == StickKeys
  {
    var vc := WithComponent(m[LocalPos(con.posType)], con.pntType, AxisValue(con, parent, comp, raw));
    var m1 := SetMostMap(m, con.posType, vc, 1.0);
    var m2 := if HasFlag(con.posType, PosMove) then SetMostMap(m1, PosMove, vc, 1.0) else m1;
    if HasFlag(con.posType, PosRot) then SetMostMap(m2, PosRot, vc, 1.0) else m2
  }

  /** The sticks after any binding: only axis bindings with a usable joystick touch them. */
  function StickAfter(con: ConObj, parent: Parent, comp: ConTable, raw: Reading, m: map<PosType, Vec2>): (r: map<PosType, Vec2>)
    requires m.Keys == StickKeys
    ensures r.Keys == StickKeys
    ensures !IsAxis(con.keyType) || parent.joystickID < 0 ==> r == m
  {
    if IsAxis(con.keyType) && parent.joystickID >= 0 then AxisStick(con, parent, comp, raw.axis, m) else m
  }

  /** A Left|Move binding never reaches the Left stick: only Move takes its vector. */
  lemma CombinedBindingReachesOnlyMove(con: ConObj, parent: Parent, comp: ConTable, raw: Reading, m: map<PosType, Vec2>)
    requires m.Keys == StickKeys && IsAxis(con.keyType) && parent.joystickID >= 0
    requires con.posType == PosLeftMove
    ensures var vc := WithComponent(m[PosLeft], con.pntType, AxisValue(con, parent, comp, raw.axis));
      StickAfter(con, parent, comp, raw, m) == m[PosMove := Merged(m[PosMove], vc, 1.0)]
  {
    assert PosLeftMove !in StickKeys;
    assert HasFlag(PosLeftMove, PosMove) && !HasFlag(PosLeftMove, PosRot) && HasFlag(PosLeftMove, PosLeft);
  }

  /** A binding on exactly one stick key merges into that key and nowhere else. */
  lemma PlainBindingReachesItsKey(con: ConObj, parent: Parent, comp: ConTable, raw: Reading, m: map<PosType, Vec2>)
    requires m.Keys == StickKeys && IsAxis(con.keyType) && parent.joystickID >= 0
    requires con.posType == PosLeft || con.posType == PosRight
    ensures var vc := WithComponent(m[con.posType], con.pntType, AxisValue(con, parent, comp, raw.axis));
      StickAfter(con, parent, comp, raw, m) == m[con.posType := Merged(m[con.posType], vc, 1.0)]
  {
    assert !HasFlag(PosLeft, PosMove) && !HasFlag(PosLeft, PosRot) && HasFlag(PosLeft, PosLeft);
    assert !HasFlag(PosRight, PosMove) && !HasFlag(PosRight, PosRot) && !HasFlag(PosRight, PosLeft);
    assert HasFlag(PosRight, PosRight);
  }

  /** Without calibration, a reversed axis reads the negated raw value, and the dead zone is strict. */
  lemma ReverseAndDeadZone(con: ConObj, parent: Parent, comp: ConTable, raw: Reading)
    requires IsAxis(con.keyType) && !parent.compFlag && parent.joystickID >= 0 && con.button != NONE
    ensures AxisValue(con, parent, comp, raw.axis) == (if con.reverse then -raw.axis else raw.axis)
    ensures AxisValue(con, parent, comp, raw.axis) == con.dead ==> ButtonOf(con, parent, comp, true, raw) == NONE
  {}

  /**
   * ConObj.UpdateButton: the binding's button bits, merging an axis into the
   * sticks. `keyToCon` is the controller's ConKeyboard setting.
   */
  method UpdateButton(con: ConObj, parent: Parent, comp: ConTable, keyToCon: bool, raw: Reading, stick: StickObj)
    returns (retval: ButtonType)
    requires stick.pos.Keys == StickKeys
    modifies stick
    ensures retval == ButtonOf(con, parent, comp, keyToCon, raw)
    ensures stick.pos == StickAfter(con, parent, comp, raw, old(stick.pos))
  {
    if IsAxis(con.keyType) {
      retval := UpdateAxis(con, parent, comp, raw.axis, stick);
    } else {
      retval := NONE;
      if con.keyType == Key {
        if keyToCon && !(parent.joystickID > 0 && !parent.multPlayKeyboard) {
          if raw.key {
            retval := con.button;
          }
        }
      } else if con.keyType == JoyKey {
        if parent.joystickID >= 0 && raw.key {
          retval := con.button;
        }
      } else if raw.key {
        retval := con.button;
      }
    }
  }

  /** The axis branch of UpdateButton. */
  method UpdateAxis(con: ConObj, parent: Parent, comp: ConTable, raw: real, stick: StickObj)
    returns (retval: ButtonType)
    requires stick.pos.Keys == StickKeys && IsAxis(con.keyType)
    modifies stick
    ensures retval == AxisButton(con, parent, comp, raw)
    ensures stick.pos == if parent.joystickID >= 0 then AxisStick(con, parent, comp, raw, old(stick.pos)) else old(stick.pos)
  {
    retval := NONE;
    if parent.joystickID < 0 {
      return;
    }
    var axisval := raw;
    if con.reverse {
      axisval := -axisval;
    }
    var local := LocalPos(con.posType);
    if parent.compFlag {
      axisval := DoCompCon(comp, axisval, parent.sysConType, local, con.pntType);
    }
    assert axisval == AxisValue(con, parent, comp, raw);
    if axisval > con.dead {
      retval := con.button;
    }
    var vc := WithComponent(stick.pos[local], con.pntType, axisval);
    ghost var m1 := SetMostMap(stick.pos, con.posType, vc, 1.0);
    stick.SetMost(con.posType, vc, 1.0);
    assert stick.pos == m1;
    if HasFlag(con.posType, PosMove) {
      stick.SetMost(PosMove, vc, 1.0);
    }
    if HasFlag(con.posType, PosRot) {
      stick.SetMost(PosRot, vc, 1.0);
    }
  }

  /** The template sets BuildOfType draws from; their contents are data. */
  datatype Catalog = Catalog(
    userFirst: seq<ConObj>, common: seq<ConObj>, sys: seq<ConObj>, keyboard: seq<ConObj>,
    xinput: seq<ConObj>, direct: seq<ConObj>, switchPad: seq<ConObj>, android: seq<ConObj>,
    userLast: seq<ConObj>)

  /** The controller type the Default setting resolves to: the last auto-detection pattern that
      matches (Android is tried before Switch), else Xinput. */
  function ResolveDefault(androidMatch: bool, switchMatch: bool): (t: ConType)
    ensures t == Xinput || t == Android || t == Switch
    ensures t == Xinput <==> !androidMatch && !switchMatch
  {
    if switchMatch then Switch else if androidMatch then Android else Xinput
  }

  /** The template of a concrete controller type. */
  function TypeTemplate(cat: Catalog, t: ConType): seq<ConObj>
  {
    match t
    case Xinput => cat.xinput
    case Direct => cat.direct
    case Switch => cat.switchPad
    case Android => cat.android
    case Default => []
    case Other => []
  }

  /** The bindings BuildOfType installs for a concrete type (not Default). */
  function BuildList(cat: Catalog, t: ConType): (r: seq<ConObj>)
    ensures t == Other ==> r == []
    ensures t != Other ==>
      r == cat.userFirst + cat.common + cat.sys + cat.keyboard + TypeTemplate(cat, t) + cat.userLast
  {
    if t == Other then []
    else cat.userFirst + cat.common + cat.sys + cat.keyboard + TypeTemplate(cat, t) + cat.userLast
  }

  /** User-first bindings come first and user-last bindings last, whatever the type. */
  lemma BuildListOrder(cat: Catalog, t: ConType)
    requires t != Other
    ensures BuildList(cat, t)[..|cat.userFirst|] == cat.userFirst
    ensures BuildList(cat, t)[|BuildList(cat, t)| - |cat.userLast|..] == cat.userLast
    ensures |BuildList(cat, t)| == |cat.userFirst| + |cat.common| + |cat.sys| + |cat.keyboard|
                                 + |TypeTemplate(cat, t)| + |cat.userLast|
  {
    var l := BuildList(cat, t);
    var head := cat.userFirst;
    var tail := cat.common + cat.sys + cat.keyboard + TypeTemplate(cat, t) + cat.userLast;
    assert l == head + (cat.common + cat.sys + cat.keyboard + TypeTemplate(cat, t)) + cat.userLast;
  }
}
