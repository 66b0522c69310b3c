/**
 * The shapes and outcomes of a controller tick, stated on plain values:
 * the array lengths a controller allocates, the state every tick starts
 * from once its outputs are cleared, and what the judging half of an
 * active tick leaves behind.
 */
module TickState {

  import opened Buttons
  import opened Kinds
  import opened VecComp
  import opened Stick
  import opened Touch
  import opened TouchInput
  import opened KeyRepeat
  import opened Classify

  /** btnlist after the clear: no button of the list held. */
  const NoneHeld: seq<bool> := Falses(|ButtonList|)

  function Falses(n: nat): (r: seq<bool>)
    ensures |r| == n && forall i :: 0 <= i < n ==> !r[i]
  {
    if n == 0 then [] else Falses(n - 1) + [false]
  }

  /** The mode masks a full tick leaves: the classification, then the optional shoulder swap. */
  function TickMasks(zlr: bool, pressed: seq<bool>, reps: seq<Timer>, longs: seq<Timer>, dt: real): Masks
    requires |pressed| == |ButtonList| && |reps| == |ButtonList| && |longs| == |ButtonList|
  {
    var m := Classified(ButtonList, TickFlags(pressed, reps, longs, dt), |ButtonList|);
    if zlr then ShoulderSwap(m) else m
  }

  /**
   * The lengths the controller allocates: one held flag and two timers per
   * button of the list, and USE_TOUCHESCOUNT finger slots, per-finger
   * settings included; the stick holds its five keys.
   */
  predicate Shaped(btnlist: seq<bool>, repeat: seq<Timer>, longRepeat: seq<Timer>,
                   positions: seq<Vec2>, beforePositions: seq<Vec2>, flags: seq<FingerFlags>, fingers: seq<Finger>,
                   names: seq<ButtonType>, modes: seq<ButtonMode>, vectorModes: seq<PosType>,
                   pos: map<PosType, Vec2>)
  {
    && |btnlist| == |ButtonList| && |repeat| == |ButtonList| && |longRepeat| == |ButtonList|
    && |positions| == Slots && |beforePositions| == Slots && |flags| == Slots && |fingers| == Slots
    && |names| == Slots && |modes| == Slots && |vectorModes| == Slots
    && pos.Keys == StickKeys
  }

  /** Every output of a tick at rest: nothing held, no mode bit, no slot flag, every stick at zero. */
  predicate AtRest(btnlist: seq<bool>, button: Masks, flags: seq<FingerFlags>,
                   touchedPress: bool, touchedDown: bool, touchedUp: bool, pos: map<PosType, Vec2>)
  {
    && btnlist == NoneHeld && button == NoMasks && flags == NoSlotFlags
    && !touchedPress && !touchedDown && !touchedUp
    && (forall k :: k in pos ==> pos[k] == Zero2)
  }

  /**
   * What the judging half of an active tick leaves: btnlist judges the
   * tick's VirtualButton `judged`, both timers of every button have stepped
   * from `reps`/`longs`, the mode masks come from those steps (shoulders
   * swapped when `zlr`), and VirtualButton is back at NONE.
   */
  predicate Judgement(judged: ButtonType, btnlist: seq<bool>, repeat: seq<Timer>, longRepeat: seq<Timer>,
                      button: Masks, virtualButton: ButtonType,
                      zlr: bool, reps: seq<Timer>, longs: seq<Timer>, dt: real)
  {
    && |reps| == |ButtonList| && |longs| == |ButtonList|
    && btnlist == Judged(judged)
    && repeat == Stepped(RepeatConfig, reps, btnlist, dt)
    && longRepeat == Stepped(LongConfig, longs, btnlist, dt)
    && button == TickMasks(zlr, btnlist, reps, longs, dt)
    && virtualButton == NONE
  }
}
