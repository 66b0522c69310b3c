/**
 * The classification half of the controller tick: which buttons count as
 * held (btnlist), how each held or released button feeds its two timers
 * (Repeat with lock time 0, LongRepeat with lock time 1) and which mode
 * masks of the ButtonObj receive its bit, and the optional L/ZL, R/ZR swap.
 */
module Classify {

  import opened Buttons
  import opened KeyRepeat

  /** One value per ButtonMode that the tick writes (the ModeNone entry is always 0). */
  datatype ByMode<T> = ByMode(
    press: T, repeat: T, down: T, up: T, delay: T, delayRepeat: T, delayDown: T, delayUp: T,
    double: T, click: T, doubleClick: T, doubleUp: T)

  /** ButtonObj: one button mask per mode. */
  type Masks = ByMode<ButtonType>

  /** Which modes one button reaches in one tick. */
  type Flags = ByMode<bool>

  /** The ButtonObj constructor: every mask 0. */
  const NoMasks: Masks := ByMode(NONE, NONE, NONE, NONE, NONE, NONE, NONE, NONE, NONE, NONE, NONE, NONE)

  /** The dictionary lookup `Button[mode]`; `none` for ModeNone or an undeclared mode. */
  function At<T>(m: ByMode<T>, mode: ButtonMode, none: T): T
  {
    if mode == Press then m.press
    else if mode == Repeat then m.repeat
    else if mode == Down then m.down
    else if mode == Up then m.up
    else if mode == Delay then m.delay
    else if mode == DelayRepeat then m.delayRepeat
    else if mode == DelayDown then m.delayDown
    else if mode == DelayUp then m.delayUp
    else if mode == Double then m.double
    else if mode == Click then m.click
    else if mode == DoubleClick then m.doubleClick
    else if mode == DoubleUp then m.doubleUp
    else none
  }

  /** The default timer settings: KeyRepeatDict() and KeyRepeatDict(StartLongRepeat = 1). */
  const RepeatConfig: Config := Config(0.0, 0.4, 0.2, 1.0)
  const LongConfig: Config := Config(1.0, 0.4, 0.2, 1.0)

  /**
   * The modes one button reaches: Press and Double from the sample and the
   * Repeat timer before its Check, Repeat/Down/Up/Click/DoubleClick/DoubleUp
   * from that Check, Delay from the LongRepeat timer before its Check and
   * DelayRepeat/DelayDown/DelayUp from that Check.
   */
  function ButtonFlags(press: bool, rep: Timer, long: Timer, dt: real): (f: Flags)
    ensures f.press == press && f.delay == long.enable
    ensures f.double <==> press && rep.doublePress
    ensures f.down ==> press && f.repeat
    ensures f.up ==> !press
    ensures f.click == f.up
    ensures f.doubleClick ==> f.down
    ensures f.doubleUp ==> f.up
    ensures f.delayDown ==> press && f.delayRepeat
    ensures f.delayUp ==> !press && long.enable
  {
    var r := Step(RepeatConfig, rep, press, dt);
    var l := Step(LongConfig, long, press, dt);
    ByMode(press, r.pulse, r.next.first, r.next.last,
           long.enable, l.pulse, l.next.first, l.next.last,
           press && rep.doublePress, r.next.last,
           r.next.first && r.next.doublePress, r.next.last && r.next.doublePress)
  }

  /** `b` when `c` holds, otherwise no button. */
  function Pick(c: bool, b: ButtonType): ButtonType
  {
    if c then b else NONE
  }

  /** `x |= b` when `c` holds. */
  function OrPick(x: ButtonType, c: bool, b: ButtonType): ButtonType
  {
    x | Pick(c, b)
  }

  /** `x & q != 0`: the mask `x` carries a bit of `q`. */
  predicate Has(x: ButtonType, q: ButtonType)
  {
    x & q != NONE
  }

  /** `Button[mode] |= b` for every mode whose flag is set. */
  function Include(m: Masks, f: Flags, b: ButtonType): Masks
  {
    ByMode(OrPick(m.press, f.press, b),
           OrPick(m.repeat, f.repeat, b),
           OrPick(m.down, f.down, b),
           OrPick(m.up, f.up, b),
           OrPick(m.delay, f.delay, b),
           OrPick(m.delayRepeat, f.delayRepeat, b),
           OrPick(m.delayDown, f.delayDown, b),
           OrPick(m.delayUp, f.delayUp, b),
           OrPick(m.double, f.double, b),
           OrPick(m.click, f.click, b),
           OrPick(m.doubleClick, f.doubleClick, b),
           OrPick(m.doubleUp, f.doubleUp, b))
  }

  /** The flags of every button of the canonical list in one tick. */
  function TickFlags(pressed: seq<bool>, reps: seq<Timer>, longs: seq<Timer>, dt: real): (fs: seq<Flags>)
    requires |pressed| == |reps| == |longs|
    ensures |fs| == |pressed|
    ensures forall j :: 0 <= j < |fs| ==> fs[j] == ButtonFlags(pressed[j], reps[j], longs[j], dt)
  {
    seq(|pressed|, j requires 0 <= j < |pressed| => ButtonFlags(pressed[j], reps[j], longs[j], dt))
  }

  /** Every timer after its Check. */
  function Stepped(c: Config, ts: seq<Timer>, pressed: seq<bool>, dt: real): (r: seq<Timer>)
    requires |ts| == |pressed|
    ensures |r| == |ts|
    ensures forall j :: 0 <= j < |ts| ==> r[j] == Step(c, ts[j], pressed[j], dt).next
  {
    seq(|ts|, j requires 0 <= j < |ts| => Step(c, ts[j], pressed[j], dt).next)
  }

  /** ORing never clears a bit. */
  lemma PickGrows(x: ButtonType, c: bool, b: ButtonType, q: ButtonType)
    ensures Has(x, q) ==> Has(OrPick(x, c, b), q)
  {}

  /** A picked nonzero code puts its bits in. */
  lemma PickSets(x: ButtonType, c: bool, b: ButtonType)
    requires b != NONE
    ensures c ==> Has(OrPick(x, c, b), b)
  {}

  /** A code that shares no bit with `q` brings none of `q`'s bits. */
  lemma PickKeeps(x: ButtonType, c: bool, b: ButtonType, q: ButtonType)
    requires !Has(b, q)
    ensures Has(OrPick(x, c, b), q) ==> Has(x, q)
  {}

  /** A code brings its own bits only when it is picked. */
  lemma PickNeeds(x: ButtonType, c: bool, b: ButtonType)
    ensures Has(OrPick(x, c, b), b) ==> Has(x, b) || c
  {}

  lemma HighButtonsNoLow()
    ensures forall j :: 0 <= j < |HighButtons| ==> HighButtons[j] & BITJADGE == 0
  {}

  /** A low-range entry of the list shares no bit with any other entry. */
  lemma ButtonPairDisjoint(j: nat, i: nat)
    requires i < |LowButtons| && j < |ButtonList|
    ensures j != i ==> ButtonList[j] & ButtonList[i] == NONE
    ensures ButtonList[i] & ButtonList[i] != NONE
  {
    ButtonListLowDisjoint();
    LowButtonsSingleBits();
    if j >= |LowButtons| {
      HighButtonsNoLow();
      var h := HighButtons[j - |LowButtons|];
      var l := LowButtons[i];
      assert ButtonList[j] == h && ButtonList[i] == l;
      assert h & BITJADGE == 0 && l & !BITJADGE == 0;
      assert h & l == 0;
    } else if j < i {
      assert ButtonList[j] & ButtonList[i] == 0;
    } else if i < j {
      assert ButtonList[i] & ButtonList[j] == 0;
    }
  }

  /** `bs[i]` is a nonzero code sharing no bit with any other entry. */
  ghost predicate Isolated(bs: seq<ButtonType>, i: nat)
  {
    i < |bs| && bs[i] != NONE && forall j :: 0 <= j < |bs| && j != i ==> !Has(bs[j], bs[i])
  }

  /** Every low-range entry of the list is isolated. */
  lemma LowIsolated(i: nat)
    requires i < |LowButtons|
    ensures Isolated(ButtonList, i)
  {
    forall j | 0 <= j < |ButtonList| && j != i
      ensures !Has(ButtonList[j], ButtonList[i])
    {
      ButtonPairDisjoint(j, i);
    }
    ButtonPairDisjoint(i, i);
  }

  /** The mask of one mode after the first `n` buttons: the OR of those whose flag for it is set. */
  function ModeMask(bs: seq<ButtonType>, fs: seq<Flags>, mode: ButtonMode, n: nat): ButtonType
    requires n <= |fs| && n <= |bs|
  {
    if n == 0 then NONE
    else OrPick(ModeMask(bs, fs, mode, n - 1), At(fs[n - 1], mode, false), bs[n - 1])
  }

  /** The masks after the first `n` buttons of the list went through the timer loop. */
  function Classified(bs: seq<ButtonType>, fs: seq<Flags>, n: nat): Masks
    requires n <= |fs| && n <= |bs|
  {
    if n == 0 then NoMasks
    else Include(Classified(bs, fs, n - 1), fs[n - 1], bs[n - 1])
  }

  /** The step of the timer loop: including the next button's flags extends the classification by one. */
  lemma ClassifiedNext(bs: seq<ButtonType>, pressed: seq<bool>, reps: seq<Timer>, longs: seq<Timer>, dt: real,
                       n: nat, f: Flags)
    requires |pressed| == |reps| == |longs| == |bs| && n < |bs|
    requires f == ButtonFlags(pressed[n], reps[n], longs[n], dt)
    ensures Classified(bs, TickFlags(pressed, reps, longs, dt), n + 1)
         == Include(Classified(bs, TickFlags(pressed, reps, longs, dt), n), f, bs[n])
  {}

  /** Including a button updates every mode's mask by the button's flag for that mode. */
  lemma IncludeAt(m: Masks, f: Flags, b: ButtonType, mode: ButtonMode)
    ensures At(Include(m, f, b), mode, NONE) == OrPick(At(m, mode, NONE), At(f, mode, false), b)
  {
    if mode == Press {} else if mode == Repeat {} else if mode == Down {} else if mode == Up {}
    else if mode == Delay {} else if mode == DelayRepeat {} else if mode == DelayDown {}
    else if mode == DelayUp {} else if mode == Double {} else if mode == Click {}
    else if mode == DoubleClick {} else if mode == DoubleUp {}
  }

  /** Each mode's mask of `Classified` is that mode's fold. */
  lemma {:induction false} ClassifiedAt(bs: seq<ButtonType>, fs: seq<Flags>, n: nat, mode: ButtonMode)
    requires n <= |fs| && n <= |bs|
    ensures At(Classified(bs, fs, n), mode, NONE) == ModeMask(bs, fs, mode, n)
  {
    if n > 0 {
      ClassifiedAt(bs, fs, n - 1, mode);
      IncludeAt(Classified(bs, fs, n - 1), fs[n - 1], bs[n - 1], mode);
    }
  }

  /** A set flag puts a low button's bit in the mask of its mode, and later buttons keep it. */
  lemma {:induction false} ModeMaskSet(bs: seq<ButtonType>, fs: seq<Flags>, mode: ButtonMode, n: nat, i: nat)
    requires n <= |fs| && n <= |bs| && Isolated(bs, i)
    ensures i < n && At(fs[i], mode, false) ==> Has(ModeMask(bs, fs, mode, n), bs[i])
  {
    if n > 0 {
      ModeMaskSet(bs, fs, mode, n - 1, i);
      if n - 1 == i {
        PickSets(ModeMask(bs, fs, mode, n - 1), At(fs[n - 1], mode, false), bs[n - 1]);
      } else {
        PickGrows(ModeMask(bs, fs, mode, n - 1), At(fs[n - 1], mode, false), bs[n - 1], bs[i]);
      }
    }
  }

  /** A low button's bit is in the mask of a mode only if its own flag for that mode is set. */
  lemma {:induction false} ModeMaskOnly(bs: seq<ButtonType>, fs: seq<Flags>, mode: ButtonMode, n: nat, i: nat)
    requires n <= |fs| && n <= |bs| && Isolated(bs, i)
    ensures Has(ModeMask(bs, fs, mode, n), bs[i]) ==> i < n && At(fs[i], mode, false)
  {
    if n > 0 {
      ModeMaskOnly(bs, fs, mode, n - 1, i);
      if n - 1 == i {
        PickNeeds(ModeMask(bs, fs, mode, n - 1), At(fs[n - 1], mode, false), bs[n - 1]);
      } else {
        PickKeeps(ModeMask(bs, fs, mode, n - 1), At(fs[n - 1], mode, false), bs[n - 1], bs[i]);
      }
    }
  }

  /** A low button's bit in the mask of `mode` after the whole loop is its flag for that mode. */
  lemma LowBit(fs: seq<Flags>, i: nat, mode: ButtonMode)
    requires |fs| == |ButtonList| && i < |LowButtons|
    ensures Has(At(Classified(ButtonList, fs, |ButtonList|), mode, NONE), ButtonList[i]) == At(fs[i], mode, false)
  {
    LowIsolated(i);
    ClassifiedAt(ButtonList, fs, |ButtonList|, mode);
    ModeMaskSet(ButtonList, fs, mode, |ButtonList|, i);
    ModeMaskOnly(ButtonList, fs, mode, |ButtonList|, i);
  }

  /**
   * The Repeat timer's modes for one single-bit button: Press iff it is held,
   * Repeat iff its Repeat timer pulses, Down iff that timer's `first`, Up and
   * Click iff its `last`.
   */
  lemma RepeatModeBits(pressed: seq<bool>, reps: seq<Timer>, longs: seq<Timer>, dt: real, i: nat)
    requires |pressed| == |ButtonList| && |reps| == |ButtonList| && |longs| == |ButtonList|
    requires i < |LowButtons|
    ensures var m := Classified(ButtonList, TickFlags(pressed, reps, longs, dt), |ButtonList|);
            var b := ButtonList[i];
            var r := Step(RepeatConfig, reps[i], pressed[i], dt);
      && Has(m.press, b) == pressed[i]
      && Has(m.repeat, b) == r.pulse
      && Has(m.down, b) == r.next.first
      && Has(m.up, b) == r.next.last
      && Has(m.click, b) == r.next.last
  {
    var fs := TickFlags(pressed, reps, longs, dt);
    LowBit(fs, i, Press);
    LowBit(fs, i, Repeat);
    LowBit(fs, i, Down);
    LowBit(fs, i, Up);
    LowBit(fs, i, Click);
  }

  /**
   * The LongRepeat timer's modes for one single-bit button: Delay iff that
   * timer was enabled before this tick's Check, DelayRepeat iff it pulses,
   * DelayDown/DelayUp iff its `first`/`last`.
   */
  lemma LongModeBits(pressed: seq<bool>, reps: seq<Timer>, longs: seq<Timer>, dt: real, i: nat)
    requires |pressed| == |ButtonList| && |reps| == |ButtonList| && |longs| == |ButtonList|
    requires i < |LowButtons|
    ensures var m := Classified(ButtonList, TickFlags(pressed, reps, longs, dt), |ButtonList|);
            var b := ButtonList[i];
            var l := Step(LongConfig, longs[i], pressed[i], dt);
      && Has(m.delay, b) == longs[i].enable
      && Has(m.delayRepeat, b) == l.pulse
      && Has(m.delayDown, b) == l.next.first
      && Has(m.delayUp, b) == l.next.last
  {
    var fs := TickFlags(pressed, reps, longs, dt);
    LowBit(fs, i, Delay);
    LowBit(fs, i, DelayRepeat);
    LowBit(fs, i, DelayDown);
    LowBit(fs, i, DelayUp);
  }

  /** Down and Up never both carry a button's bit in the same tick. */
  lemma DownUpExclusive(pressed: seq<bool>, reps: seq<Timer>, longs: seq<Timer>, dt: real, i: nat)
    requires |pressed| == |ButtonList| && |reps| == |ButtonList| && |longs| == |ButtonList|
    requires i < |LowButtons|
    ensures var m := Classified(ButtonList, TickFlags(pressed, reps, longs, dt), |ButtonList|);
      !(Has(m.down, ButtonList[i]) && Has(m.up, ButtonList[i]))
  {
    RepeatModeBits(pressed, reps, longs, dt, i);
  }

  /** `mask |= b` when `c` holds. */
  method AddIf(mask: ButtonType, c: bool, b: ButtonType) returns (r: ButtonType)
    ensures r == OrPick(mask, c, b)
  {
    r := mask;
    if c {
      r := r | b;
    } else {
      OrNothing(mask);
    }
  }

  /** Or-ing in no button leaves a mask as it is. */
  lemma OrNothing(x: ButtonType)
    ensures x | NONE == x
  {
  }

  /** One button's two timers run their Check; the flags say which modes the button reaches. */
  method CheckTimers(press: bool, rep: Timer, long: Timer, dt: real) returns (f: Flags, rep': Timer, long': Timer)
    ensures f == ButtonFlags(press, rep, long, dt)
    ensures rep' == Step(RepeatConfig, rep, press, dt).next
    ensures long' == Step(LongConfig, long, press, dt).next
  {
    var t := Step(RepeatConfig, rep, press, dt);
    var lt := Step(LongConfig, long, press, dt);
    rep', long' := t.next, lt.next;
    f := ByMode(press, t.pulse, rep'.first, rep'.last, long.enable, lt.pulse, long'.first, long'.last,
                press && rep.doublePress, rep'.last, rep'.first && rep'.doublePress, rep'.last && rep'.doublePress);
  }

  /** The button's bit is ORed into each mode mask whose flag is set. */
  method IncludeButton(masks: Masks, f: Flags, b: ButtonType) returns (masks': Masks)
    ensures masks' == Include(masks, f, b)
  {
    var pressMask := AddIf(masks.press, f.press, b);
    var doubleMask := AddIf(masks.double, f.double, b);
    var repeatMask := AddIf(masks.repeat, f.repeat, b);
    var downMask := AddIf(masks.down, f.down, b);
    var doubleClickMask := AddIf(masks.doubleClick, f.doubleClick, b);
    var upMask := AddIf(masks.up, f.up, b);
    var clickMask := AddIf(masks.click, f.click, b);
    var doubleUpMask := AddIf(masks.doubleUp, f.doubleUp, b);
    var delayMask := AddIf(masks.delay, f.delay, b);
    var delayRepeatMask := AddIf(masks.delayRepeat, f.delayRepeat, b);
    var delayDownMask := AddIf(masks.delayDown, f.delayDown, b);
    var delayUpMask := AddIf(masks.delayUp, f.delayUp, b);
    masks' := ByMode(pressMask, repeatMask, downMask, upMask, delayMask, delayRepeatMask, delayDownMask,
                     delayUpMask, doubleMask, clickMask, doubleClickMask, doubleUpMask);
  }

  /** The first `i` timers of `cur` are those of `target`, the others still those of `orig`. */
  ghost predicate Progressed(cur: seq<Timer>, orig: seq<Timer>, target: seq<Timer>, i: nat)
  {
    |cur| == |orig| == |target| && i <= |cur|
    && (forall j :: 0 <= j < i ==> cur[j] == target[j])
    && (forall j :: i <= j < |cur| ==> cur[j] == orig[j])
  }

  lemma ProgressedAt(cur: seq<Timer>, orig: seq<Timer>, target: seq<Timer>, i: nat)
    requires Progressed(cur, orig, target, i) && i < |cur|
    ensures cur[i] == orig[i]
  {}

  lemma ProgressedStep(cur: seq<Timer>, orig: seq<Timer>, target: seq<Timer>, i: nat, t: Timer)
    requires Progressed(cur, orig, target, i) && i < |cur| && t == target[i]
    ensures Progressed(cur[i := t], orig, target, i + 1)
  {}

  lemma ProgressedDone(cur: seq<Timer>, orig: seq<Timer>, target: seq<Timer>)
    requires Progressed(cur, orig, target, |cur|)
    ensures cur == target
  {}

  /** The timer loop of ControllerUpdate over the canonical list. Masks start cleared. */
  method ClassifyAll(pressed: seq<bool>, reps: seq<Timer>, longs: seq<Timer>, dt: real)
    returns (masks: Masks, reps': seq<Timer>, longs': seq<Timer>)
    requires |pressed| == |ButtonList| && |reps| == |ButtonList| && |longs| == |ButtonList|
    ensures masks == Classified(ButtonList, TickFlags(pressed, reps, longs, dt), |ButtonList|)
    ensures reps' == Stepped(RepeatConfig, reps, pressed, dt)
    ensures longs' == Stepped(LongConfig, longs, pressed, dt)
  {
    masks, reps', longs' := NoMasks, reps, longs;
    ghost var fs := TickFlags(pressed, reps, longs, dt);
    ghost var rs, ls := Stepped(RepeatConfig, reps, pressed, dt), Stepped(LongConfig, longs, pressed, dt);
    var i := 0;
    while i < |ButtonList|
      invariant 0 <= i <= |ButtonList|
      invariant masks == Classified(ButtonList, fs, i)
      invariant Progressed(reps', reps, rs, i) && Progressed(longs', longs, ls, i)
    {
      ProgressedAt(reps', reps, rs, i);
      ProgressedAt(longs', longs, ls, i);
      var f, r, l := CheckTimers(pressed[i], reps'[i], longs'[i], dt);
      ClassifiedNext(ButtonList, pressed, reps, longs, dt, i, f);
      masks := IncludeButton(masks, f, ButtonList[i]);
      ProgressedStep(reps', reps, rs, i, r);
      ProgressedStep(longs', longs, ls, i, l);
      reps' := reps'[i := r];
      longs' := longs'[i := l];
      i := i + 1;
    }
    ProgressedDone(reps', reps, rs);
    ProgressedDone(longs', longs, ls);
  }

  /** `btnlist`: a button is held when the tick's mask matches it in AND mode. */
  function Judged(vb: ButtonType): (r: seq<bool>)
    ensures |r| == |ButtonList|
  {
    seq(|ButtonList|, i requires 0 <= i < |ButtonList| => JudgeButton(ButtonList[i], vb, true))
  }

  /** A single-bit button is held iff its bit is in the mask; a high code iff it equals the mask's high part. */
  lemma JudgedBits(vb: ButtonType, i: nat)
    requires i < |ButtonList|
    ensures i < |LowButtons| ==> Judged(vb)[i] == Has(vb, ButtonList[i])
    ensures i >= |LowButtons| ==> (Judged(vb)[i] <==> vb & !BITJADGE == ButtonList[i])
  {
    var b := ButtonList[i];
    if i < |LowButtons| {
      LowButtonsSingleBits();
      assert b == LowButtons[i];
      JudgeAndLowQuery(b, vb);
      SingleBitTest(vb, b);
    } else {
      HighButtonsHigh();
      HighButtonsNoLow();
      assert b == HighButtons[i - |LowButtons|];
      JudgeAndHighQuery(b, vb);
      assert b & BITJADGE == 0;
      assert b & !BITJADGE == b;
    }
  }

  /** The btnlist loop of ControllerUpdate (entries start false). */
  method JudgeAll(vb: ButtonType) returns (list: seq<bool>)
    ensures list == Judged(vb)
  {
    list := seq(|ButtonList|, _ => false);
    var i := 0;
    while i < |ButtonList|
      invariant 0 <= i <= |ButtonList| && |list| == |ButtonList|
      invariant forall j :: 0 <= j < i ==> list[j] == JudgeButton(ButtonList[j], vb, true)
      invariant forall j :: i <= j < |ButtonList| ==> !list[j]
    {
      if JudgeButton(ButtonList[i], vb, true) {
        list := list[i := true];
      }
      i := i + 1;
    }
  }

  /** A low button's Press bit after the tick is exactly its bit in the tick's mask. */
  lemma PressFollowsMask(vb: ButtonType, reps: seq<Timer>, longs: seq<Timer>, dt: real, i: nat)
    requires |reps| == |ButtonList| && |longs| == |ButtonList| && i < |LowButtons|
    ensures Has(Classified(ButtonList, TickFlags(Judged(vb), reps, longs, dt), |ButtonList|).press, ButtonList[i])
         == Has(vb, ButtonList[i])
  {
    RepeatModeBits(Judged(vb), reps, longs, dt, i);
    JudgedBits(vb, i);
  }

  /**
   * KeySwapLocal on the masks: Press/Repeat/Down/Up are swapped; each Delay
   * mask is then recomputed by swapping the already swapped non-Delay mask;
   * the Double and Click masks are left alone.
   */
  function SwapLocal(m: Masks, num1: bv5, num2: bv5, oneway: bool): (r: Masks)
    ensures r.press == KeySwap(m.press, num1, num2, oneway) && r.repeat == KeySwap(m.repeat, num1, num2, oneway)
    ensures r.down == KeySwap(m.down, num1, num2, oneway) && r.up == KeySwap(m.up, num1, num2, oneway)
    ensures r.delay == KeySwap(r.press, num1, num2, oneway) && r.delayRepeat == KeySwap(r.repeat, num1, num2, oneway)
    ensures r.delayDown == KeySwap(r.down, num1, num2, oneway) && r.delayUp == KeySwap(r.up, num1, num2, oneway)
    ensures r.double == m.double && r.click == m.click && r.doubleClick == m.doubleClick && r.doubleUp == m.doubleUp
  {
    var press := KeySwap(m.press, num1, num2, oneway);
    var repeat := KeySwap(m.repeat, num1, num2, oneway);
    var down := KeySwap(m.down, num1, num2, oneway);
    var up := KeySwap(m.up, num1, num2, oneway);
    m.(press := press, repeat := repeat, down := down, up := up,
       delay := KeySwap(press, num1, num2, oneway), delayRepeat := KeySwap(repeat, num1, num2, oneway),
       delayDown := KeySwap(down, num1, num2, oneway), delayUp := KeySwap(up, num1, num2, oneway))
  }

  /** The ButtonZLR_Reverse step: KeySwapLocal(L, ZL) then KeySwapLocal(R, ZR). */
  function ShoulderSwap(m: Masks): Masks
  {
    SwapLocal(SwapLocal(m, 8, 10, false), 9, 11, false)
  }

  /**
   * After the shoulder swap the Press masks have both pairs swapped, while
   * every Delay mask holds the corresponding non-Delay mask of the tick with
   * only L and ZL swapped: the long-press masks are lost.
   */
  lemma ShoulderSwapDelay(m: Masks)
    ensures ShoulderSwap(m).press == KeySwap(KeySwap(m.press, 8, 10, false), 9, 11, false)
    ensures ShoulderSwap(m).delay == KeySwap(m.press, 8, 10, false)
    ensures ShoulderSwap(m).delayRepeat == KeySwap(m.repeat, 8, 10, false)
    ensures ShoulderSwap(m).delayDown == KeySwap(m.down, 8, 10, false)
    ensures ShoulderSwap(m).delayUp == KeySwap(m.up, 8, 10, false)
  {
    var m1 := SwapLocal(m, 8, 10, false);
    KeySwapTwice(m1.press, 9, 11);
    KeySwapTwice(m1.repeat, 9, 11);
    KeySwapTwice(m1.down, 9, 11);
    KeySwapTwice(m1.up, 9, 11);
  }

  /** The getters of ButtonObj. */
  datatype Getter =
    | GetPress | GetRepeat | GetDown | GetUp | GetDelay | GetDelayRepeat | GetDelayDown | GetDelayUp
    | GetDouble | GetDoubleClick | GetDoubleDown

  /** The mode each getter reads: the four Delay getters read the non-Delay masks,
      and DoubleDown reads DoubleUp. */
  function GetterMode(g: Getter): (mode: ButtonMode)
    ensures mode in ModeKeys && mode != ModeNone
    ensures mode !in {Delay, DelayRepeat, DelayDown, DelayUp}
  {
    match g
    case GetPress => Press
    case GetRepeat => Repeat
    case GetDown => Down
    case GetUp => Up
    case GetDelay => Press
    case GetDelayRepeat => Repeat
    case GetDelayDown => Down
    case GetDelayUp => Up
    case GetDouble => Double
    case GetDoubleClick => DoubleClick
    case GetDoubleDown => DoubleUp
  }

  /** The Delay getter reports a button whenever it is held, long-pressed or not. */
  lemma DelayGetterIsPress(pressed: seq<bool>, reps: seq<Timer>, longs: seq<Timer>, dt: real, i: nat)
    requires |pressed| == |ButtonList| && |reps| == |ButtonList| && |longs| == |ButtonList|
    requires i < |LowButtons|
    ensures var m := Classified(ButtonList, TickFlags(pressed, reps, longs, dt), |ButtonList|);
      Has(At(m, GetterMode(GetDelay), NONE), ButtonList[i]) == pressed[i]
  {
    LowBit(TickFlags(pressed, reps, longs, dt), i, Press);
  }
}
