/**
 * Button masks of the controller library.
 *
 * A ButtonType is a 32-bit C# int enum. The low 24 bits (BITJADGE) hold one
 * bit per physical button and are tested bitwise; the high byte holds small
 * codes (F1 .. ESC) that are tested by equality. ButtonMode is a flag enum
 * naming the per-mode masks (Press, Repeat, Down, ...); its values key a
 * dictionary, so the model keeps them as integers.
 */
module Buttons {

  type ButtonType = bv32
  newtype ButtonMode = x: int | 0 <= x < 256

  // ButtonType values
  const NONE: ButtonType := 0
  const UP: ButtonType := 0x1
  const DOWN: ButtonType := 0x2
  const LEFT: ButtonType := 0x4
  const RIGHT: ButtonType := 0x8
  const A: ButtonType := 0x10
  const B: ButtonType := 0x20
  const X: ButtonType := 0x40
  const Y: ButtonType := 0x80
  const L: ButtonType := 0x100
  const R: ButtonType := 0x200
  const ZL: ButtonType := 0x400
  const ZR: ButtonType := 0x800
  const PLUS: ButtonType := 0x1000
  const MINUS: ButtonType := 0x2000
  const STARTMENU: ButtonType := 0x3000
  const PUSHSL: ButtonType := 0x4000
  const PUSHSR: ButtonType := 0x8000
  const PUSHSTICK: ButtonType := 0xC000
  const R_UP: ButtonType := 0x1_0000
  const R_DOWN: ButtonType := 0x2_0000
  const R_LEFT: ButtonType := 0x4_0000
  const R_RIGHT: ButtonType := 0x8_0000
  const CTRL: ButtonType := 0x10_0000
  const ALT: ButtonType := 0x20_0000
  const SHIFT: ButtonType := 0x40_0000
  const F1: ButtonType := 0x100_0000
  const F2: ButtonType := 0x200_0000
  const F3: ButtonType := 0x300_0000
  const F4: ButtonType := 0x400_0000
  const F5: ButtonType := 0x500_0000
  const F6: ButtonType := 0x600_0000
  const F7: ButtonType := 0x700_0000
  const F8: ButtonType := 0x800_0000
  const F9: ButtonType := 0x900_0000
  const F10: ButtonType := 0xA00_0000
  const F11: ButtonType := 0xB00_0000
  const F12: ButtonType := 0xC00_0000
  const PRSCR: ButtonType := 0xD00_0000
  const HOME: ButtonType := 0xE00_0000
  const ESC: ButtonType := 0xF00_0000
  const ARROW: ButtonType := 0xF
  const R_ARROW: ButtonType := 0xF_0000
  const ANY_ARROW: ButtonType := 0xF_000F
  const ANY: ButtonType := 0xFFFF_FFFF
  const BITJADGE: ButtonType := 0xFF_FFFF

  // ButtonMode values
  const ModeNone: ButtonMode := 0
  const Press: ButtonMode := 1
  const Repeat: ButtonMode := 2
  const Down: ButtonMode := 4
  const Up: ButtonMode := 8
  const Delay: ButtonMode := 16
  const DelayRepeat: ButtonMode := 18
  const DelayDown: ButtonMode := 20
  const DelayUp: ButtonMode := 24
  const Double: ButtonMode := 32
  const Click: ButtonMode := 64
  const DoubleClick: ButtonMode := 36
  const DoubleUp: ButtonMode := 40

  /** `(mode & flags) > 0`: the mode shares a flag with `flags`. */
  predicate ModeHas(mode: ButtonMode, flags: ButtonMode)
  {
    (mode as bv8) & (flags as bv8) != 0
  }

  /** The keys of a ButtonObj: every declared ButtonMode. */
  const ModeKeys: set<ButtonMode> :=
    {ModeNone, Press, Repeat, Down, Up, Delay, DelayRepeat, DelayDown, DelayUp,
     Double, Click, DoubleClick, DoubleUp}

  predicate IsSingleBit(m: ButtonType) { m != 0 && m & (m - 1) == 0 }

  // ---------------------------------------------------------------------
  // JudgeButton

  /**
   * Does the sample `press` satisfy the query `judge`? The high parts must be
   * equal when the query has one; the low parts are tested with all bits
   * (AND mode) or any bit (OR mode).
   */
  function JudgeButton(judge: ButtonType, press: ButtonType, andMode: bool): (r: bool)
    ensures judge == NONE ==> !r
  {
    if judge == NONE then false
    else
      var judgeHigh := judge & !BITJADGE;
      var judgeLow := judge & BITJADGE;
      var pressHigh := press & !BITJADGE;
      var pressLow := press & BITJADGE;
      var eq := if judgeHigh != NONE then judgeHigh == pressHigh else andMode;
      if andMode then eq && pressLow & judgeLow == judgeLow
      else eq || pressLow & judgeLow != NONE
  }

  /** AND mode, query without high bits: every query bit must be pressed, whatever the sample's high bits. */
  lemma JudgeAndLowQuery(judge: ButtonType, press: ButtonType)
    requires judge != NONE && judge & !BITJADGE == 0
    ensures JudgeButton(judge, press, true) <==> press & judge == judge
  {
    LowQueryTest(judge, press);
  }

  /** For a query without high bits, testing the low parts is testing the whole masks. */
  lemma LowQueryTest(judge: ButtonType, press: ButtonType)
    requires judge & !BITJADGE == 0
    ensures (press & BITJADGE) & (judge & BITJADGE) == judge & BITJADGE <==> press & judge == judge
  {
    LowQueryIsOwnLowPart(judge);
    LowPartAnd(press, judge);
  }

  lemma LowQueryIsOwnLowPart(judge: ButtonType)
    requires judge & !BITJADGE == 0
    ensures judge & BITJADGE == judge
  {}

  lemma LowPartAnd(press: ButtonType, judge: ButtonType)
    requires judge & BITJADGE == judge
    ensures (press & BITJADGE) & judge == press & judge
  {}

  /** AND mode, query with high bits: the high parts must be equal and every low query bit pressed. */
  lemma JudgeAndHighQuery(judge: ButtonType, press: ButtonType)
    requires judge & !BITJADGE != 0
    ensures JudgeButton(judge, press, true) <==>
      press & !BITJADGE == judge & !BITJADGE && press & judge & BITJADGE == judge & BITJADGE
  {}

  /** OR mode: equal high parts (when the query has one) or any shared low bit. */
  lemma JudgeOr(judge: ButtonType, press: ButtonType)
    requires judge != NONE
    ensures JudgeButton(judge, press, false) <==>
      (judge & !BITJADGE != 0 && press & !BITJADGE == judge & !BITJADGE) || press & judge & BITJADGE != 0
  {}

  /** A match in AND mode is also a match in OR mode. */
  lemma JudgeAndImpliesOr(judge: ButtonType, press: ButtonType)
    ensures JudgeButton(judge, press, true) ==> JudgeButton(judge, press, false)
  {
    if judge != NONE && judge & !BITJADGE == 0 {
      assert judge & BITJADGE == judge;
    }
  }

  /** Every query but NONE matches itself in both modes. */
  lemma JudgeSelf(judge: ButtonType)
    requires judge != NONE
    ensures JudgeButton(judge, judge, true) && JudgeButton(judge, judge, false)
  {
    AndSelf(judge & BITJADGE);
    if judge & !BITJADGE == 0 {
      LowQueryIsLow(judge);
    }
  }

  lemma AndSelf(x: ButtonType)
    ensures x & x == x
  {}

  /** A query without high bits is its own low part, so it has a low bit. */
  lemma LowQueryIsLow(judge: ButtonType)
    requires judge != NONE && judge & !BITJADGE == 0
    ensures judge & BITJADGE == judge && judge & BITJADGE != NONE
  {}

  /** A query without low bits (F1 .. ESC) is an equality test in both modes. */
  lemma JudgeHighOnly(judge: ButtonType, press: ButtonType, andMode: bool)
    requires judge != NONE && judge & BITJADGE == 0
    ensures JudgeButton(judge, press, andMode) <==> press & !BITJADGE == judge & !BITJADGE
  {
    assert judge & !BITJADGE != 0;
  }

  /** In AND mode with a low-only query, pressing more buttons never loses the match. */
  lemma JudgeAndMonotone(judge: ButtonType, p1: ButtonType, p2: ButtonType)
    requires judge & !BITJADGE == 0 && p1 & !p2 == 0
    ensures JudgeButton(judge, p1, true) ==> JudgeButton(judge, p2, true)
  {
  }

  // ---------------------------------------------------------------------
  // KeySwap

  /** `1 << num`; C# masks an int shift count to its low five bits, hence bv5. */
  function Bit(num: bv5): (b: ButtonType) { 1 << num }

  lemma BitIsSingle(num: bv5)
    ensures IsSingleBit(Bit(num))
  {}

  /**
   * KeySwap on the two masks b1 = 1 << num1 and b2 = 1 << num2: bit num1
   * takes the old bit num2, then (unless one-way) bit num2 takes the old bit
   * num1.
   */
  function SwapMasks(btn: ButtonType, b1: ButtonType, b2: ButtonType, oneway: bool): (r: ButtonType)
  {
    var c1 := if btn & b1 == b1 then b2 else NONE;
    var c2 := if btn & b2 == b2 then b1 else NONE;
    var t := (btn & !b1) | c2;
    if oneway then t else (t & !b2) | c1
  }

  function KeySwap(btn: ButtonType, num1: bv5, num2: bv5, oneway: bool): (r: ButtonType)
  {
    SwapMasks(btn, Bit(num1), Bit(num2), oneway)
  }

  lemma SingleBitTest(x: ButtonType, b: ButtonType)
    requires IsSingleBit(b)
    ensures x & b == b <==> x & b != 0
  {}

  lemma SwapMasksFrame(btn: ButtonType, b1: ButtonType, b2: ButtonType, oneway: bool)
    ensures SwapMasks(btn, b1, b2, oneway) & !(b1 | b2) == btn & !(b1 | b2)
  {
    var c1 := if btn & b1 == b1 then b2 else NONE;
    var c2 := if btn & b2 == b2 then b1 else NONE;
    ClearThenSetFrame(btn, b1, b2, c1, c2);
  }

  /** Clearing b1 (then b2) and setting a subset of b1 (then of b2) changes no other bit. */
  lemma ClearThenSetFrame(btn: ButtonType, b1: ButtonType, b2: ButtonType, c1: ButtonType, c2: ButtonType)
    requires c1 == 0 || c1 == b2
    requires c2 == 0 || c2 == b1
    ensures ((btn & !b1) | c2) & !(b1 | b2) == btn & !(b1 | b2)
    ensures ((((btn & !b1) | c2) & !b2) | c1) & !(b1 | b2) == btn & !(b1 | b2)
  {}

  lemma SwapMasksFirst(btn: ButtonType, b1: ButtonType, b2: ButtonType, oneway: bool)
    requires IsSingleBit(b1) && IsSingleBit(b2)
    ensures SwapMasks(btn, b1, b2, oneway) & b1 == 0 <==> btn & b2 == 0
  {
    SingleBitTest(btn, b2);
    if btn & b2 == b2 {} else {}
  }

  lemma SwapMasksSecond(btn: ButtonType, b1: ButtonType, b2: ButtonType)
    requires IsSingleBit(b1) && IsSingleBit(b2)
    ensures SwapMasks(btn, b1, b2, false) & b2 == 0 <==> btn & b1 == 0
  {
    SingleBitTest(btn, b1);
    if btn & b1 == b1 {} else {}
  }

  lemma SwapMasksOneWay(btn: ButtonType, b1: ButtonType, b2: ButtonType)
    requires IsSingleBit(b1) && IsSingleBit(b2) && b1 != b2
    ensures SwapMasks(btn, b1, b2, true) & b2 == btn & b2
  {
    SingleBitTest(btn, b2);
    if btn & b2 == b2 {} else {}
  }

  // The two-way swap of two different single bits, one case of the old
  // bits at a time: what one swap leaves, then that a second swap undoes it.

  lemma SwapBothSet(btn: ButtonType, b1: ButtonType, b2: ButtonType)
    requires btn & b1 == b1 && btn & b2 == b2
    ensures SwapMasks(btn, b1, b2, false) == (((btn & !b1) | b1) & !b2) | b2
  {}

  lemma SwapNoneSet(btn: ButtonType, b1: ButtonType, b2: ButtonType)
    requires btn & b1 != b1 && btn & b2 != b2
    ensures SwapMasks(btn, b1, b2, false) == (btn & !b1) & !b2
  {}

  lemma SwapFirstSet(btn: ButtonType, b1: ButtonType, b2: ButtonType)
    requires btn & b1 == b1 && btn & b2 != b2
    ensures SwapMasks(btn, b1, b2, false) == ((btn & !b1) & !b2) | b2
  {}

  lemma SwapSecondSet(btn: ButtonType, b1: ButtonType, b2: ButtonType)
    requires btn & b1 != b1 && btn & b2 == b2
    ensures SwapMasks(btn, b1, b2, false) == ((btn & !b1) | b1) & !b2
  {}

  /** Moving the set bit b1 over to b2, then back, restores the mask. */
  lemma MoveThereAndBack(btn: ButtonType, b1: ButtonType, b2: ButtonType)
    requires IsSingleBit(b1) && IsSingleBit(b2) && b1 & b2 == 0
    requires btn & b1 == b1 && btn & b2 != b2
    ensures var s := ((btn & !b1) & !b2) | b2;
      s & b1 != b1 && s & b2 == b2 && ((s & !b1) | b1) & !b2 == btn
  {}

  /** Moving the set bit b2 over to b1, then back, restores the mask. */
  lemma MoveBackAndThere(btn: ButtonType, b1: ButtonType, b2: ButtonType)
    requires IsSingleBit(b1) && IsSingleBit(b2) && b1 & b2 == 0
    requires btn & b1 != b1 && btn & b2 == b2
    ensures var s := ((btn & !b1) | b1) & !b2;
      s & b1 == b1 && s & b2 != b2 && ((s & !b1) & !b2) | b2 == btn
  {}

  lemma BothKept(btn: ButtonType, b1: ButtonType, b2: ButtonType)
    requires btn & b1 == b1 && btn & b2 == b2
    ensures (((btn & !b1) | b1) & !b2) | b2 == btn
  {}

  lemma NoneKept(btn: ButtonType, b1: ButtonType, b2: ButtonType)
    requires btn & b1 == 0 && btn & b2 == 0
    ensures (btn & !b1) & !b2 == btn
  {}

  lemma SingleBitAbsent(x: ButtonType, b: ButtonType)
    requires IsSingleBit(b) && x & b != b
    ensures x & b == 0
  {}

  lemma TwiceBoth(btn: ButtonType, b1: ButtonType, b2: ButtonType)
    requires btn & b1 == b1 && btn & b2 == b2
    ensures SwapMasks(SwapMasks(btn, b1, b2, false), b1, b2, false) == btn
  {
    SwapBothSet(btn, b1, b2);
    BothKept(btn, b1, b2);
  }

  lemma TwiceFirst(btn: ButtonType, b1: ButtonType, b2: ButtonType)
    requires IsSingleBit(b1) && IsSingleBit(b2) && b1 & b2 == 0
    requires btn & b1 == b1 && btn & b2 != b2
    ensures SwapMasks(SwapMasks(btn, b1, b2, false), b1, b2, false) == btn
  {
    SwapFirstSet(btn, b1, b2);
    MoveThereAndBack(btn, b1, b2);
    SwapSecondSet(((btn & !b1) & !b2) | b2, b1, b2);
  }

  lemma TwiceSecond(btn: ButtonType, b1: ButtonType, b2: ButtonType)
    requires IsSingleBit(b1) && IsSingleBit(b2) && b1 & b2 == 0
    requires btn & b1 != b1 && btn & b2 == b2
    ensures SwapMasks(SwapMasks(btn, b1, b2, false), b1, b2, false) == btn
  {
    SwapSecondSet(btn, b1, b2);
    MoveBackAndThere(btn, b1, b2);
    SwapFirstSet(((btn & !b1) | b1) & !b2, b1, b2);
  }

  lemma TwiceNone(btn: ButtonType, b1: ButtonType, b2: ButtonType)
    requires IsSingleBit(b1) && IsSingleBit(b2)
    requires btn & b1 != b1 && btn & b2 != b2
    ensures SwapMasks(SwapMasks(btn, b1, b2, false), b1, b2, false) == btn
  {
    SwapNoneSet(btn, b1, b2);
    SingleBitAbsent(btn, b1);
    SingleBitAbsent(btn, b2);
    NoneKept(btn, b1, b2);
  }

  /** The two-way swap of two different single bits is an involution. */
  lemma SwapMasksTwice(btn: ButtonType, b1: ButtonType, b2: ButtonType)
    requires IsSingleBit(b1) && IsSingleBit(b2) && b1 != b2
    ensures SwapMasks(SwapMasks(btn, b1, b2, false), b1, b2, false) == btn
  {
    SingleBitsDisjoint(b1, b2);
    if btn & b1 == b1 {
      if btn & b2 == b2 { TwiceBoth(btn, b1, b2); } else { TwiceFirst(btn, b1, b2); }
    } else {
      if btn & b2 == b2 { TwiceSecond(btn, b1, b2); } else { TwiceNone(btn, b1, b2); }
    }
  }

  /** Every bit other than num1 and num2 is left as it was. */
  lemma KeySwapFrame(btn: ButtonType, num1: bv5, num2: bv5, oneway: bool)
    ensures KeySwap(btn, num1, num2, oneway) & !(Bit(num1) | Bit(num2)) == btn & !(Bit(num1) | Bit(num2))
  {
    SwapMasksFrame(btn, Bit(num1), Bit(num2), oneway);
  }

  /** Bit num1 of the result is the old bit num2, in both variants. */
  lemma KeySwapFirst(btn: ButtonType, num1: bv5, num2: bv5, oneway: bool)
    ensures KeySwap(btn, num1, num2, oneway) & Bit(num1) == 0 <==> btn & Bit(num2) == 0
  {
    BitIsSingle(num1);
    BitIsSingle(num2);
    SwapMasksFirst(btn, Bit(num1), Bit(num2), oneway);
  }

  /** Without `oneway`, bit num2 of the result is the old bit num1. */
  lemma KeySwapSecond(btn: ButtonType, num1: bv5, num2: bv5)
    ensures KeySwap(btn, num1, num2, false) & Bit(num2) == 0 <==> btn & Bit(num1) == 0
  {
    var b1, b2 := Bit(num1), Bit(num2);
    BitIsSingle(num1);
    BitIsSingle(num2);
    SwapMasksSecond(btn, b1, b2);
    assert KeySwap(btn, num1, num2, false) == SwapMasks(btn, b1, b2, false);
  }

  /** With `oneway`, bit num2 is left as it was. */
  lemma KeySwapOneWay(btn: ButtonType, num1: bv5, num2: bv5)
    requires num1 != num2
    ensures KeySwap(btn, num1, num2, true) & Bit(num2) == btn & Bit(num2)
  {
    BitIsSingle(num1);
    BitIsSingle(num2);
    assert Bit(num1) != Bit(num2);
    SwapMasksOneWay(btn, Bit(num1), Bit(num2));
  }

  /** Without `oneway`, swapping two different bits twice gives the mask back. */
  lemma KeySwapTwice(btn: ButtonType, num1: bv5, num2: bv5)
    requires num1 != num2
    ensures KeySwap(KeySwap(btn, num1, num2, false), num1, num2, false) == btn
  {
    BitIsSingle(num1);
    BitIsSingle(num2);
    BitsDiffer(num1, num2);
    SwapMasksTwice(btn, Bit(num1), Bit(num2));
  }

  /** Different shift counts give different masks. */
  lemma BitsDiffer(num1: bv5, num2: bv5)
    requires num1 != num2
    ensures Bit(num1) != Bit(num2)
  {}

  function Pow2(n: nat): (p: nat)
    ensures p >= 1
  {
    if n == 0 then 1 else 2 * Pow2(n - 1)
  }

  /**
   * `(int)Math.Truncate(Math.Log(v, 2))` for a positive int, taken exactly:
   * the index of the highest set bit.
   */
  function Log2Floor(v: int): (n: nat)
    requires v > 0
    ensures Pow2(n) <= v < 2 * Pow2(n)
  {
    if v < 2 then 0 else 1 + Log2Floor(v / 2)
  }

  lemma {:induction false} Pow2Mono(m: nat, n: nat)
    requires m <= n
    ensures Pow2(m) <= Pow2(n)
    decreases n
  {
    if m < n {
      Pow2Mono(m, n - 1);
    }
  }

  lemma Pow2Four(n: nat)
    ensures Pow2(n + 4) == 16 * Pow2(n)
  {
    assert Pow2(n + 4) == 2 * Pow2(n + 3) == 4 * Pow2(n + 2) == 8 * Pow2(n + 1);
  }

  lemma Pow2ThirtyTwo()
    ensures Pow2(8) == 0x100 && Pow2(32) == 0x1_0000_0000
  {
    Pow2Four(0); Pow2Four(4); Pow2Four(8); Pow2Four(12);
    Pow2Four(16); Pow2Four(20); Pow2Four(24); Pow2Four(28);
  }

  /** The highest set bit is the only n with 2^n <= v < 2^(n+1). */
  lemma {:induction false} Log2Unique(v: int, n: nat)
    requires Pow2(n) <= v < 2 * Pow2(n)
    ensures Log2Floor(v) == n
    decreases n
  {
    if n > 0 {
      Log2Unique(v / 2, n - 1);
    }
  }

  /** A nonzero 32-bit mask has its highest bit below 32, so it names a shift count. */
  lemma Log2Below32(b: ButtonType)
    requires b != 0
    ensures Log2Floor(b as int) < 32
  {
    var n := Log2Floor(b as int);
    if n >= 32 {
      Pow2Mono(32, n);
      Pow2ThirtyTwo();
    }
  }

  /** The bit numbers KeySwapLocal computes for the shoulder buttons. */
  lemma Log2FloorOfShoulders()
    ensures Log2Floor(L as int) == 8 && Log2Floor(ZL as int) == 10
    ensures Log2Floor(R as int) == 9 && Log2Floor(ZR as int) == 11
  {
    Pow2ThirtyTwo();
    Log2Unique(0x100, 8);
    Log2Unique(0x200, 9);
    Log2Unique(0x400, 10);
    Log2Unique(0x800, 11);
  }

  // ---------------------------------------------------------------------
  // GetListButtonType

  /**
   * Enum.GetValues(typeof(ButtonType)): every declared value, ascending as
   * unsigned. The values below BITJADGE come first; the list is kept in small
   * groups so that the canonical list can be evaluated group by group.
   */
  const EnumValues: seq<ButtonType> := LowValues + HighValues
  const LowValues: seq<ButtonType> :=
    Values0 + Values1 + Values2 + Values3 + Values4 + Values5 + Values6 + Values7 + Values8 + Values9
  const HighValues: seq<ButtonType> := Values10 + Values11 + Values12 + Values13 + Values14 + Values15
  const Values0: seq<ButtonType> := [NONE, UP, DOWN]
  const Values1: seq<ButtonType> := [LEFT, RIGHT, ARROW]
  const Values2: seq<ButtonType> := [A, B, X]
  const Values3: seq<ButtonType> := [Y, L, R]
  const Values4: seq<ButtonType> := [ZL, ZR, PLUS]
  const Values5: seq<ButtonType> := [MINUS, STARTMENU, PUSHSL]
  const Values6: seq<ButtonType> := [PUSHSR, PUSHSTICK, R_UP]
  const Values7: seq<ButtonType> := [R_DOWN, R_LEFT, R_RIGHT]
  const Values8: seq<ButtonType> := [R_ARROW, ANY_ARROW, CTRL]
  const Values9: seq<ButtonType> := [ALT, SHIFT]
  const Values10: seq<ButtonType> := [BITJADGE, F1, F2]
  const Values11: seq<ButtonType> := [F3, F4, F5]
  const Values12: seq<ButtonType> := [F6, F7, F8]
  const Values13: seq<ButtonType> := [F9, F10, F11]
  const Values14: seq<ButtonType> := [F12, PRSCR, HOME]
  const Values15: seq<ButtonType> := [ESC, ANY]

  /** The list GetListButtonType builds: 23 single-bit buttons, then the 15 high codes. */
  const ButtonList: seq<ButtonType> := LowButtons + HighButtons
  const LowButtons: seq<ButtonType> :=
    [UP, DOWN, LEFT, RIGHT, A, B, X, Y, L, R, ZL, ZR, PLUS, MINUS, PUSHSL, PUSHSR,
     R_UP, R_DOWN, R_LEFT, R_RIGHT, CTRL, ALT, SHIFT]
  const HighButtons: seq<ButtonType> :=
    [F1, F2, F3, F4, F5, F6, F7, F8, F9, F10, F11, F12, PRSCR, HOME, ESC]

  /** Is `v` added when the low bits `remaining` are still unclaimed? */
  predicate Claims(v: ButtonType, remaining: ButtonType)
  {
    v != BITJADGE && v != ANY && (v & !BITJADGE != 0 || remaining & v != 0)
  }

  /** The unclaimed low bits after `v` is visited. */
  function After(v: ButtonType, remaining: ButtonType): ButtonType
  {
    if v != BITJADGE && v != ANY && v & !BITJADGE == 0 && remaining & v != 0 then remaining & !v
    else remaining
  }

  /** The list built from `values`, starting with the unclaimed low bits `remaining`. */
  function Canon(values: seq<ButtonType>, remaining: ButtonType): seq<ButtonType>
    decreases |values|
  {
    if values == [] then []
    else if Claims(values[0], remaining) then [values[0]] + Canon(values[1..], After(values[0], remaining))
    else Canon(values[1..], After(values[0], remaining))
  }

  /** The low bits still unclaimed after visiting all of `values`. */
  function Rem(values: seq<ButtonType>, remaining: ButtonType): ButtonType
    decreases |values|
  {
    if values == [] then remaining else Rem(values[1..], After(values[0], remaining))
  }

  lemma {:induction false} CanonAppend(a: seq<ButtonType>, b: seq<ButtonType>, remaining: ButtonType)
    ensures Canon(a + b, remaining) == Canon(a, remaining) + Canon(b, Rem(a, remaining))
    decreases |a|
  {
    if a == [] {
      assert a + b == b;
    } else {
      assert (a + b)[0] == a[0] && (a + b)[1..] == a[1..] + b;
      CanonAppend(a[1..], b, After(a[0], remaining));
    }
  }

  lemma {:induction false} RemAppend(a: seq<ButtonType>, b: seq<ButtonType>, remaining: ButtonType)
    ensures Rem(a + b, remaining) == Rem(b, Rem(a, remaining))
    decreases |a|
  {
    if a == [] {
      assert a + b == b;
    } else {
      assert (a + b)[0] == a[0] && (a + b)[1..] == a[1..] + b;
      RemAppend(a[1..], b, After(a[0], remaining));
    }
  }

  /** GetListButtonType never lists BITJADGE or ANY. */
  lemma {:induction false} CanonExcludesMeta(values: seq<ButtonType>, remaining: ButtonType)
    ensures BITJADGE !in Canon(values, remaining) && ANY !in Canon(values, remaining)
    decreases |values|
  {
    if values != [] {
      CanonExcludesMeta(values[1..], After(values[0], remaining));
    }
  }

  /** Every listed value is an enum value, and every high value but ANY is listed. */
  lemma CanonHighIncluded(values: seq<ButtonType>, remaining: ButtonType)
    ensures forall v :: v in Canon(values, remaining) ==> v in values
    ensures forall v :: v in values && v & !BITJADGE != 0 && v != ANY ==> v in Canon(values, remaining)
  {
    CanonSubset(values, remaining);
    CanonKeepsHigh(values, remaining);
  }

  lemma {:induction false} CanonSubset(values: seq<ButtonType>, remaining: ButtonType)
    ensures forall v :: v in Canon(values, remaining) ==> v in values
    decreases |values|
  {
    if values != [] {
      CanonSubset(values[1..], After(values[0], remaining));
      assert values == [values[0]] + values[1..];
    }
  }

  lemma {:induction false} CanonKeepsHigh(values: seq<ButtonType>, remaining: ButtonType)
    ensures forall v :: v in values && v & !BITJADGE != 0 && v != ANY ==> v in Canon(values, remaining)
    decreases |values|
  {
    if values != [] {
      CanonKeepsHigh(values[1..], After(values[0], remaining));
      if values[0] & !BITJADGE != 0 && values[0] != ANY {
        HighIsNotBitjadge(values[0]);
        assert Claims(values[0], remaining);
      }
      assert values == [values[0]] + values[1..];
    }
  }

  lemma HighIsNotBitjadge(v: ButtonType)
    requires v & !BITJADGE != 0
    ensures v != BITJADGE
  {}

  // The canonical list is evaluated group by group: what each group of
  // enum values yields, starting from the low bits its predecessors leave.
  lemma CanonGroup0()
    ensures Canon(Values0, 0xFF_FFFF) == [UP, DOWN] && Rem(Values0, 0xFF_FFFF) == 0xFF_FFFC
  {
    assert Canon([0x0, 0x1, 0x2], 0xFF_FFFF) == [0x1, 0x2] && Rem([0x0, 0x1, 0x2], 0xFF_FFFF) == 0xFF_FFFC;
  }
  lemma CanonGroup1()
    ensures Canon(Values1, 0xFF_FFFC) == [LEFT, RIGHT] && Rem(Values1, 0xFF_FFFC) == 0xFF_FFF0
  {
    assert Canon([0x4, 0x8, 0xF], 0xFF_FFFC) == [0x4, 0x8] && Rem([0x4, 0x8, 0xF], 0xFF_FFFC) == 0xFF_FFF0;
  }
  lemma CanonGroup2()
    ensures Canon(Values2, 0xFF_FFF0) == [A, B, X] && Rem(Values2, 0xFF_FFF0) == 0xFF_FF80
  {
    assert Canon([0x10, 0x20, 0x40], 0xFF_FFF0) == [0x10, 0x20, 0x40] && Rem([0x10, 0x20, 0x40], 0xFF_FFF0) == 0xFF_FF80;
  }
  lemma CanonGroup3()
    ensures Canon(Values3, 0xFF_FF80) == [Y, L, R] && Rem(Values3, 0xFF_FF80) == 0xFF_FC00
  {
    assert Canon([0x80, 0x100, 0x200], 0xFF_FF80) == [0x80, 0x100, 0x200] && Rem([0x80, 0x100, 0x200], 0xFF_FF80) == 0xFF_FC00;
  }
  lemma CanonGroup4()
    ensures Canon(Values4, 0xFF_FC00) == [ZL, ZR, PLUS] && Rem(Values4, 0xFF_FC00) == 0xFF_E000
  {
    assert Canon([0x400, 0x800, 0x1000], 0xFF_FC00) == [0x400, 0x800, 0x1000] && Rem([0x400, 0x800, 0x1000], 0xFF_FC00) == 0xFF_E000;
  }
  lemma CanonGroup5()
    ensures Canon(Values5, 0xFF_E000) == [MINUS, PUSHSL] && Rem(Values5, 0xFF_E000) == 0xFF_8000
  {
    assert Canon([0x2000, 0x3000, 0x4000], 0xFF_E000) == [0x2000, 0x4000] && Rem([0x2000, 0x3000, 0x4000], 0xFF_E000) == 0xFF_8000;
  }
  lemma CanonGroup6()
    ensures Canon(Values6, 0xFF_8000) == [PUSHSR, R_UP] && Rem(Values6, 0xFF_8000) == 0xFE_0000
  {
    assert Canon([0x8000, 0xC000, 0x1_0000], 0xFF_8000) == [0x8000, 0x1_0000] && Rem([0x8000, 0xC000, 0x1_0000], 0xFF_8000) == 0xFE_0000;
  }
  lemma CanonGroup7()
    ensures Canon(Values7, 0xFE_0000) == [R_DOWN, R_LEFT, R_RIGHT] && Rem(Values7, 0xFE_0000) == 0xF0_0000
  {
    assert Canon([0x2_0000, 0x4_0000, 0x8_0000], 0xFE_0000) == [0x2_0000, 0x4_0000, 0x8_0000] && Rem([0x2_0000, 0x4_0000, 0x8_0000], 0xFE_0000) == 0xF0_0000;
  }
  lemma CanonGroup8()
    ensures Canon(Values8, 0xF0_0000) == [CTRL] && Rem(Values8, 0xF0_0000) == 0xE0_0000
  {
    assert Canon([0xF_0000, 0xF_000F, 0x10_0000], 0xF0_0000) == [0x10_0000] && Rem([0xF_0000, 0xF_000F, 0x10_0000], 0xF0_0000) == 0xE0_0000;
  }
  lemma CanonGroup9()
    ensures Canon(Values9, 0xE0_0000) == [ALT, SHIFT] && Rem(Values9, 0xE0_0000) == 0x80_0000
  {
    assert Canon([0x20_0000, 0x40_0000], 0xE0_0000) == [0x20_0000, 0x40_0000] && Rem([0x20_0000, 0x40_0000], 0xE0_0000) == 0x80_0000;
  }
  lemma CanonGroup10()
    ensures Canon(Values10, 0x80_0000) == [F1, F2] && Rem(Values10, 0x80_0000) == 0x80_0000
  {
    assert Canon([0xFF_FFFF, 0x100_0000, 0x200_0000], 0x80_0000) == [0x100_0000, 0x200_0000] && Rem([0xFF_FFFF, 0x100_0000, 0x200_0000], 0x80_0000) == 0x80_0000;
  }
  lemma CanonGroup11()
    ensures Canon(Values11, 0x80_0000) == [F3, F4, F5] && Rem(Values11, 0x80_0000) == 0x80_0000
  {
    assert Canon([0x300_0000, 0x400_0000, 0x500_0000], 0x80_0000) == [0x300_0000, 0x400_0000, 0x500_0000] && Rem([0x300_0000, 0x400_0000, 0x500_0000], 0x80_0000) == 0x80_0000;
  }
  lemma CanonGroup12()
    ensures Canon(Values12, 0x80_0000) == [F6, F7, F8] && Rem(Values12, 0x80_0000) == 0x80_0000
  {
    assert Canon([0x600_0000, 0x700_0000, 0x800_0000], 0x80_0000) == [0x600_0000, 0x700_0000, 0x800_0000] && Rem([0x600_0000, 0x700_0000, 0x800_0000], 0x80_0000) == 0x80_0000;
  }
  lemma CanonGroup13()
    ensures Canon(Values13, 0x80_0000) == [F9, F10, F11] && Rem(Values13, 0x80_0000) == 0x80_0000
  {
    assert Canon([0x900_0000, 0xA00_0000, 0xB00_0000], 0x80_0000) == [0x900_0000, 0xA00_0000, 0xB00_0000] && Rem([0x900_0000, 0xA00_0000, 0xB00_0000], 0x80_0000) == 0x80_0000;
  }
  lemma CanonGroup14()
    ensures Canon(Values14, 0x80_0000) == [F12, PRSCR, HOME] && Rem(Values14, 0x80_0000) == 0x80_0000
  {
    assert Canon([0xC00_0000, 0xD00_0000, 0xE00_0000], 0x80_0000) == [0xC00_0000, 0xD00_0000, 0xE00_0000] && Rem([0xC00_0000, 0xD00_0000, 0xE00_0000], 0x80_0000) == 0x80_0000;
  }
  lemma CanonGroup15()
    ensures Canon(Values15, 0x80_0000) == [ESC] && Rem(Values15, 0x80_0000) == 0x80_0000
  {
    assert Canon([0xF00_0000, 0xFFFF_FFFF], 0x80_0000) == [0xF00_0000] && Rem([0xF00_0000, 0xFFFF_FFFF], 0x80_0000) == 0x80_0000;
  }

  /** Visiting `a` then `b`, given what each visit yields on its own. */
  lemma CanonStep(a: seq<ButtonType>, b: seq<ButtonType>, r0: ButtonType, la: seq<ButtonType>,
                  r1: ButtonType, lb: seq<ButtonType>, r2: ButtonType)
    requires Canon(a, r0) == la && Rem(a, r0) == r1
    requires Canon(b, r1) == lb && Rem(b, r1) == r2
    ensures Canon(a + b, r0) == la + lb && Rem(a + b, r0) == r2
  {
    CanonAppend(a, b, r0);
    RemAppend(a, b, r0);
  }

  /** The values below BITJADGE yield the 23 single-bit buttons and leave only bit 23 unclaimed. */
  lemma CanonOfLowValues()
    ensures Canon(LowValues, BITJADGE) == LowButtons && Rem(LowValues, BITJADGE) == 0x80_0000
  {
    CanonGroup0(); CanonGroup1(); CanonGroup2(); CanonGroup3(); CanonGroup4();
    CanonGroup5(); CanonGroup6(); CanonGroup7(); CanonGroup8(); CanonGroup9();
    var values, list := Values0, [UP, DOWN];
    CanonStep(values, Values1, BITJADGE, list, 0xFF_FFFC, [LEFT, RIGHT], 0xFF_FFF0);
    values, list := values + Values1, list + [LEFT, RIGHT];
    CanonStep(values, Values2, BITJADGE, list, 0xFF_FFF0, [A, B, X], 0xFF_FF80);
    values, list := values + Values2, list + [A, B, X];
    CanonStep(values, Values3, BITJADGE, list, 0xFF_FF80, [Y, L, R], 0xFF_FC00);
    values, list := values + Values3, list + [Y, L, R];
    CanonStep(values, Values4, BITJADGE, list, 0xFF_FC00, [ZL, ZR, PLUS], 0xFF_E000);
    values, list := values + Values4, list + [ZL, ZR, PLUS];
    CanonStep(values, Values5, BITJADGE, list, 0xFF_E000, [MINUS, PUSHSL], 0xFF_8000);
    values, list := values + Values5, list + [MINUS, PUSHSL];
    CanonStep(values, Values6, BITJADGE, list, 0xFF_8000, [PUSHSR, R_UP], 0xFE_0000);
    values, list := values + Values6, list + [PUSHSR, R_UP];
    CanonStep(values, Values7, BITJADGE, list, 0xFE_0000, [R_DOWN, R_LEFT, R_RIGHT], 0xF0_0000);
    values, list := values + Values7, list + [R_DOWN, R_LEFT, R_RIGHT];
    CanonStep(values, Values8, BITJADGE, list, 0xF0_0000, [CTRL], 0xE0_0000);
    values, list := values + Values8, list + [CTRL];
    CanonStep(values, Values9, BITJADGE, list, 0xE0_0000, [ALT, SHIFT], 0x80_0000);
    values, list := values + Values9, list + [ALT, SHIFT];
    LowButtonsGrouped();
  }

  lemma LowButtonsGrouped()
    ensures LowButtons == [UP, DOWN] + [LEFT, RIGHT] + [A, B, X] + [Y, L, R] + [ZL, ZR, PLUS] + [MINUS, PUSHSL]
      + [PUSHSR, R_UP] + [R_DOWN, R_LEFT, R_RIGHT] + [CTRL] + [ALT, SHIFT]
  {}

  /** BITJADGE and ANY are skipped, and every high code is listed. */
  lemma CanonOfHighValues()
    ensures Canon(HighValues, 0x80_0000) == HighButtons && Rem(HighValues, 0x80_0000) == 0x80_0000
  {
    CanonGroup10(); CanonGroup11(); CanonGroup12(); CanonGroup13(); CanonGroup14(); CanonGroup15();
    var values, list := Values10, [F1, F2];
    CanonStep(values, Values11, 0x80_0000, list, 0x80_0000, [F3, F4, F5], 0x80_0000);
    values, list := values + Values11, list + [F3, F4, F5];
    CanonStep(values, Values12, 0x80_0000, list, 0x80_0000, [F6, F7, F8], 0x80_0000);
    values, list := values + Values12, list + [F6, F7, F8];
    CanonStep(values, Values13, 0x80_0000, list, 0x80_0000, [F9, F10, F11], 0x80_0000);
    values, list := values + Values13, list + [F9, F10, F11];
    CanonStep(values, Values14, 0x80_0000, list, 0x80_0000, [F12, PRSCR, HOME], 0x80_0000);
    values, list := values + Values14, list + [F12, PRSCR, HOME];
    CanonStep(values, Values15, 0x80_0000, list, 0x80_0000, [ESC], 0x80_0000);
    values, list := values + Values15, list + [ESC];
    assert list == HighButtons;
  }

  /** Enum.GetValues order yields exactly ButtonList. */
  lemma CanonOfEnum()
    ensures Canon(EnumValues, BITJADGE) == ButtonList
  {
    CanonOfLowValues();
    CanonOfHighValues();
    CanonStep(LowValues, HighValues, BITJADGE, LowButtons, 0x80_0000, HighButtons, 0x80_0000);
  }

  /** Two different single-bit masks share no bit. */
  lemma SingleBitsDisjoint(x: ButtonType, y: ButtonType)
    requires IsSingleBit(x) && IsSingleBit(y) && x != y
    ensures x & y == 0
  {}

  // The facts about the 23 low buttons are checked a few entries at a time.

  lemma LowSinglesFirst()
    ensures forall i :: 0 <= i < 12 ==> IsSingleBit(LowButtons[i]) && LowButtons[i] & !BITJADGE == 0
  {}

  lemma LowSinglesLast()
    ensures forall i :: 12 <= i < |LowButtons| ==> IsSingleBit(LowButtons[i]) && LowButtons[i] & !BITJADGE == 0
  {}

  lemma LowButtonsSingleBits()
    ensures forall i :: 0 <= i < |LowButtons| ==> IsSingleBit(LowButtons[i]) && LowButtons[i] & !BITJADGE == 0
  {
    LowSinglesFirst();
    LowSinglesLast();
  }

  lemma LowDistinctA()
    ensures forall i, j :: 0 <= i < j < 6 ==> LowButtons[i] != LowButtons[j]
  {}

  lemma LowDistinctB()
    ensures forall i, j :: 6 <= i < j < 12 ==> LowButtons[i] != LowButtons[j]
  {}

  lemma LowDistinctC()
    ensures forall i, j :: 12 <= i < j < |LowButtons| ==> LowButtons[i] != LowButtons[j]
  {}

  /** The three groups above occupy different bit ranges. */
  lemma LowGroupsApart()
    ensures forall i :: 0 <= i < 6 ==> LowButtons[i] & 0xFF_FFC0 == 0
    ensures forall i :: 6 <= i < 12 ==> LowButtons[i] & 0xFF_FFC0 != 0 && LowButtons[i] & 0xFF_F000 == 0
    ensures forall i :: 12 <= i < |LowButtons| ==> LowButtons[i] & 0xFF_F000 != 0
  {}

  lemma LowButtonsDistinct()
    ensures forall i, j :: 0 <= i < j < |LowButtons| ==> LowButtons[i] != LowButtons[j]
  {
    LowDistinctA();
    LowDistinctB();
    LowDistinctC();
    LowGroupsApart();
  }

  lemma HighButtonsHigh()
    ensures forall i :: 0 <= i < |HighButtons| ==> HighButtons[i] & !BITJADGE != 0
  {}

  /** The low-range entries of ButtonList are exactly the first |LowButtons| entries, and share no bit. */
  lemma ButtonListLowDisjoint()
    ensures forall i :: 0 <= i < |ButtonList| ==> (ButtonList[i] & !BITJADGE == 0 <==> i < |LowButtons|)
    ensures forall i, j :: 0 <= i < j < |ButtonList| && ButtonList[i] & !BITJADGE == 0 && ButtonList[j] & !BITJADGE == 0 ==>
      ButtonList[i] & ButtonList[j] == 0
  {
    LowButtonsSingleBits();
    LowButtonsDistinct();
    HighButtonsHigh();
    forall i | 0 <= i < |ButtonList|
      ensures ButtonList[i] & !BITJADGE == 0 <==> i < |LowButtons|
    {
      if i >= |LowButtons| {
        assert ButtonList[i] == HighButtons[i - |LowButtons|];
      }
    }
    forall i, j | 0 <= i < j < |ButtonList| && ButtonList[i] & !BITJADGE == 0 && ButtonList[j] & !BITJADGE == 0
      ensures ButtonList[i] & ButtonList[j] == 0
    {
      SingleBitsDisjoint(LowButtons[i], LowButtons[j]);
    }
  }

  /**
   * The properties of the canonical button list: it has neither BITJADGE nor
   * ANY, every entry is an enum value, every high-range enum value but ANY is
   * in it, and its low-range entries pairwise share no bit.
   */
  lemma ButtonListFacts()
    ensures BITJADGE !in ButtonList && ANY !in ButtonList
    ensures forall v :: v in ButtonList ==> v in EnumValues
    ensures forall v :: v in EnumValues && v & !BITJADGE != 0 && v != ANY ==> v in ButtonList
    ensures forall i, j :: 0 <= i < j < |ButtonList| && ButtonList[i] & !BITJADGE == 0 && ButtonList[j] & !BITJADGE == 0 ==>
      ButtonList[i] & ButtonList[j] == 0
  {
    CanonOfEnum();
    CanonExcludesMeta(EnumValues, BITJADGE);
    CanonHighIncluded(EnumValues, BITJADGE);
    ButtonListLowDisjoint();
  }

  /**
   * The loop of Controller.GetListButtonType over the enum values `values`:
   * BITJADGE and ANY are skipped, a high-range value is always added, and a
   * low-range value is added only while it still owns an unclaimed bit.
   */
  method CollectButtons(values: seq<ButtonType>) returns (list: seq<ButtonType>)
    ensures list == Canon(values, BITJADGE)
  {
    list := [];
    var bitjadge := BITJADGE;
    var i := 0;
    while i < |values|
      invariant 0 <= i <= |values|
      invariant list + Canon(values[i..], bitjadge) == Canon(values, BITJADGE)
    {
      var value := values[i];
      ghost var acc, r0, rest := list, bitjadge, values[i + 1..];
      assert values[i..] == [value] + rest;
      CanonCons(value, rest, r0);
      if value != BITJADGE && value != ANY {
        if value & !BITJADGE == 0 {
          if bitjadge & value != 0 {
            list := list + [value];
            bitjadge := bitjadge & !value;
            LowClaim(value, r0);
          } else {
            assert !Claims(value, r0) && bitjadge == After(value, r0);
          }
        } else {
          list := list + [value];
          assert Claims(value, r0) && bitjadge == After(value, r0);
        }
      } else {
        assert !Claims(value, r0) && bitjadge == After(value, r0);
      }
      ghost var visit := if Claims(value, r0) then [value] else [];
      assert list == acc + visit;
      AppendAssoc(acc, visit, Canon(rest, bitjadge));
      i := i + 1;
    }
    assert values[i..] == [];
  }

  /** A low value owning an unclaimed bit is listed and takes its bits out of the unclaimed ones. */
  lemma LowClaim(v: ButtonType, remaining: ButtonType)
    requires v != BITJADGE && v != ANY && v & !BITJADGE == 0 && remaining & v != 0
    ensures Claims(v, remaining) && After(v, remaining) == remaining & !v
  {}

  lemma AppendAssoc(a: seq<ButtonType>, b: seq<ButtonType>, c: seq<ButtonType>)
    ensures (a + b) + c == a + (b + c)
  {}

  /** One visit: the value is listed when it claims, and the rest is visited with what remains. */
  lemma CanonCons(v: ButtonType, rest: seq<ButtonType>, remaining: ButtonType)
    ensures Canon([v] + rest, remaining)
      == (if Claims(v, remaining) then [v] else []) + Canon(rest, After(v, remaining))
  {
    assert ([v] + rest)[1..] == rest;
  }

  /** Controller.GetListButtonType: the canonical list, with no bit listed twice. */
  method GetListButtonType() returns (list: seq<ButtonType>)
    ensures list == ButtonList
  {
    list := CollectButtons(EnumValues);
    CanonOfEnum();
  }
}
