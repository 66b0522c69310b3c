/**
 * Stick calibration (CompValue, CompPNT, CompPOS, CompPoint): per controller
 * type, stick and axis, the extent the stick actually reaches in each
 * direction. A raw value is divided by that extent and clamped to [-1, 1].
 */
module Comp {

  import opened Kinds

  /** Extents below this are treated as unset. */
  const MinExtent: real := 0.0001

  /** The two extents of one axis; 0 means "not calibrated". */
  datatype Extent = Extent(plus: real, minus: real)

  const Unset: Extent := Extent(0.0, 0.0)

  /** CompValue.Set on the extents: a positive value sets `plus`, a negative one `minus`. */
  function SetExtent(e: Extent, value: real): (r: Extent)
    ensures value > 0.0 ==> r.minus == e.minus && r.plus == (if value < MinExtent then 0.0 else value)
    ensures value < 0.0 ==> r.plus == e.plus && r.minus == (if -value < MinExtent then 0.0 else -value)
    ensures value == 0.0 ==> r == e
  {
    if value > 0.0 then e.(plus := if value < MinExtent then 0.0 else value)
    else if value < 0.0 then e.(minus := if -value < MinExtent then 0.0 else -value)
    else e
  }

  /** CompValue.DoComp on the extents. */
  function Scale(e: Extent, value: real): real
  {
    if value > 0.0 then
      var v := if e.plus != 0.0 then value / e.plus else value;
      if v > 1.0 then 1.0 else v
    else if value < 0.0 then
      var v := if e.minus != 0.0 then value / e.minus else value;
      if v < -1.0 then -1.0 else v
    else value
  }

  /** Extents as Set leaves them: never negative. */
  predicate Settled(e: Extent)
  {
    e.plus >= 0.0 && e.minus >= 0.0
  }

  lemma SetExtentSettled(e: Extent, value: real)
    requires Settled(e)
    ensures Settled(SetExtent(e, value))
  {}

  lemma QuotientPositive(a: real, b: real)
    requires a > 0.0 && b > 0.0
    ensures a / b > 0.0
  {}

  lemma QuotientNegative(a: real, b: real)
    requires a < 0.0 && b > 0.0
    ensures a / b < 0.0
  {}

  lemma QuotientAtMostOne(a: real, b: real)
    requires 0.0 < a <= b
    ensures a / b <= 1.0
  {
    assert a / b * b == a;
  }

  /** DoComp lands in [-1, 1], keeps the sign of the input and maps 0 to 0. */
  lemma ScaleRange(e: Extent, value: real)
    requires Settled(e)
    ensures -1.0 <= Scale(e, value) <= 1.0
    ensures value > 0.0 ==> Scale(e, value) > 0.0
    ensures value < 0.0 ==> Scale(e, value) < 0.0
    ensures value == 0.0 ==> Scale(e, value) == 0.0
  {
    if value > 0.0 && e.plus != 0.0 {
      QuotientPositive(value, e.plus);
    } else if value < 0.0 && e.minus != 0.0 {
      QuotientNegative(value, e.minus);
    }
  }

  /** An unset extent only clamps. */
  lemma ScaleUnset(value: real)
    ensures Scale(Unset, value) == (if value > 1.0 then 1.0 else if value < -1.0 then -1.0 else value)
  {}

  /** A value inside the calibrated extent is divided by it exactly. */
  lemma ScaleInside(e: Extent, value: real)
    requires Settled(e)
    ensures 0.0 < value <= e.plus ==> Scale(e, value) == value / e.plus
    ensures -e.minus <= value < 0.0 ==> Scale(e, value) == value / e.minus
  {
    if 0.0 < value <= e.plus {
      QuotientAtMostOne(value, e.plus);
    }
    if -e.minus <= value < 0.0 {
      QuotientAtMostOne(-value, e.minus);
      assert value / e.minus == -((-value) / e.minus);
    }
  }

  /** CompValue: the two extents of one axis, updated in place by Set. */
  class CompValue {
    var plus: real
    var minus: real

    function Value(): Extent
      reads this
    {
      Extent(plus, minus)
    }

    constructor ()
      ensures Value() == Unset
    {
      plus, minus := 0.0, 0.0;
    }

    /** CompValue.Set. */
    method Set(value: real)
      modifies this
      ensures Value() == SetExtent(old(Value()), value)
    {
      if value > 0.0 {
        plus := value;
        if plus < MinExtent {
          plus := 0.0;
        }
      } else if value < 0.0 {
        minus := -value;
        if minus < MinExtent {
          minus := 0.0;
        }
      }
    }

    /** CompValue.DoComp: the value scaled by the extent of its sign, clamped to [-1, 1]. */
    method DoComp(value: real) returns (r: real)
      ensures r == Scale(Value(), value)
    {
      r := value;
      if r > 0.0 {
        if plus != 0.0 {
          r := r / plus;
        }
        if r > 1.0 {
          r := 1.0;
        }
      } else if r < 0.0 {
        if minus != 0.0 {
          r := r / minus;
        }
        if r < -1.0 {
          r := -1.0;
        }
      }
    }
  }

  // The three dictionary levels, as nested maps of extents.
  type PointTable = map<PointType, Extent>
  type PosTable = map<PosType, PointTable>
  type ConTable = map<ConType, PosTable>

  /** CompPNT.Set: the entry for `p` is created on demand, then set. */
  function SetPoint(t: PointTable, value: real, p: PointType): PointTable
  {
    t[p := SetExtent(if p in t then t[p] else Unset, value)]
  }

  /** CompPOS.Set. */
  function SetPos(t: PosTable, value: real, s: PosType, p: PointType): PosTable
  {
    t[s := SetPoint(if s in t then t[s] else map[], value, p)]
  }

  /** CompPoint.Set. */
  function SetCon(t: ConTable, value: real, c: ConType, s: PosType, p: PointType): ConTable
  {
    t[c := SetPos(if c in t then t[c] else map[], value, s, p)]
  }

  /** CompPNT.DoComp: an axis with no entry passes the value through. */
  function DoCompPoint(t: PointTable, value: real, p: PointType): real
  {
    if p in t then Scale(t[p], value) else value
  }

  /** CompPOS.DoComp. */
  function DoCompPos(t: PosTable, value: real, s: PosType, p: PointType): real
  {
    if s in t then DoCompPoint(t[s], value, p) else value
  }

  /** CompPoint.DoComp. */
  function DoCompCon(t: ConTable, value: real, c: ConType, s: PosType, p: PointType): real
  {
    if c in t then DoCompPos(t[c], value, s, p) else value
  }

  function LookupPoint(t: PointTable, p: PointType): Option<Extent>
  {
    if p in t then Some(t[p]) else None
  }

  function LookupPos(t: PosTable, s: PosType, p: PointType): Option<Extent>
  {
    if s in t then LookupPoint(t[s], p) else None
  }

  /** The extent stored under a key, if every level of the key is present. */
  function Lookup(t: ConTable, c: ConType, s: PosType, p: PointType): Option<Extent>
  {
    if c in t then LookupPos(t[c], s, p) else None
  }

  /** DoComp through the three levels: a missing key passes the value through, a present one scales. */
  lemma DoCompLookup(t: ConTable, value: real, c: ConType, s: PosType, p: PointType)
    ensures Lookup(t, c, s, p).None? ==> DoCompCon(t, value, c, s, p) == value
    ensures Lookup(t, c, s, p).Some? ==> DoCompCon(t, value, c, s, p) == Scale(Lookup(t, c, s, p).value, value)
  {}

  /** The extent Set starts from: the stored one, or a fresh CompValue. */
  function Current(t: ConTable, c: ConType, s: PosType, p: PointType): Extent
  {
    match Lookup(t, c, s, p)
    case Some(e) => e
    case None => Unset
  }

  function Updated(prev: Option<Extent>, value: real): Option<Extent>
  {
    Some(SetExtent(match prev case Some(e) => e case None => Unset, value))
  }

  lemma LookupSetPoint(t: PointTable, value: real, p: PointType, p2: PointType)
    ensures LookupPoint(SetPoint(t, value, p), p2)
         == if p2 == p then Updated(LookupPoint(t, p), value) else LookupPoint(t, p2)
  {}

  lemma LookupSetPos(t: PosTable, value: real, s: PosType, p: PointType, s2: PosType, p2: PointType)
    ensures LookupPos(SetPos(t, value, s, p), s2, p2)
         == if s2 == s && p2 == p then Updated(LookupPos(t, s, p), value) else LookupPos(t, s2, p2)
  {
    var pnt: PointTable := if s in t then t[s] else map[];
    LookupSetPoint(pnt, value, p, p2);
  }

  /** Set through the three levels updates exactly one extent, creating it when missing. */
  lemma LookupSetCon(t: ConTable, value: real, c: ConType, s: PosType, p: PointType,
                     c2: ConType, s2: PosType, p2: PointType)
    ensures Lookup(SetCon(t, value, c, s, p), c2, s2, p2)
         == if c2 == c && s2 == s && p2 == p then Some(SetExtent(Current(t, c, s, p), value))
            else Lookup(t, c2, s2, p2)
  {
    var pos: PosTable := if c in t then t[c] else map[];
    LookupSetPos(pos, value, s, p, s2, p2);
  }

  /** Every extent in the table is settled. */
  ghost predicate TableSettled(t: ConTable)
  {
    forall c, s, p :: Lookup(t, c, s, p).Some? ==> Settled(Lookup(t, c, s, p).value)
  }

  /** Over a settled table DoComp keeps the sign and stays in [-1, 1] for a calibrated axis. */
  lemma DoCompRange(t: ConTable, value: real, c: ConType, s: PosType, p: PointType)
    requires TableSettled(t) && Lookup(t, c, s, p).Some?
    ensures -1.0 <= DoCompCon(t, value, c, s, p) <= 1.0
    ensures value > 0.0 <==> DoCompCon(t, value, c, s, p) > 0.0
    ensures value < 0.0 <==> DoCompCon(t, value, c, s, p) < 0.0
  {
    DoCompLookup(t, value, c, s, p);
    ScaleRange(Lookup(t, c, s, p).value, value);
  }

  lemma SetConSettled(t: ConTable, value: real, c: ConType, s: PosType, p: PointType)
    requires TableSettled(t)
    ensures TableSettled(SetCon(t, value, c, s, p))
  {
    var r := SetCon(t, value, c, s, p);
    forall c2, s2, p2 | Lookup(r, c2, s2, p2).Some?
      ensures Settled(Lookup(r, c2, s2, p2).value)
    {
      LookupSetCon(t, value, c, s, p, c2, s2, p2);
      if (c2, s2, p2) == (c, s, p) {
        SetExtentSettled(Current(t, c, s, p), value);
      }
    }
  }

  /** The table CompPoint's constructor seeds: the Switch controller's two sticks. */
  function SeededTable(): ConTable
  {
    var t0: ConTable := map[];
    var t1 := SetCon(t0, 0.75, Switch, PosLeft, PointX);
    var t2 := SetCon(t1, -0.55, Switch, PosLeft, PointX);
    var t3 := SetCon(t2, 0.55, Switch, PosLeft, PointY);
    var t4 := SetCon(t3, -0.70, Switch, PosLeft, PointY);
    var t5 := SetCon(t4, 0.62, Switch, PosRight, PointX);
    var t6 := SetCon(t5, -0.70, Switch, PosRight, PointX);
    var t7 := SetCon(t6, 0.60, Switch, PosRight, PointY);
    SetCon(t7, -0.70, Switch, PosRight, PointY)
  }

  /** The extents the constructor seeds, key by key. */
  function SeededExtent(c: ConType, s: PosType, p: PointType): Option<Extent>
  {
    if c != Switch then None
    else if s == PosLeft && p == PointX then Some(Extent(0.75, 0.55))
    else if s == PosLeft && p == PointY then Some(Extent(0.55, 0.70))
    else if s == PosRight && p == PointX then Some(Extent(0.62, 0.70))
    else if s == PosRight && p == PointY then Some(Extent(0.60, 0.70))
    else None
  }

  /** The eight Set calls leave exactly the seeded extents: later calls keep the other direction. */
  lemma SeededTableContents(c: ConType, s: PosType, p: PointType)
    ensures Lookup(SeededTable(), c, s, p) == SeededExtent(c, s, p)
  {
    var t0: ConTable := map[];
    var t1 := SetCon(t0, 0.75, Switch, PosLeft, PointX);
    var t2 := SetCon(t1, -0.55, Switch, PosLeft, PointX);
    var t3 := SetCon(t2, 0.55, Switch, PosLeft, PointY);
    var t4 := SetCon(t3, -0.70, Switch, PosLeft, PointY);
    var t5 := SetCon(t4, 0.62, Switch, PosRight, PointX);
    var t6 := SetCon(t5, -0.70, Switch, PosRight, PointX);
    var t7 := SetCon(t6, 0.60, Switch, PosRight, PointY);
    LookupSetCon(t0, 0.75, Switch, PosLeft, PointX, c, s, p);
    LookupSetCon(t1, -0.55, Switch, PosLeft, PointX, c, s, p);
    LookupSetCon(t2, 0.55, Switch, PosLeft, PointY, c, s, p);
    LookupSetCon(t3, -0.70, Switch, PosLeft, PointY, c, s, p);
    LookupSetCon(t4, 0.62, Switch, PosRight, PointX, c, s, p);
    LookupSetCon(t5, -0.70, Switch, PosRight, PointX, c, s, p);
    LookupSetCon(t6, 0.60, Switch, PosRight, PointY, c, s, p);
    LookupSetCon(t7, -0.70, Switch, PosRight, PointY, c, s, p);
  }

  /** Full deflection of a seeded axis maps to +/-1; other controllers pass the value through. */
  lemma SeededTableExamples(value: real, c: ConType)
    requires c != Switch
    ensures DoCompCon(SeededTable(), 0.75, Switch, PosLeft, PointX) == 1.0
    ensures DoCompCon(SeededTable(), -0.55, Switch, PosLeft, PointX) == -1.0
    ensures DoCompCon(SeededTable(), value, c, PosLeft, PointX) == value
  {
    SeededTableContents(Switch, PosLeft, PointX);
    SeededTableContents(c, PosLeft, PointX);
    DoCompLookup(SeededTable(), 0.75, Switch, PosLeft, PointX);
    DoCompLookup(SeededTable(), -0.55, Switch, PosLeft, PointX);
    DoCompLookup(SeededTable(), value, c, PosLeft, PointX);
  }

  /** CompPoint: the calibration table, with the nested Set creating entries on demand. */
  class CompPoint {
    var table: ConTable

    /** The seeded table of CompPoint's constructor. */
    constructor ()
      ensures table == SeededTable()
    {
      table := map[];
      new;
      Set(0.75, Switch, PosLeft, PointX);
      Set(-0.55, Switch, PosLeft, PointX);
      Set(0.55, Switch, PosLeft, PointY);
      Set(-0.70, Switch, PosLeft, PointY);
      Set(0.62, Switch, PosRight, PointX);
      Set(-0.70, Switch, PosRight, PointX);
      Set(0.60, Switch, PosRight, PointY);
      Set(-0.70, Switch, PosRight, PointY);
    }

    /** CompPoint.Set, delegating to CompPOS.Set and CompPNT.Set. */
    method Set(value: real, c: ConType, s: PosType, p: PointType)
      modifies this
      ensures table == SetCon(old(table), value, c, s, p)
    {
      table := SetCon(table, value, c, s, p);
    }

    /** CompPoint.DoComp, delegating to CompPOS.DoComp and CompPNT.DoComp. */
    function DoComp(value: real, c: ConType, s: PosType, p: PointType): (r: real)
      reads this
      ensures Lookup(table, c, s, p).None? ==> r == value
      ensures Lookup(table, c, s, p).Some? ==> r == Scale(Lookup(table, c, s, p).value, value)
    {
      DoCompLookup(table, value, c, s, p);
      DoCompCon(table, value, c, s, p)
    }
  }
}
