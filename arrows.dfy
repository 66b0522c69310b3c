/**
 * The two arrow rules of the controller tick: arrow buttons become a Move
 * (or Rot) vector (ArrowToMove), and a Move (or Rot) vector beyond a dead
 * zone becomes arrow buttons by the sector its heading falls in
 * (MoveToArrow). The heading itself (an atan2) is an input here.
 */
module Arrows {

  import opened Buttons
  import opened VecComp
  import opened Classify
  import opened Touch

  /** The four arrow buttons of one stick: UP/DOWN/LEFT/RIGHT or R_UP/R_DOWN/R_LEFT/R_RIGHT. */
  datatype ArrowKeys = ArrowKeys(up: ButtonType, down: ButtonType, left: ButtonType, right: ButtonType)

  const MoveArrows: ArrowKeys := ArrowKeys(UP, DOWN, LEFT, RIGHT)
  const RotArrows: ArrowKeys := ArrowKeys(R_UP, R_DOWN, R_LEFT, R_RIGHT)

  // ---------------------------------------------------------------------
  // ArrowToMove

  /**
   * One axis of the arrow vector: the guard asks (OR mode) whether either
   * key of the pair is held, then each held key adds its signed strength.
   */
  function ArrowAxis(vb: ButtonType, plus: ButtonType, minus: ButtonType, plusValue: real): real
  {
    if JudgeButton(plus | minus, vb, false) then
      (if JudgeButton(plus, vb, false) then plusValue else 0.0)
      + (if JudgeButton(minus, vb, false) then -plusValue else 0.0)
    else 0.0
  }

  /**
   * The vector ArrowToMove builds from the held arrows with strength `srg`.
   * Up is +srg on y when Yreverse is set (the default) and -srg otherwise.
   */
  function ArrowVector(vb: ButtonType, keys: ArrowKeys, srg: real, yreverse: bool): Vec2
  {
    Vec2(ArrowAxis(vb, keys.right, keys.left, srg),
         ArrowAxis(vb, keys.up, keys.down, if yreverse then srg else -srg))
  }

  /** The reference value of one axis: +v for the plus key, -v for the minus key, 0 for both or neither. */
  function AxisOf(plus: bool, minus: bool, v: real): (r: real)
    ensures plus == minus ==> r == 0.0
    ensures plus && !minus ==> r == v
    ensures minus && !plus ==> r == -v
  {
    if plus && !minus then v else if minus && !plus then -v else 0.0
  }

  /**
   * ArrowToMove for the Move arrows in terms of the held bits: the pair
   * guard is redundant, x is +srg for Right and -srg for Left, y is the
   * signed strength for Up and its negation for Down, and an opposite pair
   * cancels.
   */
  lemma MoveArrowVector(vb: ButtonType, srg: real, yreverse: bool)
    ensures ArrowVector(vb, MoveArrows, srg, yreverse)
         == Vec2(AxisOf(Has(vb, RIGHT), Has(vb, LEFT), srg),
                 AxisOf(Has(vb, UP), Has(vb, DOWN), if yreverse then srg else -srg))
  {
  }

  /** The same for the Rot arrows. */
  lemma RotArrowVector(vb: ButtonType, srg: real, yreverse: bool)
    ensures ArrowVector(vb, RotArrows, srg, yreverse)
         == Vec2(AxisOf(Has(vb, R_RIGHT), Has(vb, R_LEFT), srg),
                 AxisOf(Has(vb, R_UP), Has(vb, R_DOWN), if yreverse then srg else -srg))
  {
  }

  // ---------------------------------------------------------------------
  // MoveToArrow

  /** The sectors a heading (degrees in [0, 360)) falls in; neighbouring sectors overlap by 50 degrees. */
  datatype Heading = Heading(up: bool, left: bool, down: bool, right: bool)

  function HeadingOf(rot: real): (h: Heading)
    // every heading names at least one arrow, and never two opposite ones
    ensures h.up || h.left || h.down || h.right
    ensures !(h.up && h.down) && !(h.left && h.right)
  {
    Heading(160.0 > rot > 20.0, 250.0 > rot > 110.0, 340.0 > rot > 200.0, rot > 290.0 || 70.0 > rot)
  }

  /** Two arrows at once only in the 50-degree overlaps between neighbouring sectors. */
  lemma HeadingDiagonals(rot: real)
    ensures var h := HeadingOf(rot);
      && (h.up && h.right) == (70.0 > rot > 20.0)
      && (h.up && h.left) == (160.0 > rot > 110.0)
      && (h.left && h.down) == (250.0 > rot > 200.0)
      && (h.down && h.right) == (340.0 > rot > 290.0)
  {}

  /** The buttons a heading sets; the vertical sector buttons swap when Yreverse is off. */
  function HeadingMask(h: Heading, keys: ArrowKeys, yreverse: bool): ButtonType
  {
    var m1 := OrPick(NONE, h.up, if yreverse then keys.up else keys.down);
    var m2 := OrPick(m1, h.left, keys.left);
    var m3 := OrPick(m2, h.down, if yreverse then keys.down else keys.up);
    OrPick(m3, h.right, keys.right)
  }

  /** MoveToArrow for one stick: nothing unless the vector is longer than the dead zone. */
  function ArrowsFromStick(v: Vec2, rot: real, dead: real, keys: ArrowKeys, yreverse: bool): ButtonType
  {
    if LongerThan(v, dead) then HeadingMask(HeadingOf(rot), keys, yreverse) else NONE
  }

  /** The Move arrows a heading sets: Up and Down follow the vertical sectors (swapped without Yreverse). */
  lemma MoveHeadingBits(h: Heading, yreverse: bool)
    ensures Has(HeadingMask(h, MoveArrows, yreverse), UP) == (if yreverse then h.up else h.down)
    ensures Has(HeadingMask(h, MoveArrows, yreverse), DOWN) == (if yreverse then h.down else h.up)
    ensures Has(HeadingMask(h, MoveArrows, yreverse), LEFT) == h.left
    ensures Has(HeadingMask(h, MoveArrows, yreverse), RIGHT) == h.right
  {}

  /** The same for the Rot arrows. */
  lemma RotHeadingBits(h: Heading, yreverse: bool)
    ensures Has(HeadingMask(h, RotArrows, yreverse), R_UP) == (if yreverse then h.up else h.down)
    ensures Has(HeadingMask(h, RotArrows, yreverse), R_DOWN) == (if yreverse then h.down else h.up)
    ensures Has(HeadingMask(h, RotArrows, yreverse), R_LEFT) == h.left
    ensures Has(HeadingMask(h, RotArrows, yreverse), R_RIGHT) == h.right
  {}

  /**
   * MoveToArrow never sets both Up and Down nor both Left and Right, sets
   * at least one arrow for a vector longer than the dead zone and none for
   * a shorter one.
   */
  lemma MoveStickArrows(v: Vec2, rot: real, dead: real, yreverse: bool)
    ensures var m := ArrowsFromStick(v, rot, dead, MoveArrows, yreverse);
      && !(Has(m, UP) && Has(m, DOWN))
      && !(Has(m, LEFT) && Has(m, RIGHT))
      && (LongerThan(v, dead) ==> Has(m, UP) || Has(m, DOWN) || Has(m, LEFT) || Has(m, RIGHT))
      && (!LongerThan(v, dead) ==> m == NONE)
  {
    MoveHeadingBits(HeadingOf(rot), yreverse);
  }

  lemma RotStickArrows(v: Vec2, rot: real, dead: real, yreverse: bool)
    ensures var m := ArrowsFromStick(v, rot, dead, RotArrows, yreverse);
      && !(Has(m, R_UP) && Has(m, R_DOWN))
      && !(Has(m, R_LEFT) && Has(m, R_RIGHT))
      && (LongerThan(v, dead) ==> Has(m, R_UP) || Has(m, R_DOWN) || Has(m, R_LEFT) || Has(m, R_RIGHT))
      && (!LongerThan(v, dead) ==> m == NONE)
  {
    RotHeadingBits(HeadingOf(rot), yreverse);
  }
}
