/**
 * StickObj: the per-tick stick vectors, one per position key (Left, Right,
 * Center, Move, Rot). Bindings merge their contribution into a key by
 * largest magnitude per component.
 */
module Stick {

  import opened Kinds
  import opened VecComp

  /** The keys StickObj's constructor adds. */
  const StickKeys: set<PosType> := {PosLeft, PosRight, PosCenter, PosMove, PosRot}

  function Scaled(v: Vec2, magnitude: real): Vec2
  {
    Vec2(v.x * magnitude, v.y * magnitude)
  }

  /** Component-wise product, as Unity's Vector2 `*` between two vectors. */
  function ScaledBy(v: Vec2, factor: Vec2): Vec2
  {
    Vec2(v.x * factor.x, v.y * factor.y)
  }

  /**
   * The new value of a key: AbsMax of the stored and the added vector, times
   * the magnitude. AbsMax is called on Vector2 values widened to Vector4 with
   * zero z and w, which AbsMax2IsAbsMax shows is AbsMax2.
   */
  function Merged(current: Vec2, add: Vec2, magnitude: real): Vec2
  {
    Scaled(AbsMax2(current, add), magnitude)
  }

  /** SetMost on the dictionary: only a key that is present is updated. */
  function SetMostMap(m: map<PosType, Vec2>, pos: PosType, add: Vec2, magnitude: real): (r: map<PosType, Vec2>)
    ensures r.Keys == m.Keys
    ensures forall k :: k in m && k != pos ==> r[k] == m[k]
    ensures pos !in m ==> r == m
    ensures pos in m ==> r[pos] == Merged(m[pos], add, magnitude)
  {
    if pos in m then m[pos := Merged(m[pos], add, magnitude)] else m
  }

  /** A combined key such as Left|Move or Right|Rot is not a key of the stick. */
  lemma CombinedKeysAbsent(pos: PosType)
    requires pos in StickKeys
    ensures pos != PosLeftMove && pos != PosRightRot && pos != PosNone
    ensures HasFlag(pos, PosMove) ==> pos == PosMove
    ensures HasFlag(pos, PosRot) ==> pos == PosRot
  {
    assert pos == PosLeft || pos == PosRight || pos == PosCenter || pos == PosMove || pos == PosRot;
  }

  /** With magnitude 1 a merge never shrinks a component, and merging a near-zero vector changes nothing. */
  lemma MergedNeverShrinks(current: Vec2, add: Vec2)
    ensures Abs(Merged(current, add, 1.0).x) >= Abs(current.x)
    ensures Abs(Merged(current, add, 1.0).y) >= Abs(current.y)
    ensures NearZero2(add) ==> Merged(current, add, 1.0) == current
  {}

  /** Merging with magnitude 1 is commutative in the added vectors' magnitudes: each
      component ends with the largest magnitude seen. */
  lemma MergedTwice(current: Vec2, a: Vec2, b: Vec2)
    requires !NearZero2(a) && !NearZero2(b)
    ensures Abs(Merged(Merged(current, a, 1.0), b, 1.0).x) == Max(Max(Abs(current.x), Abs(a.x)), Abs(b.x))
    ensures Abs(Merged(Merged(current, a, 1.0), b, 1.0).y) == Max(Max(Abs(current.y), Abs(a.y)), Abs(b.y))
  {
    var m := AbsMax2(current, a);
    assert Merged(current, a, 1.0) == m;
    assert Merged(m, b, 1.0) == AbsMax2(m, b);
  }

  /** StickObj: a dictionary from position key to vector, updated in place. */
  class StickObj {
    var pos: map<PosType, Vec2>

    /** The constructor adds the five keys with zero vectors. */
    constructor ()
      ensures pos.Keys == StickKeys
      ensures forall k :: k in pos ==> pos[k] == Zero2
    {
      pos := map[PosLeft := Zero2, PosRight := Zero2, PosCenter := Zero2, PosMove := Zero2, PosRot := Zero2];
    }

    /** StickObj.SetMost: merge `add` into key `p` if that key exists. */
    method SetMost(p: PosType, add: Vec2, magnitude: real)
      modifies this
      ensures pos == SetMostMap(old(pos), p, add, magnitude)
    {
      if p in pos {
        pos := pos[p := Merged(pos[p], add, magnitude)];
      }
    }

    /** StickObj.PosClear: every key is set back to the zero vector. */
    method PosClear()
      modifies this
      ensures pos.Keys == old(pos).Keys
      ensures forall k :: k in pos ==> pos[k] == Zero2
    {
      var keys := pos.Keys;
      while keys != {}
        invariant keys <= pos.Keys
        invariant pos.Keys == old(pos).Keys
        invariant forall k :: k in pos && k !in keys ==> pos[k] == Zero2
        decreases keys
      {
        var k :| k in keys;
        pos := pos[k := Zero2];
        keys := keys - {k};
      }
    }

    /** The indexer's setter, `Stick[p] = v`, on a key that exists. */
    method Assign(p: PosType, v: Vec2)
      requires p in pos
      modifies this
      ensures pos == old(pos)[p := v]
      ensures pos.Keys == old(pos).Keys
    {
      pos := pos[p := v];
    }

    /** Stick[Rot] *= factor, as ControllerUpdate does with RotReverseComp. */
    method ScaleKey(p: PosType, factor: Vec2)
      requires p in pos
      modifies this
      ensures pos == old(pos)[p := ScaledBy(old(pos)[p], factor)]
    {
      pos := pos[p := ScaledBy(pos[p], factor)];
    }
  }
}
