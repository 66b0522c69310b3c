/**
 * The two clamps of FollowCamera: SeeLimit, which keeps a view angle inside
 * [min, max] (or, when min > max, outside the gap between them), and the
 * Distance setter, which keeps the follow distance between MinDistance and
 * MaxDistance and raises DoUpdate when the stored distance changes.
 */
module FollowCamera {

  import opened VecComp

  /** A negative bound is normalised into [0, 360); any other bound is kept. */
  function NormalBound(b: real): (r: real)
    ensures 0.0 <= r
    ensures b >= 0.0 ==> r == b
    ensures b < 0.0 ==> r < 360.0 && WholeTurns(r - b)
  {
    if b < 0.0 then AbsDeg(b) else b
  }

  /**
   * The limit on normalised bounds. With min <= max, the value clamped into
   * [min, max]; with min > max, a value strictly inside the gap (max, min)
   * snaps to max up to the midpoint and to min above it, and any other value
   * is kept.
   */
  function Limited(value: real, min: real, max: real): (r: real)
    ensures min <= max ==> min <= r <= max
    ensures min > max ==> !(max < r < min)
    ensures r == value || r == min || r == max
  {
    if min > max then
      if max < value && value < min then
        if (min + max) / 2.0 >= value then max else min
      else value
    else if max < value then max
    else if min > value then min
    else value
  }

  /** An angle is kept exactly when it is already allowed. */
  lemma LimitedKeepsAllowed(value: real, min: real, max: real)
    ensures Limited(value, min, max) == value <==>
      (if min <= max then min <= value <= max else !(max < value < min))
  {
  }

  /** Limiting twice is limiting once. */
  lemma LimitedIdempotent(value: real, min: real, max: real)
    ensures Limited(Limited(value, min, max), min, max) == Limited(value, min, max)
  {
    LimitedKeepsAllowed(Limited(value, min, max), min, max);
  }

  /** A value in the gap snaps to the nearer bound (to max on a tie). */
  lemma LimitedSnapsToNearer(value: real, min: real, max: real)
    requires max < value < min
    ensures var r := Limited(value, min, max);
      (r == max ==> value - max <= min - value) && (r == min ==> min - value < value - max)
  {
  }

  /** Normalising a bound twice changes nothing more. */
  lemma NormalBoundIdempotent(b: real)
    ensures NormalBound(NormalBound(b)) == NormalBound(b)
  {
  }

  /**
   * SeeLimit(value, ref min, ref max): both bounds zero means no limit, and
   * the bounds are left alone; otherwise each negative bound is normalised
   * with AbsDeg and written back, and the value is limited by the
   * normalised bounds.
   */
  method SeeLimit(value: real, min: real, max: real) returns (r: real, newMin: real, newMax: real)
    ensures min == 0.0 && max == 0.0 ==> r == value && newMin == 0.0 && newMax == 0.0
    ensures newMin == NormalBound(min) && newMax == NormalBound(max)
    ensures !(min == 0.0 && max == 0.0) ==> r == Limited(value, newMin, newMax)
  {
    r, newMin, newMax := value, min, max;
    if max == 0.0 && min == 0.0 {
      return;
    }
    if newMax < 0.0 {
      newMax := AbsDeg(newMax);
    }
    if newMin < 0.0 {
      newMin := AbsDeg(newMin);
    }
    if newMin > newMax {
      var mid := (newMin + newMax) / 2.0;
      if newMax < r && r < newMin {
        if mid >= r {
          r := newMax;
        } else {
          r := newMin;
        }
      }
    } else {
      if newMax < r {
        r := newMax;
      } else if newMin > r {
        r := newMin;
      }
    }
  }

  /**
   * The Distance setter's stored value: capped at MaxDistance first, else
   * raised to MinDistance.
   */
  function CappedDistance(value: real, minDistance: real, maxDistance: real): (r: real)
    ensures value > maxDistance ==> r == maxDistance
    ensures value <= maxDistance && value < minDistance ==> r == minDistance
    ensures minDistance <= maxDistance ==> minDistance <= r <= maxDistance
    ensures r == value <==> minDistance <= value <= maxDistance
  {
    if value > maxDistance then maxDistance
    else if value < minDistance then minDistance
    else value
  }

  /** With ordered bounds, storing the stored distance again changes nothing. */
  lemma CappedDistanceIdempotent(value: real, minDistance: real, maxDistance: real)
    requires minDistance <= maxDistance
    ensures var d := CappedDistance(value, minDistance, maxDistance);
      CappedDistance(d, minDistance, maxDistance) == d
  {
  }

  /**
   * With MaxDistance below MinDistance the cap wins for a large value, and
   * re-storing that distance then raises it to MinDistance: the setter is
   * not idempotent on inverted bounds.
   */
  lemma CappedDistanceInverted(value: real, minDistance: real, maxDistance: real)
    requires maxDistance < minDistance && value > maxDistance
    ensures CappedDistance(value, minDistance, maxDistance) == maxDistance
    ensures CappedDistance(maxDistance, minDistance, maxDistance) == minDistance
  {
  }

  class FollowCamera {
    var distance: real
    var maxDistance: real
    var minDistance: real
    var doUpdate: bool

    /** The field initialisers: distance 10, MaxDistance 20, MinDistance 3, DoUpdate false. */
    constructor ()
      ensures distance == 10.0 && maxDistance == 20.0 && minDistance == 3.0 && !doUpdate
    {
      distance, maxDistance, minDistance, doUpdate := 10.0, 20.0, 3.0, false;
    }

    /** The Distance setter: store the capped value; DoUpdate says whether the stored distance changed. */
    method SetDistance(value: real)
      modifies this`distance, this`doUpdate
      ensures distance == CappedDistance(value, minDistance, maxDistance)
      ensures doUpdate == (distance != old(distance))
    {
      var v := value;
      if v > maxDistance {
        v := maxDistance;
      } else if v < minDistance {
        v := minDistance;
      }
      doUpdate := distance != v;
      distance := v;
    }
  }
}
