/**
 * The VecComp helpers: component-wise comparisons and angle normalisation on
 * vectors. Floats are taken as exact reals.
 */
module VecComp {

  datatype Vec2 = Vec2(x: real, y: real)
  datatype Vec3 = Vec3(x: real, y: real, z: real)
  datatype Vec4 = Vec4(x: real, y: real, z: real, w: real)

  const Zero2: Vec2 := Vec2(0.0, 0.0)
  const Zero4: Vec4 := Vec4(0.0, 0.0, 0.0, 0.0)

  /**
   * Unity's vector `==` is approximate: two vectors are equal when the squared
   * length of their difference is below kEpsilon * kEpsilon, kEpsilon = 1e-5.
   */
  const Epsilon: real := 0.00001

  predicate NearZero4(v: Vec4)
  {
    v.x * v.x + v.y * v.y + v.z * v.z + v.w * v.w < Epsilon * Epsilon
  }

  predicate NearZero2(v: Vec2)
  {
    v.x * v.x + v.y * v.y < Epsilon * Epsilon
  }

  function Abs(r: real): (a: real)
    ensures a >= 0.0 && (a == r || a == -r)
  {
    if r < 0.0 then -r else r
  }

  function Max(a: real, b: real): real { if a < b then b else a }
  function Min(a: real, b: real): real { if a < b then a else b }

  /** The component of larger magnitude; a tie keeps `l`. */
  function Larger(l: real, r: real): real
  {
    if Abs(r) > Abs(l) then r else l
  }

  /** The component of smaller magnitude; a tie keeps `l`. */
  function Smaller(l: real, r: real): real
  {
    if Abs(r) < Abs(l) then r else l
  }

  /** What AbsMax and AbsMax2 promise of one component. */
  predicate MergedLarger(l: real, r: real, m: real)
  {
    Abs(m) == Max(Abs(l), Abs(r)) && (m == l || m == r) && (Abs(r) <= Abs(l) ==> m == l)
  }

  /** What AbsMin promises of one component. */
  predicate MergedSmaller(l: real, r: real, m: real)
  {
    Abs(m) == Min(Abs(l), Abs(r)) && (m == l || m == r) && (Abs(r) >= Abs(l) ==> m == l)
  }

  /** VecComp.AbsMax: per component, the larger magnitude; a (near-)zero rhs changes nothing. */
  function AbsMax(lhs: Vec4, rhs: Vec4): (r: Vec4)
    ensures NearZero4(rhs) ==> r == lhs
    ensures !NearZero4(rhs) ==>
      MergedLarger(lhs.x, rhs.x, r.x) && MergedLarger(lhs.y, rhs.y, r.y) &&
      MergedLarger(lhs.z, rhs.z, r.z) && MergedLarger(lhs.w, rhs.w, r.w)
  {
    if !NearZero4(rhs) then
      Vec4(Larger(lhs.x, rhs.x), Larger(lhs.y, rhs.y), Larger(lhs.z, rhs.z), Larger(lhs.w, rhs.w))
    else lhs
  }

  /** VecComp.AbsMin: per component, the smaller magnitude; a (near-)zero lhs is returned as is. */
  function AbsMin(lhs: Vec4, rhs: Vec4): (r: Vec4)
    ensures NearZero4(lhs) ==> r == lhs
    ensures !NearZero4(lhs) ==>
      MergedSmaller(lhs.x, rhs.x, r.x) && MergedSmaller(lhs.y, rhs.y, r.y) &&
      MergedSmaller(lhs.z, rhs.z, r.z) && MergedSmaller(lhs.w, rhs.w, r.w)
  {
    if !NearZero4(lhs) then
      Vec4(Smaller(lhs.x, rhs.x), Smaller(lhs.y, rhs.y), Smaller(lhs.z, rhs.z), Smaller(lhs.w, rhs.w))
    else lhs
  }

  /** VecComp.AbsMax2: AbsMax on two components. */
  function AbsMax2(lhs: Vec2, rhs: Vec2): (r: Vec2)
    ensures NearZero2(rhs) ==> r == lhs
    ensures !NearZero2(rhs) ==> MergedLarger(lhs.x, rhs.x, r.x) && MergedLarger(lhs.y, rhs.y, r.y)
  {
    if !NearZero2(rhs) then Vec2(Larger(lhs.x, rhs.x), Larger(lhs.y, rhs.y)) else lhs
  }

  /** AbsMax2 is AbsMax on vectors whose last two components are zero. */
  lemma AbsMax2IsAbsMax(lhs: Vec2, rhs: Vec2)
    ensures var r := AbsMax(Vec4(lhs.x, lhs.y, 0.0, 0.0), Vec4(rhs.x, rhs.y, 0.0, 0.0));
      AbsMax2(lhs, rhs) == Vec2(r.x, r.y) && r.z == 0.0 && r.w == 0.0
  {}

  /** Merging a vector with itself changes nothing. */
  lemma AbsMaxSelf(v: Vec4)
    ensures AbsMax(v, v) == v
  {}

  /** Merging in a larger vector never shrinks a component of the result. */
  lemma AbsMaxNeverShrinks(lhs: Vec4, rhs: Vec4)
    ensures var r := AbsMax(lhs, rhs);
      Abs(r.x) >= Abs(lhs.x) && Abs(r.y) >= Abs(lhs.y) && Abs(r.z) >= Abs(lhs.z) && Abs(r.w) >= Abs(lhs.w)
  {}

  /** VecComp.MaxRadius: the largest component magnitude. */
  function MaxRadius(v: Vec4): (m: real)
    ensures m >= Abs(v.x) && m >= Abs(v.y) && m >= Abs(v.z) && m >= Abs(v.w)
    ensures m == Abs(v.x) || m == Abs(v.y) || m == Abs(v.z) || m == Abs(v.w)
  {
    var m0 := Abs(v.x);
    var m1 := if Abs(v.y) > m0 then Abs(v.y) else m0;
    var m2 := if Abs(v.z) > m1 then Abs(v.z) else m1;
    if Abs(v.w) > m2 then Abs(v.w) else m2
  }

  /**
   * VecComp.AbsCompFloor on one value; `floor` stands for Mathf.Pow(10, minpow),
   * taken as a given constant.
   */
  function AbsCompFloor(v: real, floor: real): (r: real)
    ensures Abs(v) < floor ==> r == 0.0
    ensures Abs(v) >= floor ==> r == v
  {
    if Abs(v) < floor then 0.0 else v
  }

  /** Flooring twice is flooring once, for a positive floor. */
  lemma AbsCompFloorIdempotent(v: real, floor: real)
    requires floor > 0.0
    ensures AbsCompFloor(AbsCompFloor(v, floor), floor) == AbsCompFloor(v, floor)
  {}

  /** VecComp.AbsCompFloor on a Vector3, component by component. */
  function AbsCompFloor3(v: Vec3, floor: real): (r: Vec3)
    ensures r.x == (if Abs(v.x) < floor then 0.0 else v.x)
    ensures r.y == (if Abs(v.y) < floor then 0.0 else v.y)
    ensures r.z == (if Abs(v.z) < floor then 0.0 else v.z)
  {
    Vec3(AbsCompFloor(v.x, floor), AbsCompFloor(v.y, floor), AbsCompFloor(v.z, floor))
  }

  // ---------------------------------------------------------------------
  // Radius conversion

  /**
   * What the model takes from trigonometry, as given functions: a vector's
   * length (a square root), its direction `(AbsCompFloor(cos a),
   * AbsCompFloor(sin a))` for `a = atan2(y, x)`, and its heading in degrees
   * (ToAbsDeg).
   */
  datatype Geometry = Geometry(magnitude: Vec2 -> real, direction: Vec2 -> Vec2, heading: Vec2 -> real)

  /**
   * VecComp.ConvMag with the default conversion radius 1 and upper limit: a
   * nonzero vector is rescaled along its direction to length
   * min(1, |vec| / maxRadius); a zero vector or a non-positive radius leaves
   * it as it is.
   */
  function ConvMag(g: Geometry, vec: Vec2, maxRadius: real): (r: Vec2)
    ensures NearZero2(vec) || maxRadius <= 0.0 ==> r == vec
  {
    if !NearZero2(vec) && maxRadius > 0.0 then
      var radius := g.magnitude(vec);
      var mag := if radius > maxRadius then 1.0 else radius / maxRadius;
      Vec2(mag * g.direction(vec).x, mag * g.direction(vec).y)
    else vec
  }

  /** ConvMag lands inside the unit square when the direction does. */
  lemma ConvMagBounded(g: Geometry, vec: Vec2, maxRadius: real)
    requires !NearZero2(vec) && maxRadius > 0.0 && g.magnitude(vec) >= 0.0
    requires Abs(g.direction(vec).x) <= 1.0 && Abs(g.direction(vec).y) <= 1.0
    ensures Abs(ConvMag(g, vec, maxRadius).x) <= 1.0 && Abs(ConvMag(g, vec, maxRadius).y) <= 1.0
  {
    var radius := g.magnitude(vec);
    var mag := if radius > maxRadius then 1.0 else radius / maxRadius;
    assert 0.0 <= mag <= 1.0 by {
      if radius <= maxRadius {
        DivideAtMostOne(radius, maxRadius);
      }
    }
    UnitProduct(mag, g.direction(vec).x);
    UnitProduct(mag, g.direction(vec).y);
  }

  lemma DivideAtMostOne(a: real, b: real)
    requires 0.0 <= a <= b && b > 0.0
    ensures 0.0 <= a / b <= 1.0
  {}

  /** A vector at least maxRadius long saturates to its direction. */
  lemma ConvMagSaturates(g: Geometry, vec: Vec2, maxRadius: real)
    requires !NearZero2(vec) && maxRadius > 0.0 && g.magnitude(vec) >= maxRadius
    ensures ConvMag(g, vec, maxRadius) == g.direction(vec)
  {
    var radius := g.magnitude(vec);
    if radius == maxRadius {
      assert radius / maxRadius == 1.0;
    }
  }

  lemma UnitProduct(m: real, d: real)
    requires 0.0 <= m <= 1.0 && Abs(d) <= 1.0
    ensures Abs(m * d) <= 1.0
  {
    if d >= 0.0 {
      assert m * d <= 1.0 * d;
    } else {
      assert m * -d <= 1.0 * -d;
    }
  }

  /** VecComp.SetCurcler: the component-wise larger of the two, converted to the unit radius. */
  function SetCurcler(g: Geometry, lhs: Vec2, rhs: Vec2): (r: Vec2)
    ensures NearZero2(rhs) ==> r == ConvMag(g, lhs, 1.0)
  {
    ConvMag(g, AbsMax2(lhs, rhs), 1.0)
  }

  // ---------------------------------------------------------------------
  // Angles

  /** Truncation toward zero, as a float-to-int cast does. */
  function Trunc(q: real): int
  {
    if q >= 0.0 then q.Floor else -((-q).Floor)
  }

  /**
   * C#'s `%` on floats, a - m * trunc(a / m): the remainder takes the sign of
   * the dividend.
   */
  function FMod(a: real, m: real): (r: real)
    requires m > 0.0
    ensures -m < r < m
    ensures a >= 0.0 ==> r >= 0.0
    ensures a < 0.0 ==> r <= 0.0
  {
    var q := a / m;
    var f := q - Trunc(q) as real;
    TruncBounds(q);
    QuotientSign(a, m);
    FractionBounds(m, f, m * f);
    m * f
  }

  lemma QuotientSign(a: real, m: real)
    requires m > 0.0
    ensures a >= 0.0 <==> a / m >= 0.0
  {}

  lemma FractionBounds(m: real, f: real, r: real)
    requires m > 0.0 && -1.0 < f < 1.0 && r == m * f
    ensures -m < r < m && (f >= 0.0 ==> r >= 0.0) && (f <= 0.0 ==> r <= 0.0)
  {
    if f > 0.0 {
      ScaleFraction(m, f);
    } else if f < 0.0 {
      ScaleNegativeFraction(m, f);
    } else {
      assert r == 0.0;
    }
  }

  lemma ScaleNegativeFraction(m: real, f: real)
    requires m > 0.0 && -1.0 < f < 0.0
    ensures -m < m * f < 0.0
  {}

  lemma TruncBounds(q: real)
    ensures q >= 0.0 ==> 0.0 <= q - Trunc(q) as real < 1.0
    ensures q < 0.0 ==> -1.0 < q - Trunc(q) as real <= 0.0
  {
    if q >= 0.0 {
      assert q.Floor as real <= q;
    } else {
      assert (-q).Floor as real <= -q;
    }
  }

  lemma ScaleFraction(m: real, f: real)
    requires m > 0.0 && 0.0 <= f < 1.0
    ensures 0.0 <= m * f < m
  {}


  /** `d` is a whole number of turns. */
  predicate WholeTurns(d: real)
  {
    (d / 360.0).Floor as real == d / 360.0
  }

  lemma WholeTurnsOf(d: real, k: int)
    requires d == 360.0 * (k as real)
    ensures WholeTurns(d)
  {
    assert d / 360.0 == k as real;
  }

  lemma WholeTurnsSum(a: real, b: real)
    requires WholeTurns(a) && WholeTurns(b)
    ensures WholeTurns(a + b) && WholeTurns(a - b)
  {
    var ka, kb := (a / 360.0).Floor, (b / 360.0).Floor;
    WholeTurnsOf(a + b, ka + kb);
    WholeTurnsOf(a - b, ka - kb);
  }

  /** VecComp.AbsDeg with DEGMINUS false: the angle in [0, 360). */
  function AbsDeg(deg: real): (r: real)
    ensures 0.0 <= r < 360.0
    ensures WholeTurns(r - deg)
  {
    var m := FMod(deg, 360.0);
    WholeTurnsOf(m - deg, -Trunc(deg / 360.0));
    if m < 0.0 then
      WholeTurnsOf(360.0, 1);
      WholeTurnsSum(360.0, m - deg);
      360.0 + m
    else m
  }

  /** An angle already in [0, 360) is its own normal form. */
  lemma AbsDegOfNormal(deg: real)
    requires 0.0 <= deg < 360.0
    ensures AbsDeg(deg) == deg
  {
    assert Trunc(deg / 360.0) == 0;
  }

  /** Two angles a whole number of turns apart have the same normal form. */
  lemma AbsDegUnique(deg: real, a: real)
    requires 0.0 <= a < 360.0 && WholeTurns(a - deg)
    ensures AbsDeg(deg) == a
  {
    var r := AbsDeg(deg);
    WholeTurnsSum(r - deg, a - deg);
    var k := ((r - a) / 360.0).Floor;
    assert r - a == 360.0 * (k as real);
  }

  /** VecComp.EulerShortest on one angle: the target, moved by whole turns to within 180 of the source. */
  function EulerShortest(fromEuler: real, toEuler: real): (r: real)
    ensures WholeTurns(r - toEuler)
    ensures -180.0 <= r - AbsDeg(fromEuler) <= 180.0
  {
    var f := AbsDeg(fromEuler);
    var t := AbsDeg(toEuler);
    var t1 :=
      if f < 180.0 then (if f + 180.0 <= t then t - 360.0 else t)
      else if f > 180.0 then (if f - 180.0 >= t then t + 360.0 else t)
      else t;
    var t2 := if f == 0.0 && t1 == 360.0 then 0.0 else t1;
    WholeTurnsOf(360.0, 1);
    WholeTurnsSum(t - toEuler, 360.0);
    WholeTurnsOf(0.0, 0);
    WholeTurnsSum(t - toEuler, 0.0);
    t2
  }

  /** Mathf.Sign: 1 for zero and positive values, -1 otherwise. */
  function Sign(r: real): real { if r >= 0.0 then 1.0 else -1.0 }

  /** VecComp.EulerShortest on three angles; `xlimit` first clamps the target's x to +/-90. */
  function EulerShortest3(fromEuler: Vec3, toEuler: Vec3, xlimit: bool): (r: Vec3)
    ensures var tx := if xlimit && Abs(toEuler.x) > 90.0 then Sign(toEuler.x) * 90.0 else toEuler.x;
      WholeTurns(r.x - tx) && -180.0 <= r.x - AbsDeg(fromEuler.x) <= 180.0
    ensures WholeTurns(r.y - toEuler.y) && -180.0 <= r.y - AbsDeg(fromEuler.y) <= 180.0
    ensures WholeTurns(r.z - toEuler.z) && -180.0 <= r.z - AbsDeg(fromEuler.z) <= 180.0
  {
    var tx := if xlimit && Abs(toEuler.x) > 90.0 then Sign(toEuler.x) * 90.0 else toEuler.x;
    Vec3(EulerShortest(fromEuler.x, tx), EulerShortest(fromEuler.y, toEuler.y), EulerShortest(fromEuler.z, toEuler.z))
  }

  /**
   * VecComp.LimitForce: a force component is dropped when the current speed on
   * that axis exceeds |max + bias|; the result is a Vector2, so z is lost.
   */
  function LimitForce(force: Vec3, current: Vec3, maxVelocity: Vec3, bias: Vec3): (r: Vec2)
    ensures Abs(current.x) > Abs(maxVelocity.x + bias.x) ==> r.x == 0.0
    ensures Abs(current.x) <= Abs(maxVelocity.x + bias.x) ==> r.x == force.x
    ensures Abs(current.y) > Abs(maxVelocity.y + bias.y) ==> r.y == 0.0
    ensures Abs(current.y) <= Abs(maxVelocity.y + bias.y) ==> r.y == force.y
  {
    var fx := if Abs(current.x) > Abs(maxVelocity.x + bias.x) then 0.0 else force.x;
    var fy := if Abs(current.y) > Abs(maxVelocity.y + bias.y) then 0.0 else force.y;
    Vec2(fx, fy)
  }
}
