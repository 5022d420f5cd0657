/**
 * The Rotator operations: rotation about one axis, the "full" rotation
 * driven by a spherical unit and a delta, and the quaternion sandwich.
 *
 * The Commons Rotator works on plain doubles and the Converter Rotator on
 * Point suppliers through Point.multiply, which is the plain product; the
 * two classes compute the same formulas, so one set of functions models
 * both. Each rotation returns a fresh point.
 */
module Rotator {
  import opened JavaMath
  import opened Utilities
  import opened Quaternions
  import opened Vectors
  import opened Spatial
  import opened Units
  import opened Polarizer

  /** The squared distance of a 3D point from the origin. */
  function SquaredLength3(p: Point3D): real {
    Squared(p.x) + Squared(p.y) + Squared(p.z)
  }

  /** The squared distance of a 2D point from the origin. */
  function SquaredLength2(p: Point2D): real {
    Squared(p.x) + Squared(p.z)
  }

  // ---------------------------------------------------------------------
  // Rotation about one axis.
  // ---------------------------------------------------------------------

  /** rotateX(IPoint3D, SphericalUnit): turns (y, z) by the unit's theta; x is kept. */
  function RotateX(point: Point3D, unit: SphericalUnit): (r: Point3D)
    ensures r.x == point.x
  {
    var c := Cos(unit.theta);
    var s := Sin(unit.theta);
    Point3D(point.x, point.y * c - point.z * s, point.y * s + point.z * c)
  }

  /** rotateY(IPoint3D, SphericalUnit): turns (x, z) by the unit's phi; y is kept. */
  function RotateY(point: Point3D, unit: SphericalUnit): (r: Point3D)
    ensures r.y == point.y
  {
    var c := Cos(unit.phi);
    var s := Sin(unit.phi);
    Point3D(point.x * c - point.z * s, point.y, point.x * s + point.z * c)
  }

  /** rotateZ(IPoint3D, SphericalUnit): turns (x, y) by the unit's theta; z is kept. */
  function RotateZ(point: Point3D, unit: SphericalUnit): (r: Point3D)
    ensures r.z == point.z
  {
    var c := Cos(unit.theta);
    var s := Sin(unit.theta);
    Point3D(point.x * c - point.y * s, point.x * s + point.y * c, point.z)
  }

  /** Turning the plane pair (a, b) by an angle with sine s and cosine c keeps a^2 + b^2. */
  lemma PlaneTurn(a: real, b: real, c: real, s: real)
    requires s * s + c * c == 1.0
    ensures Squared(a * c - b * s) + Squared(a * s + b * c) == Squared(a) + Squared(b)
  {
    assert (a * c - b * s) * (a * c - b * s) + (a * s + b * c) * (a * s + b * c)
        == (a * a) * (s * s + c * c) + (b * b) * (s * s + c * c);
  }

  /** Each single-axis rotation keeps the distance from the origin. */
  lemma SingleAxisKeepsLength(point: Point3D, unit: SphericalUnit)
    requires SinCosLaw()
    ensures SquaredLength3(RotateX(point, unit)) == SquaredLength3(point)
    ensures SquaredLength3(RotateY(point, unit)) == SquaredLength3(point)
    ensures SquaredLength3(RotateZ(point, unit)) == SquaredLength3(point)
    ensures MagnitudeOf3(RotateX(point, unit).x, RotateX(point, unit).y, RotateX(point, unit).z)
         == MagnitudeOf3(point.x, point.y, point.z)
  {
    RotateXKeepsLength(point, unit);
    RotateYKeepsLength(point, unit);
    RotateZKeepsLength(point, unit);
    SameMagnitude(RotateX(point, unit), point);
  }

  /** rotateX turns the (y, z) plane and keeps x, so the squared length stays. */
  lemma RotateXKeepsLength(point: Point3D, unit: SphericalUnit)
    requires SinCosLaw()
    ensures SquaredLength3(RotateX(point, unit)) == SquaredLength3(point)
  {
    SinCos(unit.theta);
    PlaneTurn(point.y, point.z, Cos(unit.theta), Sin(unit.theta));
  }

  /** rotateY turns the (x, z) plane and keeps y, so the squared length stays. */
  lemma RotateYKeepsLength(point: Point3D, unit: SphericalUnit)
    requires SinCosLaw()
    ensures SquaredLength3(RotateY(point, unit)) == SquaredLength3(point)
  {
    SinCos(unit.phi);
    PlaneTurn(point.x, point.z, Cos(unit.phi), Sin(unit.phi));
  }

  /** rotateZ turns the (x, y) plane and keeps z, so the squared length stays. */
  lemma RotateZKeepsLength(point: Point3D, unit: SphericalUnit)
    requires SinCosLaw()
    ensures SquaredLength3(RotateZ(point, unit)) == SquaredLength3(point)
  {
    SinCos(unit.theta);
    PlaneTurn(point.x, point.y, Cos(unit.theta), Sin(unit.theta));
  }

  /** Points at the same squared distance from the origin have the same magnitude. */
  lemma SameMagnitude(p: Point3D, q: Point3D)
    requires SquaredLength3(p) == SquaredLength3(q)
    ensures MagnitudeOf3(p.x, p.y, p.z) == MagnitudeOf3(q.x, q.y, q.z)
  {
    MagnitudeOfSum(p.x, p.y, p.z, SquaredLength3(q));
    MagnitudeOfSum(q.x, q.y, q.z, SquaredLength3(q));
  }

  /** Angle 0 leaves the point where it is. */
  lemma SingleAxisAtZero(point: Point3D, radius: real, angle: real)
    requires ZeroAngleLaw()
    ensures RotateX(point, SphericalUnit(radius, 0.0, angle)) == point
    ensures RotateY(point, SphericalUnit(radius, angle, 0.0)) == point
    ensures RotateZ(point, SphericalUnit(radius, 0.0, angle)) == point
  {
  }

  /**
   * rotateX(IPoint2D, PolarUnit): the formula reads z where the x formula
   * of rotateZ reads x, so the coordinates trade places.
   */
  function RotateX2(point: Point2D, unit: PolarUnit): (r: Point2D)
    ensures r == RotateZ2(Point2D(point.z, point.x), unit)
  {
    var c := Cos(unit.theta);
    var s := Sin(unit.theta);
    Point2D(point.z * c - point.x * s, point.z * s + point.x * c)
  }

  /** rotateZ(IPoint2D, PolarUnit): turns (x, z) by the unit's theta. */
  function RotateZ2(point: Point2D, unit: PolarUnit): (r: Point2D)
    ensures ZeroAngleLaw() && unit.theta == 0.0 ==> r == point
  {
    var c := Cos(unit.theta);
    var s := Sin(unit.theta);
    Point2D(point.x * c - point.z * s, point.x * s + point.z * c)
  }

  /** fullRotation(IPoint2D, SphericalUnit): the same formula as the 2D rotateZ with the unit's theta. */
  function FullRotation2(point: Point2D, unit: SphericalUnit): (r: Point2D)
    ensures forall radius :: r == RotateZ2(point, PolarUnit(radius, unit.theta))
  {
    var c := Cos(unit.theta);
    var s := Sin(unit.theta);
    Point2D(point.x * c - point.z * s, point.x * s + point.z * c)
  }

  /** At angle 0 the 2D rotateX swaps the coordinates, and rotateZ changes nothing. */
  lemma PlanarAtZero(point: Point2D, radius: real)
    requires ZeroAngleLaw()
    ensures RotateX2(point, PolarUnit(radius, 0.0)) == Point2D(point.z, point.x)
    ensures RotateZ2(point, PolarUnit(radius, 0.0)) == point
  {
  }

  /** The 2D rotateZ keeps the distance from the origin. */
  lemma RotateZ2KeepsLength(point: Point2D, unit: PolarUnit)
    requires SinCosLaw()
    ensures SquaredLength2(RotateZ2(point, unit)) == SquaredLength2(point)
  {
    PlanarTurn(point.x, point.z, unit.theta, RotateZ2(point, unit));
  }

  /** The 2D rotateX keeps the distance from the origin. */
  lemma RotateX2KeepsLength(point: Point2D, unit: PolarUnit)
    requires SinCosLaw()
    ensures SquaredLength2(RotateX2(point, unit)) == SquaredLength2(point)
  {
    PlanarTurn(point.z, point.x, unit.theta, RotateX2(point, unit));
  }

  /** The 2D fullRotation keeps the distance from the origin. */
  lemma FullRotation2KeepsLength(point: Point2D, sphere: SphericalUnit)
    requires SinCosLaw()
    ensures SquaredLength2(FullRotation2(point, sphere)) == SquaredLength2(point)
  {
    PlanarTurn(point.x, point.z, sphere.theta, FullRotation2(point, sphere));
  }

  /** Turning the plane pair (a, b) by angle t into p keeps its squared length. */
  lemma PlanarTurn(a: real, b: real, t: real, p: Point2D)
    requires SinCosLaw()
    requires p == Point2D(a * Cos(t) - b * Sin(t), a * Sin(t) + b * Cos(t))
    ensures SquaredLength2(p) == Squared(a) + Squared(b)
  {
    SinCos(t);
    PlaneTurn(a, b, Cos(t), Sin(t));
  }

  // ---------------------------------------------------------------------
  // The full rotation.
  // ---------------------------------------------------------------------

  /** The radius fullRotation uses: the unit's radius times the cosines of the shifted angles. */
  function FullRotationRadius(delta: Delta, unit: SphericalUnit): real {
    unit.radius * Cos(unit.theta + delta.theta) * Cos(unit.phi + delta.phi)
  }

  /**
   * fullRotation(IPoint3D, Delta, SphericalUnit): the point's own angles
   * atan2(x, z) and atan2(|(x, z)|, y), each shifted by the delta, placed
   * on the sphere of radius FullRotationRadius with the spherical formula.
   */
  function FullRotation(point: Point3D, delta: Delta, unit: SphericalUnit): (r: Point3D)
    ensures var theta := ToPolarUnit2(point.x, point.z).theta + delta.theta;
      var phi := Atan2(MagnitudeOf2(point.x, point.z), point.y) + delta.phi;
      r == ToCartesianUnit3(FullRotationRadius(delta, unit), theta, phi).GetPoint3D()
    ensures var theta := Atan2(point.x, point.z) + delta.theta;
      r.y == PolarUnit(FullRotationRadius(delta, unit), theta).Adjacent()
  {
    var radius := unit.radius * Cos(unit.theta + delta.theta) * Cos(unit.phi + delta.phi);
    var theta := Atan2(point.x, point.z) + delta.theta;
    var phi := Atan2(MagnitudeOf2(point.x, point.z), point.y) + delta.phi;
    Point3D(radius * Sin(theta) * Cos(phi), radius * Cos(theta), radius * Sin(theta) * Sin(phi))
  }

  /** The full rotation lands at distance |r'| from the origin, r' being FullRotationRadius. */
  lemma FullRotationOnSphere(point: Point3D, delta: Delta, unit: SphericalUnit)
    requires SinCosLaw()
    ensures var r := FullRotationRadius(delta, unit);
      SquaredLength3(FullRotation(point, delta, unit)) == r * r
  {
    var r := FullRotationRadius(delta, unit);
    var theta := Atan2(point.x, point.z) + delta.theta;
    var phi := Atan2(MagnitudeOf2(point.x, point.z), point.y) + delta.phi;
    var h := r * Sin(theta);
    SinCos(theta);
    SinCos(phi);
    Legs(h, Cos(phi), Sin(phi));
    Legs(r, Sin(theta), Cos(theta));
  }

  // ---------------------------------------------------------------------
  // The quaternion sandwich.
  // ---------------------------------------------------------------------

  /** conjugate(q) * (0, x, y, z) * q, the product rotate(IPoint3D, IQuaternion) computes. */
  function Sandwich(point: Point3D, q: Quaternion): Quaternion {
    q.Conjugate().Multiply(Pure(point.x, point.y, point.z)).Multiply(q)
  }

  /**
   * rotate(IPoint3D, IQuaternion): the vector part of conj(q) * p * q. The
   * quaternion is not normalized, and the sense is the opposite of
   * CartesianVector.rotate, which computes q * p * conj(q).
   */
  function Rotate(point: Point3D, q: Quaternion): (r: Point3D)
    ensures Vector(r.x, r.y, r.z) == Vector(point.x, point.y, point.z).Sandwich(q.Conjugate())
  {
    var w := q.Conjugate().Multiply(Pure(point.x, point.y, point.z)).Multiply(q);
    ConjugateInvolution(q);
    Point3D(w.x, w.y, w.z)
  }

  /** Rotating by (1, 0, 0, 0) returns the point. */
  lemma RotateByIdentity(point: Point3D)
    ensures Rotate(point, Identity()) == point
  {
    ConjugateInvolution(Identity());
  }

  /** For a unit q the discarded real part is 0 and the distance from the origin is kept. */
  lemma RotateUnit(point: Point3D, q: Quaternion)
    requires q.Norm() == 1.0
    ensures Sandwich(point, q).w == 0.0
    ensures SquaredLength3(Rotate(point, q)) == SquaredLength3(point)
  {
    var c := q.Conjugate();
    var p := Pure(point.x, point.y, point.z);
    var w := Sandwich(point, q);
    assert c.Norm() == 1.0;
    assert w == c.Multiply(p).Multiply(c.Conjugate()) by {
      ConjugateInvolution(q);
    }
    assert w.w == 0.0 by {
      SandwichPure(c, p);
    }
    assert w.Norm() == p.Norm() by {
      SandwichNorm(c, p);
    }
    assert Rotate(point, q) == Point3D(w.x, w.y, w.z);
  }

  /** rotate(IPoint2D, IQuaternion): embeds the point with y = 0 and drops the result's y. */
  function Rotate2(point: Point2D, q: Quaternion): (r: Point2D)
    ensures r.x == Rotate(Point3D(point.x, 0.0, point.z), q).x
    ensures r.z == Rotate(Point3D(point.x, 0.0, point.z), q).z
  {
    var w := q.Conjugate().Multiply(Pure(point.x, 0.0, point.z)).Multiply(q);
    Point2D(w.x, w.z)
  }

  /** Rotating a 2D point by (1, 0, 0, 0) returns the point. */
  lemma Rotate2ByIdentity(point: Point2D)
    ensures Rotate2(point, Identity()) == point
  {
    RotateByIdentity(Point3D(point.x, 0.0, point.z));
  }
}
