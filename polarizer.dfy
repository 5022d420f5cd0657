/**
 * The Polarizer conversions between Cartesian, polar and spherical units,
 * and between quaternions and axis-angle rotations.
 *
 * The Commons and Converter Polarizer classes compute the same formulas
 * overload by overload (Converter reads each coordinate through its Point
 * supplier), so one set of functions models both. Theta and Phi suppliers
 * are the angle values they supply, and an IScalar argument contributes
 * only its magnitude.
 */
module Polarizer {
  import opened JavaMath
  import opened Utilities
  import opened Quaternions
  import opened AxisAngles
  import opened Scalars
  import opened Vectors
  import opened Spatial
  import opened Units

  // ---------------------------------------------------------------------
  // Polar to Cartesian: y = 0, x = r sin(theta), z = r cos(theta).
  // ---------------------------------------------------------------------

  /** toCartesianUnit(double radius, double theta). */
  function ToCartesianUnit2(radius: real, theta: real): (u: CartesianUnit)
    ensures u.Paired() && u.point3d.y == 0.0
    ensures u.point3d.x == PolarUnit(radius, theta).Opposite()
    ensures u.point3d.z == PolarUnit(radius, theta).Adjacent()
  {
    NewCartesianUnit(radius * Sin(theta), 0.0, radius * Cos(theta))
  }

  /** toCartesianUnit(PolarUnit). */
  function ToCartesianUnitPolar(unit: PolarUnit): (u: CartesianUnit)
    ensures u.Paired() && u.point3d.y == 0.0
    ensures u.point3d.x == unit.Opposite() && u.point3d.z == unit.Adjacent()
  {
    NewCartesianUnit(unit.radius * Sin(unit.theta), 0.0, unit.radius * Cos(unit.theta))
  }

  /** toCartesianUnit(IScalar, Theta): the scalar's magnitude is the radius. */
  function ToCartesianUnitScalar(scalar: Scalar, theta: real): (u: CartesianUnit)
    ensures u.Paired() && u.point3d.y == 0.0
    ensures u.point3d.x == PolarUnit(scalar.magnitude, theta).Opposite()
    ensures u.point3d.z == PolarUnit(scalar.magnitude, theta).Adjacent()
  {
    NewCartesianUnit(scalar.magnitude * Sin(theta), 0.0, scalar.magnitude * Cos(theta))
  }

  /** The three polar overloads agree on equal inputs. */
  lemma PolarOverloadsAgree(unit: PolarUnit, scalar: Scalar)
    ensures ToCartesianUnitPolar(unit) == ToCartesianUnit2(unit.radius, unit.theta)
    ensures ToCartesianUnitScalar(scalar, unit.theta) == ToCartesianUnit2(scalar.magnitude, unit.theta)
    ensures scalar.magnitude == unit.radius ==> ToCartesianUnitScalar(scalar, unit.theta) == ToCartesianUnitPolar(unit)
  {
  }

  // ---------------------------------------------------------------------
  // Spherical to Cartesian: y = r cos(theta), and the horizontal part is
  // the polar point of radius r sin(theta) at angle phi, read with x as
  // the adjacent side: x = r sin(theta) cos(phi), z = r sin(theta) sin(phi).
  // ---------------------------------------------------------------------

  /** toCartesianUnit(double radius, double theta, double phi). */
  function ToCartesianUnit3(radius: real, theta: real, phi: real): (u: CartesianUnit)
    ensures u.Paired()
    ensures u.point3d.y == PolarUnit(radius, theta).Adjacent()
    ensures u.point3d.x == PolarUnit(PolarUnit(radius, theta).Opposite(), phi).Adjacent()
    ensures u.point3d.z == PolarUnit(PolarUnit(radius, theta).Opposite(), phi).Opposite()
  {
    NewCartesianUnit(radius * Sin(theta) * Cos(phi), radius * Cos(theta), radius * Sin(theta) * Sin(phi))
  }

  /** toCartesianUnit(SphericalUnit). */
  function ToCartesianUnitSpherical(unit: SphericalUnit): (u: CartesianUnit)
    ensures u.Paired()
    ensures u.point3d.y == PolarUnit(unit.radius, unit.theta).Adjacent()
  {
    NewCartesianUnit(unit.radius * Sin(unit.theta) * Cos(unit.phi), unit.radius * Cos(unit.theta),
                     unit.radius * Sin(unit.theta) * Sin(unit.phi))
  }

  /** toCartesianUnit(IScalar, Theta, Phi). */
  function ToCartesianUnitScalar3(scalar: Scalar, theta: real, phi: real): (u: CartesianUnit)
    ensures u.Paired()
    ensures u.point3d.y == PolarUnit(scalar.magnitude, theta).Adjacent()
  {
    NewCartesianUnit(scalar.magnitude * Sin(theta) * Cos(phi), scalar.magnitude * Cos(theta),
                     scalar.magnitude * Sin(theta) * Sin(phi))
  }

  /** The three spherical overloads agree on equal inputs. */
  lemma SphericalOverloadsAgree(unit: SphericalUnit, scalar: Scalar)
    ensures ToCartesianUnitSpherical(unit) == ToCartesianUnit3(unit.radius, unit.theta, unit.phi)
    ensures ToCartesianUnitScalar3(scalar, unit.theta, unit.phi) == ToCartesianUnit3(scalar.magnitude, unit.theta, unit.phi)
  {
  }

  /** At zenith angle 0 the point lies on the y axis at height r, whatever phi is. */
  lemma SphericalAtZenith(radius: real, phi: real)
    requires ZeroAngleLaw()
    ensures ToCartesianUnit3(radius, 0.0, phi).GetPoint3D() == Point3D(0.0, radius, 0.0)
  {
  }

  // ---------------------------------------------------------------------
  // Cartesian to polar: radius = sqrt(x^2 + z^2), theta = atan2(x, z).
  // ---------------------------------------------------------------------

  /** toPolarUnit(double x, double z). */
  function ToPolarUnit2(x: real, z: real): (p: PolarUnit)
    ensures p.radius == MagnitudeOf2(x, z)
    ensures p.theta == Atan2(x, z)
  {
    PolarUnit(Sqrt(x * x + z * z), Atan2(x, z))
  }

  /** toPolarUnit(CartesianUnit): reads the unit's 2D point. */
  function ToPolarUnitCartesian(unit: CartesianUnit): (p: PolarUnit)
    ensures p.radius == MagnitudeOf2(unit.point2d.x, unit.point2d.z)
  {
    PolarUnit(MagnitudeOf2(unit.GetPoint2D().x, unit.GetPoint2D().z), Atan2(unit.GetPoint2D().x, unit.GetPoint2D().z))
  }

  /** toPolarUnit(CartesianUnit, IVector): the vector's length is the radius. */
  function ToPolarUnitWithVector(unit: CartesianUnit, vector: CartesianVector): (p: PolarUnit)
    ensures p.radius == vector.length
    ensures p.theta == ToPolarUnitCartesian(unit).theta
  {
    PolarUnit(vector.length, Atan2(unit.GetPoint2D().x, unit.GetPoint2D().z))
  }

  /** toPolarUnit(IPoint2D, IVector): the vector's length is the radius. */
  function ToPolarUnitPoint(point: Point2D, vector: CartesianVector): (p: PolarUnit)
    ensures p.radius == vector.length
    ensures p.theta == ToPolarUnit2(point.x, point.z).theta
  {
    PolarUnit(vector.length, Atan2(point.x, point.z))
  }

  /**
   * toPolarUnit(CartesianUnit) is toPolarUnit(x, z) on the unit's shared
   * x and z; y plays no part, and the radius is non-negative.
   */
  lemma PolarUnitOverloads(x: real, y: real, z: real)
    requires SqrtLaw()
    ensures ToPolarUnitCartesian(NewCartesianUnit(x, y, z)) == ToPolarUnit2(x, z)
    ensures ToPolarUnitCartesian(NewCartesianUnit(x, y, z)) == ToPolarUnitCartesian(NewCartesianUnit(x, 0.0, z))
    ensures ToPolarUnit2(x, z).radius >= 0.0
  {
    MagnitudeNonNegative(x, 0.0, z);
  }

  /** The vector overloads use the vector's length, which for the point's own vector is its distance from the origin. */
  lemma PolarVectorOverload(point: Point2D)
    ensures ToPolarUnitPoint(point, Vector(point.x, 0.0, point.z)) == ToPolarUnit2(point.x, point.z)
  {
    MagnitudeFlat(point.x, point.z);
  }

  /** The polar round trip: toCartesianUnit(toPolarUnit(x, z)) gives back x and z, with y = 0. */
  lemma PolarRoundTrip(x: real, z: real)
    requires SqrtLaw() && Atan2Law()
    ensures ToCartesianUnitPolar(ToPolarUnit2(x, z)) == NewCartesianUnit(x, 0.0, z)
  {
    var r := Sqrt(x * x + z * z);
    var t := Atan2(x, z);
    if x * x + z * z != 0.0 {
      Atan2Of(x, z);
      assert r * Sin(t) == x && r * Cos(t) == z;
    } else {
      SumOfSquares(x, 0.0, z);
      SqrtZero(x * x + z * z);
      assert r == 0.0;
    }
  }

  // ---------------------------------------------------------------------
  // Cartesian to spherical: radius = sqrt(x^2 + y^2 + z^2),
  // theta = acos(y / radius), phi = atan2(x, z).
  // ---------------------------------------------------------------------

  /**
   * toSphericalUnit(double x, double y, double z). The code divides y by
   * the radius without a guard, so the origin is excluded.
   */
  function ToSphericalUnit3(x: real, y: real, z: real): (s: SphericalUnit)
    requires MagnitudeOf3(x, y, z) != 0.0
    ensures s.radius == MagnitudeOf3(x, y, z)
    ensures s.theta == Acos(y / s.radius)
    ensures s.phi == ToPolarUnit2(x, z).theta
  {
    var radius := Sqrt(x * x + y * y + z * z);
    SphericalUnit(radius, Acos(y / radius), Atan2(x, z))
  }

  /** toSphericalUnit(CartesianUnit): reads the unit's 3D point. */
  function ToSphericalUnitCartesian(unit: CartesianUnit): (s: SphericalUnit)
    requires MagnitudeOf3(unit.point3d.x, unit.point3d.y, unit.point3d.z) != 0.0
    ensures s.radius == MagnitudeOf3(unit.point3d.x, unit.point3d.y, unit.point3d.z)
    ensures s.phi == ToPolarUnit2(unit.point3d.x, unit.point3d.z).theta
  {
    var p := unit.GetPoint3D();
    var radius := MagnitudeOf3(p.x, p.y, p.z);
    SphericalUnit(radius, Acos(p.y / radius), Atan2(p.x, p.z))
  }

  /** toSphericalUnit(IPoint3D, IVector): the vector's length is the radius, which must be non-zero. */
  function ToSphericalUnitWithVector(point: Point3D, vector: CartesianVector): (s: SphericalUnit)
    requires vector.length != 0.0
    ensures s.radius == vector.length
    ensures s.theta == Acos(point.y / vector.length)
    ensures s.phi == ToPolarUnit2(point.x, point.z).theta
  {
    var radius := vector.length;
    SphericalUnit(radius, Acos(point.y / radius), Atan2(point.x, point.z))
  }

  /** The overloads agree: the unit form reads the same coordinates, and the vector form agrees when given the point's own vector. */
  lemma SphericalUnitOverloads(x: real, y: real, z: real)
    requires MagnitudeOf3(x, y, z) != 0.0
    ensures ToSphericalUnitCartesian(NewCartesianUnit(x, y, z)) == ToSphericalUnit3(x, y, z)
    ensures Vector(x, y, z).length != 0.0
    ensures ToSphericalUnitWithVector(Point3D(x, y, z), Vector(x, y, z)) == ToSphericalUnit3(x, y, z)
  {
  }

  /**
   * The common part of both spherical round trips: with theta = acos(y / r),
   * r cos(theta) is y and r sin(theta) is the horizontal magnitude.
   */
  lemma ZenithParts(x: real, y: real, z: real)
    requires SqrtLaw() && SinCosLaw() && AcosLaw()
    requires MagnitudeOf3(x, y, z) != 0.0
    ensures var r := MagnitudeOf3(x, y, z);
      r * Cos(Acos(y / r)) == y && r * Sin(Acos(y / r)) == MagnitudeOf2(x, z)
  {
    var r := MagnitudeOf3(x, y, z);
    var h := MagnitudeOf2(x, z);
    var c := y / r;
    MagnitudeNonNegative(x, y, z);
    MagnitudeSquared(x, y, z);
    SumOfSquares(x, y, z);
    RatioBound(y, r, x * x + z * z);
    CosAcos(c);
    var s := Sin(Acos(c));
    SinCos(Acos(c));
    assert r * c == y;
    SineSide(s, c, r, y, h);
  }

  /** y / r lies in [-1, 1] when y^2 + rest = r^2 for a non-negative rest. */
  lemma RatioBound(y: real, r: real, rest: real)
    requires r > 0.0 && rest >= 0.0 && r * r == y * y + rest
    ensures -1.0 <= y / r <= 1.0
  {
    SquareBound(y, r);
    var c := y / r;
    assert c * r == y;
    if c > 1.0 {
      ProductPositive(c - 1.0, r);
    } else if c < -1.0 {
      ProductPositive(-1.0 - c, r);
    }
  }

  /** A number whose square is at most r^2 lies in [-r, r]. */
  lemma SquareBound(y: real, r: real)
    requires r > 0.0 && y * y <= r * r
    ensures -r <= y <= r
  {
    if y > r {
      ProductPositive(y - r, y + r);
    } else if -y > r {
      ProductPositive(-y - r, r - y);
    }
  }

  /** The sine and cosine of atan2(a, b), scaled by the magnitude h of (b, a), are a and b. */
  lemma AngleSides(a: real, b: real, h: real)
    requires Atan2Law() && a * a + b * b != 0.0 && h == Sqrt(a * a + b * b)
    ensures h * Sin(Atan2(a, b)) == a && h * Cos(Atan2(a, b)) == b
  {
    Atan2Of(a, b);
  }

  /** With s^2 + c^2 = 1, s >= 0 and c r = y, s r is the non-negative root of r^2 - y^2 = h^2. */
  lemma SineSide(s: real, c: real, r: real, y: real, h: real)
    requires SqrtLaw()
    requires s >= 0.0 && r > 0.0 && h >= 0.0
    requires s * s + c * c == 1.0 && r * c == y && h * h == r * r - y * y
    ensures r * s == h
  {
    var u := r * s;
    assert u * u == (s * s) * (r * r);
    assert (s * s) * (r * r) == (1.0 - c * c) * (r * r);
    assert (1.0 - c * c) * (r * r) == r * r - (r * c) * (r * c);
    if s > 0.0 {
      ProductPositive(r, s);
    }
    SquareInjective(u, h);
  }

  /**
   * As written, toCartesianUnit(toSphericalUnit(x, y, z)) returns
   * (z, y, x): phi = atan2(x, z) puts x on the sine side while the way back
   * rebuilds x with cos(phi). Whenever x != z this is not the point given.
   */
  lemma SphericalRoundTripSwaps(x: real, y: real, z: real)
    requires SqrtLaw() && SinCosLaw() && AcosLaw() && Atan2Law()
    requires MagnitudeOf3(x, y, z) != 0.0
    ensures var s := ToSphericalUnit3(x, y, z);
      ToCartesianUnitSpherical(s) == NewCartesianUnit(z, y, x)
    ensures x != z ==> ToCartesianUnitSpherical(ToSphericalUnit3(x, y, z)) != NewCartesianUnit(x, y, z)
  {
    var s := ToSphericalUnit3(x, y, z);
    var h := MagnitudeOf2(x, z);
    SphericalSides(s, x, y, z);
    FlatSides(x, z, h);
    RebuildUnit(s, h, z, y, x);
  }

  /**
   * A spherical unit with radius |(x, y, z)| and theta = acos(y / radius) has
   * height radius cos(theta) = y and horizontal side radius sin(theta) = |(x, z)|.
   */
  lemma SphericalSides(s: SphericalUnit, x: real, y: real, z: real)
    requires SqrtLaw() && SinCosLaw() && AcosLaw()
    requires MagnitudeOf3(x, y, z) != 0.0
    requires s.radius == MagnitudeOf3(x, y, z) && s.theta == Acos(y / s.radius)
    ensures s.radius * Cos(s.theta) == y && s.radius * Sin(s.theta) == MagnitudeOf2(x, z)
  {
    ZenithParts(x, y, z);
  }

  /** From its sides, a spherical unit converts back to the point (x, y, z). */
  lemma RebuildUnit(s: SphericalUnit, h: real, x: real, y: real, z: real)
    requires s.radius * Sin(s.theta) == h && s.radius * Cos(s.theta) == y
    requires h * Cos(s.phi) == x && h * Sin(s.phi) == z
    ensures ToCartesianUnitSpherical(s) == NewCartesianUnit(x, y, z)
  {
    Rebuild(s.radius, Sin(s.theta), Cos(s.theta), Sin(s.phi), Cos(s.phi), h, x, y, z);
  }

  /** Scaled by the magnitude h of (b, a), atan2(a, b) has sine side a and cosine side b, also at the origin. */
  lemma FlatSides(a: real, b: real, h: real)
    requires SqrtLaw() && Atan2Law() && h == Sqrt(a * a + b * b)
    ensures h * Sin(Atan2(a, b)) == a && h * Cos(Atan2(a, b)) == b
  {
    if a * a + b * b != 0.0 {
      AngleSides(a, b, h);
    } else {
      SumOfSquares(a, 0.0, b);
      SqrtZero(a * a + b * b);
    }
  }

  /** Rebuilding a point from the sides r sin(theta), r cos(theta), h cos(phi) and h sin(phi). */
  lemma Rebuild(r: real, st: real, ct: real, sp: real, cp: real, h: real, x: real, y: real, z: real)
    requires r * st == h && r * ct == y && h * cp == x && h * sp == z
    ensures r * st * cp == x && r * ct == y && r * st * sp == z
  {
    EqualFactors(r * st, h, cp);
    EqualFactors(r * st, h, sp);
  }

  /** The evidently intended conversion: phi = atan2(z, x), as the documentation of toCartesianUnit states. */
  function ToSphericalUnitCorrected(x: real, y: real, z: real): (s: SphericalUnit)
    requires MagnitudeOf3(x, y, z) != 0.0
    ensures s.radius == ToSphericalUnit3(x, y, z).radius
    ensures s.theta == ToSphericalUnit3(x, y, z).theta
  {
    var radius := Sqrt(x * x + y * y + z * z);
    SphericalUnit(radius, Acos(y / radius), Atan2(z, x))
  }

  /** With phi = atan2(z, x) the spherical round trip gives back the same coordinates. */
  lemma SphericalRoundTrip(x: real, y: real, z: real)
    requires SqrtLaw() && SinCosLaw() && AcosLaw() && Atan2Law()
    requires MagnitudeOf3(x, y, z) != 0.0
    ensures ToCartesianUnitSpherical(ToSphericalUnitCorrected(x, y, z)) == NewCartesianUnit(x, y, z)
  {
    var s := ToSphericalUnitCorrected(x, y, z);
    var h := MagnitudeOf2(x, z);
    SphericalSides(s, x, y, z);
    assert h == Sqrt(z * z + x * x) by {
      assert z * z + x * x == x * x + z * z;
    }
    FlatSides(z, x, h);
    RebuildUnit(s, h, x, y, z);
  }

  // ---------------------------------------------------------------------
  // Quaternion to axis-angle and back.
  // ---------------------------------------------------------------------

  /** The threshold below which toAxisAngle keeps the vector part as the axis. */
  const AXIS_EPSILON: real := 0.001

  /**
   * toAxisAngle(IQuaternion): angle = 2 acos(w), s = sqrt(1 - w^2); below
   * the threshold the vector part is the axis, otherwise it is divided by s.
   * Outside [-1, 1] acos and sqrt give NaN, so w is required to lie in it.
   */
  function ToAxisAngle(q: Quaternion): (a: AxisAngle)
    requires -1.0 <= q.w <= 1.0
    ensures a.angle == 2.0 * Acos(q.w)
    ensures Sqrt(1.0 - q.w * q.w) < AXIS_EPSILON ==> a.x == q.x && a.y == q.y && a.z == q.z
    ensures Sqrt(1.0 - q.w * q.w) >= AXIS_EPSILON ==>
      var s := Sqrt(1.0 - q.w * q.w);
      a.x * s == q.x && a.y * s == q.y && a.z * s == q.z
  {
    var angle := 2.0 * Acos(q.w);
    var s := Sqrt(1.0 - q.w * q.w);
    if s < AXIS_EPSILON then
      AxisAngle(q.x, q.y, q.z, angle)
    else
      DividedAxis(q.x, q.y, q.z, s, angle)
  }

  /** The axis (x / s, y / s, z / s): each part times s gives back x, y and z. */
  function DividedAxis(x: real, y: real, z: real, s: real, angle: real): (a: AxisAngle)
    requires s != 0.0
    ensures a.x * s == x && a.y * s == y && a.z * s == z && a.angle == angle
  {
    DivideBack(x, s);
    DivideBack(y, s);
    DivideBack(z, s);
    AxisAngle(x / s, y / s, z / s, angle)
  }

  /** The identity quaternion falls in the small branch: zero axis, angle 2 acos(1). */
  lemma ToAxisAngleIdentity()
    requires SqrtLaw()
    ensures ToAxisAngle(Identity()) == AxisAngle(0.0, 0.0, 0.0, 2.0 * Acos(1.0))
  {
    SqrtZero(0.0);
  }

  /** For a unit quaternion in the dividing branch, the axis has length 1. */
  lemma ToAxisAngleUnitAxis(q: Quaternion)
    requires SqrtLaw() && q.Norm() == 1.0 && -1.0 <= q.w <= 1.0
    requires Sqrt(1.0 - q.w * q.w) >= AXIS_EPSILON
    ensures ToAxisAngle(q).AxisLength() == 1.0
  {
    var s := Sqrt(1.0 - q.w * q.w);
    DividingBranch(q);
    VectorPartMagnitude(q);
    UnitAxis(ToAxisAngle(q), q.x, q.y, q.z, s);
  }

  /** In a unit quaternion the vector part has magnitude sqrt(1 - w^2). */
  lemma VectorPartMagnitude(q: Quaternion)
    requires q.Norm() == 1.0
    ensures MagnitudeOf3(q.x, q.y, q.z) == Sqrt(1.0 - q.w * q.w)
  {
    assert 1.0 - q.w * q.w == q.x * q.x + q.y * q.y + q.z * q.z;
    MagnitudeOfSum(q.x, q.y, q.z, 1.0 - q.w * q.w);
  }

  /** An axis that is (x, y, z) divided by its own non-zero magnitude has length 1. */
  lemma UnitAxis(a: AxisAngle, x: real, y: real, z: real, s: real)
    requires SqrtLaw() && s == MagnitudeOf3(x, y, z) && s != 0.0
    requires a.x == x / s && a.y == y / s && a.z == z / s
    ensures a.AxisLength() == 1.0
  {
    NormalizedMagnitude(x, y, z, s);
  }

  /** In the dividing branch the axis is the vector part over s. */
  lemma DividingBranch(q: Quaternion)
    requires -1.0 <= q.w <= 1.0 && Sqrt(1.0 - q.w * q.w) >= AXIS_EPSILON
    ensures var s := Sqrt(1.0 - q.w * q.w);
      ToAxisAngle(q) == AxisAngle(q.x / s, q.y / s, q.z / s, 2.0 * Acos(q.w))
  {
  }

  /**
   * toQuaternion(IAxisAngle) as written: it passes
   * (x sin(a/2), y sin(a/2), z sin(a/2), cos(a/2)) to the (w, x, y, z)
   * constructor, so w receives the x part and z the cosine.
   */
  function ToQuaternionAsWritten(a: AxisAngle): (q: Quaternion)
    ensures q.w == a.x * Sin(a.angle / 2.0) && q.z == Cos(a.angle / 2.0)
    ensures q.x == a.y * Sin(a.angle / 2.0) && q.y == a.z * Sin(a.angle / 2.0)
  {
    var w := Cos(a.angle / 2.0);
    var s := Sin(a.angle / 2.0);
    Quaternion(a.x * s, a.y * s, a.z * s, w)
  }

  /** The zero rotation about the x axis does not give the identity quaternion as written. */
  lemma ToQuaternionAsWrittenZeroAngle()
    requires ZeroAngleLaw()
    ensures ToQuaternionAsWritten(AxisAngle(1.0, 0.0, 0.0, 0.0)) == Quaternion(0.0, 0.0, 0.0, 1.0)
    ensures ToQuaternionAsWritten(AxisAngle(1.0, 0.0, 0.0, 0.0)) != Identity()
  {
  }

  /** The evidently intended conversion: (cos(a/2), x sin(a/2), y sin(a/2), z sin(a/2)). */
  function ToQuaternion(a: AxisAngle): (q: Quaternion)
    ensures q.w == ToQuaternionAsWritten(a).z
    ensures q.x == ToQuaternionAsWritten(a).w && q.y == ToQuaternionAsWritten(a).x && q.z == ToQuaternionAsWritten(a).y
  {
    var w := Cos(a.angle / 2.0);
    var s := Sin(a.angle / 2.0);
    Quaternion(w, a.x * s, a.y * s, a.z * s)
  }

  /** The intended conversion maps every zero rotation to the identity. */
  lemma ToQuaternionZeroAngle(x: real, y: real, z: real)
    requires ZeroAngleLaw()
    ensures ToQuaternion(AxisAngle(x, y, z, 0.0)) == Identity()
  {
  }

  /** The intended conversion maps a unit axis to a unit quaternion. */
  lemma ToQuaternionUnit(a: AxisAngle)
    requires SinCosLaw() && SqrtLaw() && a.AxisLength() == 1.0
    ensures ToQuaternion(a).Norm() == 1.0
    ensures ToQuaternion(a).Magnitude() == 1.0
  {
    var c := Cos(a.angle / 2.0);
    var s := Sin(a.angle / 2.0);
    SinCos(a.angle / 2.0);
    MagnitudeSquared(a.x, a.y, a.z);
    var q := ToQuaternion(a);
    assert q.Norm() == c * c + (s * s) * (a.x * a.x + a.y * a.y + a.z * a.z);
    SqrtUnique(1.0, 1.0);
  }

  /**
   * toAxisAngle(toQuaternion(a)): w is cos(a/2), and 1 - w^2 is sin^2(a/2),
   * so s is |sin(a/2)|. When sin(a/2) reaches the threshold the axis comes
   * back exactly, whatever its length; below it in absolute value the code
   * keeps the vector part, which is the axis scaled by sin(a/2), not the
   * axis. The angle comes back as 2 acos(cos(a/2)).
   */
  lemma AxisAngleRoundTrip(a: AxisAngle)
    requires SinCosLaw() && SqrtLaw()
    ensures -1.0 <= ToQuaternion(a).w <= 1.0
    ensures Sin(a.angle / 2.0) >= AXIS_EPSILON ==>
      ToAxisAngle(ToQuaternion(a)) == AxisAngle(a.x, a.y, a.z, 2.0 * Acos(Cos(a.angle / 2.0)))
    ensures -AXIS_EPSILON < Sin(a.angle / 2.0) < AXIS_EPSILON ==>
      var s := Sin(a.angle / 2.0);
      ToAxisAngle(ToQuaternion(a)) == AxisAngle(a.x * s, a.y * s, a.z * s, 2.0 * Acos(Cos(a.angle / 2.0)))
  {
    var h := a.angle / 2.0;
    var q := ToQuaternion(a);
    QuaternionParts(a, q);
    SinCos(h);
    var d := 1.0 - q.w * q.w;
    SineFromCosine(q.w, Sin(h), d);
    if Sin(h) >= AXIS_EPSILON {
      DividingBranch(q);
      ProductFactor(q.x, a.x, Sin(h));
      ProductFactor(q.y, a.y, Sin(h));
      ProductFactor(q.z, a.z, Sin(h));
    } else if -AXIS_EPSILON < Sin(h) {
      KeepingBranch(q);
    }
  }

  /** Below the threshold the axis is the vector part itself. */
  lemma KeepingBranch(q: Quaternion)
    requires -1.0 <= q.w <= 1.0 && Sqrt(1.0 - q.w * q.w) < AXIS_EPSILON
    ensures ToAxisAngle(q) == AxisAngle(q.x, q.y, q.z, 2.0 * Acos(q.w))
  {
  }

  /** The parts of toQuaternion(a), named. */
  lemma QuaternionParts(a: AxisAngle, q: Quaternion)
    requires q == ToQuaternion(a)
    ensures q.w == Cos(a.angle / 2.0)
    ensures q.x == a.x * Sin(a.angle / 2.0) && q.y == a.y * Sin(a.angle / 2.0) && q.z == a.z * Sin(a.angle / 2.0)
  {
  }

  /** With s^2 + c^2 = 1, c lies in [-1, 1] and sqrt(1 - c^2) is |s|. */
  lemma SineFromCosine(c: real, s: real, d: real)
    requires SqrtLaw() && s * s + c * c == 1.0 && d == 1.0 - c * c
    ensures -1.0 <= c <= 1.0
    ensures Sqrt(d) == (if s >= 0.0 then s else -s)
  {
    Square(s);
    UnitInterval(c);
    assert d == s * s;
    SqrtOfSquare(s);
  }

  /**
   * For an angle in [0, 2 pi], sin(a/2) is non-negative and the angle comes
   * back unchanged, so the round trip returns a itself once sin(a/2) reaches
   * the threshold, and the scaled axis with a's angle below it.
   */
  lemma AxisAngleRoundTripExact(a: AxisAngle)
    requires SinCosLaw() && SqrtLaw() && AcosLaw() && AcosCosLaw()
    requires 0.0 <= a.angle <= 2.0 * PI
    ensures -1.0 <= ToQuaternion(a).w <= 1.0
    ensures Sin(a.angle / 2.0) >= 0.0
    ensures Sin(a.angle / 2.0) >= AXIS_EPSILON ==> ToAxisAngle(ToQuaternion(a)) == a
    ensures Sin(a.angle / 2.0) < AXIS_EPSILON ==>
      var s := Sin(a.angle / 2.0);
      ToAxisAngle(ToQuaternion(a)) == AxisAngle(a.x * s, a.y * s, a.z * s, a.angle)
  {
    var h := a.angle / 2.0;
    AxisAngleRoundTrip(a);
    assert Acos(Cos(h)) == h;
    SinCos(h);
    Square(Sin(h));
    UnitInterval(Cos(h));
    CosAcos(Cos(h));
    assert 2.0 * Acos(Cos(h)) == a.angle;
  }
}
