/**
 * The unit value types: a Cartesian unit pairs a 3D point with its
 * projection on the (x, z) plane; a polar unit is a radius and an angle; a
 * spherical unit a radius and two angles; a delta the two angle changes a
 * full rotation applies.
 */
module Units {
  import opened JavaMath
  import opened Spatial

  /** CartesianUnit: the 3D point and the 2D point built from the same coordinates. */
  datatype CartesianUnit = CartesianUnit(point3d: Point3D, point2d: Point2D) {

    /** The 2D point is the 3D point without its height. */
    predicate Paired() {
      point2d.x == point3d.x && point2d.z == point3d.z
    }

    /** getPoint3D(): the stored 3D point, which agrees with the 2D point on x and z when the unit is paired. */
    function GetPoint3D(): (r: Point3D)
      ensures r == point3d
      ensures Paired() <==> r.x == point2d.x && r.z == point2d.z
    {
      point3d
    }

    /** getPoint2D(): the stored 2D point, which agrees with the 3D point on x and z when the unit is paired. */
    function GetPoint2D(): (r: Point2D)
      ensures r == point2d
      ensures Paired() <==> r.x == point3d.x && r.z == point3d.z
    {
      point2d
    }
  }

  /** new CartesianUnit(x, y, z). */
  function NewCartesianUnit(x: real, y: real, z: real): (u: CartesianUnit)
    ensures u.Paired()
    ensures u.GetPoint3D() == Point3D(x, y, z)
    ensures u.GetPoint2D() == Point2D(x, z)
  {
    CartesianUnit(Point3D(x, y, z), Point2D(x, z))
  }

  /** Every constructed unit is paired, and the same coordinates give the same points. */
  lemma CartesianUnitPaired(x: real, y: real, z: real, y2: real)
    ensures NewCartesianUnit(x, y, z).GetPoint2D() == NewCartesianUnit(x, y2, z).GetPoint2D()
    ensures NewCartesianUnit(x, y, z).GetPoint3D().y == y
  {
  }

  /**
   * PolarUnit: the Radius and Theta suppliers return the constructor's
   * values, so radius() and theta() are those values.
   */
  datatype PolarUnit = PolarUnit(radius: real, theta: real) {

    /** adjacent(): radius * cos(theta). */
    function Adjacent(): (r: real)
      ensures ZeroAngleLaw() && theta == 0.0 ==> r == radius
    {
      radius * Cos(theta)
    }

    /** opposite(): radius * sin(theta). */
    function Opposite(): (r: real)
      ensures ZeroAngleLaw() && theta == 0.0 ==> r == 0.0
    {
      radius * Sin(theta)
    }
  }

  /** adjacent^2 + opposite^2 = radius^2. */
  lemma PolarPythagoras(u: PolarUnit)
    requires SinCosLaw()
    ensures u.Adjacent() * u.Adjacent() + u.Opposite() * u.Opposite() == u.radius * u.radius
  {
    var c := Cos(u.theta);
    var s := Sin(u.theta);
    SinCos(u.theta);
    assert u.Adjacent() * u.Adjacent() + u.Opposite() * u.Opposite() == u.radius * u.radius * (s * s + c * c);
  }

  /** adjacent and opposite with angle 0 are the radius and 0. */
  lemma PolarAtZero(r: real)
    requires ZeroAngleLaw()
    ensures PolarUnit(r, 0.0).Adjacent() == r
    ensures PolarUnit(r, 0.0).Opposite() == 0.0
  {
  }

  /**
   * SphericalUnit(radius, theta, phi): the suppliers return the
   * constructor's values in that order.
   */
  datatype SphericalUnit = SphericalUnit(radius: real, theta: real, phi: real)

  /** Delta(theta, phi): the angle changes of a full rotation. */
  datatype Delta = Delta(theta: real, phi: real)
}
