/**
 * The coordinate layer shared by both modules of the library.
 *
 * A Point is one coordinate: in the Converter module a supplier of a double
 * (Point.X, Point.Y, Point.Z), here the value it supplies. Its default
 * methods do one arithmetic step on that value. Point2D and Point3D hold
 * plain coordinates; the Converter Point3D operations below go through the
 * Point arithmetic on each coordinate, as the library does.
 */
module Spatial {
  import opened JavaMath
  import opened Vectors

  datatype Point = Point(get: real) {

    /** distance(double): the absolute difference. */
    function DistanceTo(p: real): (r: real)
      ensures r >= 0.0
      ensures r == get - p || r == p - get
      ensures r == 0.0 <==> get == p
    {
      if get - p < 0.0 then -(get - p) else get - p
    }

    /** distance(Point). */
    function Distance(p: Point): (r: real)
      ensures r >= 0.0
      ensures r == 0.0 <==> get == p.get
    {
      DistanceTo(p.get)
    }

    /** add(double). */
    function AddValue(p: real): (r: real)
      ensures r - p == get
    {
      get + p
    }

    /** add(Point). */
    function Add(p: Point): (r: real)
      ensures r - p.get == get
    {
      AddValue(p.get)
    }

    /** subtract(double). */
    function SubtractValue(p: real): (r: real)
      ensures r + p == get
    {
      get - p
    }

    /** subtract(Point). */
    function Subtract(p: Point): (r: real)
      ensures r + p.get == get
    {
      SubtractValue(p.get)
    }

    /** multiply(double). */
    function MultiplyValue(p: real): (r: real)
      ensures p == 0.0 ==> r == 0.0
      ensures p == 1.0 ==> r == get
    {
      get * p
    }

    /** multiply(Point). */
    function Multiply(p: Point): (r: real)
      ensures p.get != 0.0 ==> r / p.get == get
      ensures p.get == 0.0 ==> r == 0.0
    {
      ProductFactor(get * p.get, get, p.get);
      MultiplyValue(p.get)
    }

    /** divide(double): unguarded in the code, so the divisor must be non-zero. */
    function DivideValue(p: real): (r: real)
      requires p != 0.0
      ensures r * p == get
    {
      get / p
    }

    /** divide(Point). */
    function Divide(p: Point): (r: real)
      requires p.get != 0.0
      ensures r * p.get == get
    {
      DivideValue(p.get)
    }

    /** power(double): Math.pow. */
    function PowerValue(p: real): (r: real)
      ensures r == Pow(get, p)
      ensures PowLaw() ==> (p == 0.0 ==> r == 1.0) && (p == 1.0 ==> r == get)
    {
      Pow(get, p)
    }

    /** power(Point). */
    function Power(p: Point): (r: real)
      ensures r == Pow(get, p.get)
      ensures PowLaw() ==> (p.get == 0.0 ==> r == 1.0) && (p.get == 1.0 ==> r == get)
    {
      PowerValue(p.get)
    }
  }

  /** Each Point overload is the double overload applied to the argument's value. */
  lemma PointOverloads(a: Point, b: Point)
    ensures a.Distance(b) == a.DistanceTo(b.get)
    ensures a.Add(b) == a.get + b.get && a.Subtract(b) == a.get - b.get
    ensures a.Multiply(b) == a.get * b.get && a.Power(b) == Pow(a.get, b.get)
    ensures b.get != 0.0 ==> a.Divide(b) == a.DivideValue(b.get)
  {
  }

  /** distance is symmetric and 0 from a point to itself. */
  lemma DistanceSymmetric(a: Point, b: Point)
    ensures a.Distance(b) == b.Distance(a)
    ensures a.Distance(a) == 0.0
  {
  }

  /** subtract undoes add, and divide undoes multiply. */
  lemma ArithmeticInverses(a: Point, p: real)
    ensures Point(a.AddValue(p)).SubtractValue(p) == a.get
    ensures p != 0.0 ==> Point(a.MultiplyValue(p)).DivideValue(p) == a.get
  {
  }

  /** A point in the (x, z) plane. */
  datatype Point2D = Point2D(x: real, z: real)

  /** A point in space. */
  datatype Point3D = Point3D(x: real, y: real, z: real) {

    /** getX(), getY() and getZ(): the coordinates as Point values, each supplying its coordinate. */
    function X(): (r: Point)
      ensures r.get == x
    {
      Point(x)
    }

    function Y(): (r: Point)
      ensures r.get == y
    {
      Point(y)
    }

    function Z(): (r: Point)
      ensures r.get == z
    {
      Point(z)
    }

    /** getDistance(IPoint3D): the vector from this point to p. */
    function GetDistance(p: Point3D): (r: CartesianVector)
      ensures r.Cached()
      ensures r.x + x == p.x && r.y + y == p.y && r.z + z == p.z
    {
      Vector(p.X().Subtract(X()), p.Y().Subtract(Y()), p.Z().Subtract(Z()))
    }

    /** multiply(IPoint3D): the componentwise product. */
    function Multiply(p: Point3D): (r: Point3D)
      ensures (p.x != 0.0 ==> r.x / p.x == x) && (p.x == 0.0 ==> r.x == 0.0)
      ensures (p.y != 0.0 ==> r.y / p.y == y) && (p.y == 0.0 ==> r.y == 0.0)
      ensures (p.z != 0.0 ==> r.z / p.z == z) && (p.z == 0.0 ==> r.z == 0.0)
      ensures p == Point3D(1.0, 1.0, 1.0) ==> r == this
    {
      ProductFactor(x * p.x, x, p.x);
      ProductFactor(y * p.y, y, p.y);
      ProductFactor(z * p.z, z, p.z);
      Point3D(X().Multiply(p.X()), Y().Multiply(p.Y()), Z().Multiply(p.Z()))
    }

    /** getDifferential(IPoint3D): p minus this point. */
    function GetDifferential(p: Point3D): (r: Point3D)
      ensures p == this ==> r == Point3D(0.0, 0.0, 0.0)
    {
      Point3D(p.X().Subtract(X()), p.Y().Subtract(Y()), p.Z().Subtract(Z()))
    }

    /** add(IPoint3D): p plus this point. */
    function Add(p: Point3D): (r: Point3D)
      ensures p == Point3D(0.0, 0.0, 0.0) ==> r == this
    {
      Point3D(p.X().Add(X()), p.Y().Add(Y()), p.Z().Add(Z()))
    }

    /**
     * The k-th point drawLine produces on the way to p in n steps:
     * this + (p - this) * (k / n).
     */
    function LinePoint(p: Point3D, n: real, k: int): Point3D
      requires n != 0.0
    {
      var multiplier := k as real / n;
      var diff := GetDifferential(p);
      Add(FromDouble3(diff.X().MultiplyValue(multiplier), diff.Y().MultiplyValue(multiplier), diff.Z().MultiplyValue(multiplier)))
    }

    /**
     * drawLine(IPoint3D, double): the counter runs 0, 1, 2, ... while it is
     * at most numPoints, and each pass adds the point at multiplier i / n.
     * numPoints = 0 would divide 0 by 0, so it is excluded. Point3D has no
     * equals, so the insertion-ordered set keeps every point.
     */
    method DrawLine(p: Point3D, numPoints: real) returns (points: seq<Point3D>)
      requires numPoints != 0.0
      ensures |points| == LineCount(numPoints)
      ensures forall k :: 0 <= k < |points| ==> points[k] == LinePoint(p, numPoints, k)
    {
      var diff := GetDifferential(p);
      points := [];
      var i := 0.0;
      while i <= numPoints
        invariant i == |points| as real
        invariant numPoints < 0.0 ==> |points| == 0
        invariant numPoints >= 0.0 ==> |points| <= numPoints.Floor + 1
        invariant forall k :: 0 <= k < |points| ==> points[k] == LinePoint(p, numPoints, k)
        decreases numPoints.Floor + 1 - |points|
      {
        var multiplier := i / numPoints;
        var adjusted := FromDouble3(diff.X().MultiplyValue(multiplier), diff.Y().MultiplyValue(multiplier), diff.Z().MultiplyValue(multiplier));
        var added := Add(adjusted);
        points := points + [added];
        i := i + 1.0;
      }
    }
  }

  /** How many points drawLine produces: none for a negative count, otherwise floor(n) + 1. */
  function LineCount(n: real): (c: nat)
    ensures n >= 0.0 ==> c as real - 1.0 <= n < c as real
  {
    if n < 0.0 then 0 else n.Floor + 1
  }

  /** fromDouble(x, z). */
  function FromDouble2(x: real, z: real): (r: Point2D)
    ensures r.x == x && r.z == z
  {
    Point2D(x, z)
  }

  /** fromDouble(x, y, z). */
  function FromDouble3(x: real, y: real, z: real): (r: Point3D)
    ensures r.x == x && r.y == y && r.z == z
  {
    Point3D(x, y, z)
  }

  /** fromXZ(X, Z): the suppliers' values become the coordinates. */
  function FromXZ(x: Point, z: Point): (r: Point2D)
    ensures r.x == x.get && r.z == z.get
  {
    Point2D(x.get, z.get)
  }

  /** fromXYZ(X, Y, Z). */
  function FromXYZ(x: Point, y: Point, z: Point): (r: Point3D)
    ensures r.x == x.get && r.y == y.get && r.z == z.get
  {
    Point3D(x.get, y.get, z.get)
  }

  /** The componentwise product is commutative, with (1, 1, 1) as its identity. */
  lemma MultiplyCommutes(a: Point3D, b: Point3D)
    ensures a.Multiply(b) == b.Multiply(a)
    ensures Point3D(1.0, 1.0, 1.0).Multiply(a) == a
  {
    var ab, ba := a.Multiply(b), b.Multiply(a);
    assert ab.x == ba.x && ab.y == ba.y && ab.z == ba.z;
  }

  /** Adding the differential to p's source gives p back. */
  lemma AddDifferential(a: Point3D, p: Point3D)
    ensures a.Add(a.GetDifferential(p)) == p
  {
  }

  /** getDistance has the same components as getDifferential. */
  lemma DistanceIsDifferential(a: Point3D, p: Point3D)
    ensures a.GetDistance(p) == Vector(a.GetDifferential(p).x, a.GetDifferential(p).y, a.GetDifferential(p).z)
  {
  }

  /** The line starts at this point. */
  lemma LineStart(a: Point3D, p: Point3D, n: real)
    requires n != 0.0
    ensures a.LinePoint(p, n, 0) == a
  {
  }

  /** For a whole number of steps the last point is p. */
  lemma LineEnd(a: Point3D, p: Point3D, n: nat)
    requires n != 0
    ensures a.LinePoint(p, n as real, n) == p
  {
    assert n as real / n as real == 1.0;
  }

  /** Consecutive points are (p - this) / n apart. */
  lemma LineStep(a: Point3D, p: Point3D, n: real, k: int)
    requires n != 0.0
    ensures a.LinePoint(p, n, k + 1).x - a.LinePoint(p, n, k).x == (p.x - a.x) / n
    ensures a.LinePoint(p, n, k + 1).y - a.LinePoint(p, n, k).y == (p.y - a.y) / n
    ensures a.LinePoint(p, n, k + 1).z - a.LinePoint(p, n, k).z == (p.z - a.z) / n
  {
    var p0, p1 := a.LinePoint(p, n, k), a.LinePoint(p, n, k + 1);
    LineCoordinates(a, p, n, k);
    LineCoordinates(a, p, n, k + 1);
    ScaledStep(p.x - a.x, a.x, n, k, p0.x, p1.x);
    ScaledStep(p.y - a.y, a.y, n, k, p0.y, p1.y);
    ScaledStep(p.z - a.z, a.z, n, k, p0.z, p1.z);
  }

  /** Point k of the line, coordinate by coordinate: this + (p - this) * (k / n). */
  lemma LineCoordinates(a: Point3D, p: Point3D, n: real, k: int)
    requires n != 0.0
    ensures a.LinePoint(p, n, k).x == (p.x - a.x) * (k as real / n) + a.x
    ensures a.LinePoint(p, n, k).y == (p.y - a.y) * (k as real / n) + a.y
    ensures a.LinePoint(p, n, k).z == (p.z - a.z) * (k as real / n) + a.z
  {
  }

  /** Moving the multiplier from k / n to (k + 1) / n moves base + d times it by d / n. */
  lemma ScaledStep(d: real, base: real, n: real, k: int, c0: real, c1: real)
    requires n != 0.0
    requires c0 == d * (k as real / n) + base && c1 == d * ((k + 1) as real / n) + base
    ensures c1 - c0 == d / n
  {
    var m0 := k as real / n;
    var m1 := (k + 1) as real / n;
    assert m1 - m0 == 1.0 / n;
    assert d * m1 - d * m0 == d * (m1 - m0);
  }
}
