/**
 * CartesianVector: components x, y, z and a cached length. The public
 * constructor computes the length from the components; a private
 * constructor, used only by normalize(), stores a given length.
 */
module Vectors {
  import opened JavaMath
  import opened Utilities
  import opened Quaternions

  /** The raw shape, including the private four-argument constructor. */
  datatype CartesianVector = CartesianVector(x: real, y: real, z: real, length: real) {

    /** The cached length agrees with the components. */
    ghost predicate Cached() {
      length == MagnitudeOf3(x, y, z)
    }

    /** add(IVector). */
    function Add(v: CartesianVector): (r: CartesianVector)
      ensures r.Cached()
      ensures r.x - v.x == x && r.y - v.y == y && r.z - v.z == z
    {
      Vector(x + v.x, y + v.y, z + v.z)
    }

    /** multiply(IVector): the componentwise product. */
    function Multiply(v: CartesianVector): (r: CartesianVector)
      ensures r.Cached()
      ensures (v.x != 0.0 ==> r.x / v.x == x) && (v.x == 0.0 ==> r.x == 0.0)
      ensures (v.y != 0.0 ==> r.y / v.y == y) && (v.y == 0.0 ==> r.y == 0.0)
      ensures (v.z != 0.0 ==> r.z / v.z == z) && (v.z == 0.0 ==> r.z == 0.0)
      ensures v.x == 1.0 && v.y == 1.0 && v.z == 1.0 ==> r.x == x && r.y == y && r.z == z
    {
      var px, py, pz := x * v.x, y * v.y, z * v.z;
      ProductFactor(px, x, v.x);
      ProductFactor(py, y, v.y);
      ProductFactor(pz, z, v.z);
      Vector(px, py, pz)
    }

    /** add(double): the value is added to each component. */
    function AddValue(d: real): (r: CartesianVector)
      ensures r.Cached()
      ensures r.x - d == x && r.y - d == y && r.z - d == z
    {
      Vector(x + d, y + d, z + d)
    }

    /** multiply(double): each component is scaled. */
    function MultiplyValue(d: real): (r: CartesianVector)
      ensures r.Cached()
      ensures d != 0.0 ==> r.x / d == x && r.y / d == y && r.z / d == z
      ensures d == 0.0 ==> r.x == 0.0 && r.y == 0.0 && r.z == 0.0
      ensures d == 1.0 ==> r.x == x && r.y == y && r.z == z
    {
      var px, py, pz := x * d, y * d, z * d;
      ProductFactor(px, x, d);
      ProductFactor(py, y, d);
      ProductFactor(pz, z, d);
      Vector(px, py, pz)
    }

    /** inverse(): every component multiplied by -1. */
    function Inverse(): (r: CartesianVector)
      ensures r.Cached()
      ensures r.x + x == 0.0 && r.y + y == 0.0 && r.z + z == 0.0
    {
      Vector(x * -1.0, y * -1.0, z * -1.0)
    }

    /**
     * normalize(): the zero vector when the cached length is 0, otherwise
     * the components divided by the length with 1 stored as the new length.
     */
    function Normalize(): (r: CartesianVector)
      ensures length == 0.0 ==> r == Vector(0.0, 0.0, 0.0)
      ensures length != 0.0 ==> r.length == 1.0
      ensures length != 0.0 ==> r.x * length == x && r.y * length == y && r.z * length == z
    {
      if length == 0.0 then
        Vector(0.0, 0.0, 0.0)
      else
        CartesianVector(x / length, y / length, z / length, 1.0)
    }

    /** dot(IVector): 0 whenever either vector is the zero vector. */
    function Dot(v: CartesianVector): (r: real)
      ensures v.x == 0.0 && v.y == 0.0 && v.z == 0.0 ==> r == 0.0
      ensures x == 0.0 && y == 0.0 && z == 0.0 ==> r == 0.0
    {
      x * v.x + y * v.y + z * v.z
    }

    /**
     * getAngle(IVector): acos of the dot product over the product of the
     * lengths. The division is unguarded, so both lengths must be non-zero.
     */
    function GetAngle(v: CartesianVector): (r: real)
      requires length != 0.0 && v.length != 0.0
      ensures AcosLaw() && -1.0 <= Dot(v) / (length * v.length) <= 1.0 ==>
        Cos(r) * (length * v.length) == Dot(v)
    {
      NonZeroProduct(length, v.length, length * v.length);
      Acos(Dot(v) / (length * v.length))
    }

    /** lengthSquared(): the cached length times itself. */
    function LengthSquared(): (r: real)
      ensures SqrtLaw() && Cached() ==> r == x * x + y * y + z * z
    {
      length * length
    }

    /** distanceSquared(IVector). */
    function DistanceSquared(v: CartesianVector): (r: real)
      ensures r >= 0.0
      ensures r == 0.0 <==> x == v.x && y == v.y && z == v.z
    {
      var dx := x - v.x;
      var dy := y - v.y;
      var dz := z - v.z;
      SumOfSquares(dx, dy, dz);
      dx * dx + dy * dy + dz * dz
    }

    /** distance(IVector). */
    function Distance(v: CartesianVector): (r: real)
      ensures SqrtLaw() ==> r >= 0.0 && r * r == DistanceSquared(v)
    {
      Sqrt(DistanceSquared(v))
    }

    /**
     * rotate(IQuaternion): q is normalized first (which needs q != 0), then
     * the vector is carried through the sandwich qn * (0, x, y, z) * conj(qn).
     */
    function Rotate(q: Quaternion): (r: CartesianVector)
      requires q.Magnitude() != 0.0
      ensures r.Cached()
    {
      Sandwich(q.Normalize())
    }

    /** The vector part of qn * (0, x, y, z) * conj(qn), for an already normalized qn. */
    function Sandwich(qn: Quaternion): (r: CartesianVector)
      ensures r.Cached()
      ensures qn == Identity() ==> r == Vector(x, y, z)
    {
      var rotated := qn.Multiply(Pure(x, y, z)).Multiply(qn.Conjugate());
      ConjugateInvolution(qn);
      MultiplyIdentity(Pure(x, y, z));
      Vector(rotated.x, rotated.y, rotated.z)
    }
  }

  /** The public constructor: the length is computed from the components. */
  function Vector(x: real, y: real, z: real): (r: CartesianVector)
    ensures r.x == x && r.y == y && r.z == z
    ensures r.Cached()
  {
    CartesianVector(x, y, z, MagnitudeOf3(x, y, z))
  }

  /** A normalized vector with a true non-zero length really has length 1. */
  lemma NormalizeCached(v: CartesianVector)
    requires SqrtLaw() && v.Cached()
    ensures v.Normalize().Cached()
    ensures v.length != 0.0 ==> MagnitudeOf3(v.Normalize().x, v.Normalize().y, v.Normalize().z) == 1.0
  {
    if v.length != 0.0 {
      NormalizedMagnitude(v.x, v.y, v.z, v.length);
    } else {
      assert v.Normalize() == Vector(0.0, 0.0, 0.0);
    }
  }

  /** inverse() keeps the length. */
  lemma InverseKeepsLength(v: CartesianVector)
    requires v.Cached()
    ensures v.Inverse().length == v.length
  {
    MagnitudeNegation(v.x, v.y, v.z);
    assert v.Inverse().length == MagnitudeOf3(-v.x, -v.y, -v.z);
    MagnitudeNegation(-v.x, v.y, v.z);
    MagnitudeNegation(-v.x, -v.y, v.z);
  }

  /** dot is symmetric, and for a cached vector lengthSquared equals the dot product with itself. */
  lemma DotProperties(v: CartesianVector, u: CartesianVector)
    requires SqrtLaw()
    ensures v.Dot(u) == u.Dot(v)
    ensures v.Dot(v) >= 0.0 && (v.Dot(v) == 0.0 <==> v.x == 0.0 && v.y == 0.0 && v.z == 0.0)
    ensures v.Cached() ==> v.LengthSquared() == v.Dot(v)
  {
    SumOfSquares(v.x, v.y, v.z);
    MagnitudeSquared(v.x, v.y, v.z);
  }

  /** distanceSquared is symmetric and 0 from a vector to itself; distance is non-negative. */
  lemma DistanceProperties(v: CartesianVector, u: CartesianVector)
    requires SqrtLaw()
    ensures v.DistanceSquared(u) == u.DistanceSquared(v)
    ensures v.DistanceSquared(v) == 0.0
    ensures v.Distance(u) == u.Distance(v) >= 0.0
    ensures v.Distance(v) == 0.0
    ensures v.Distance(u) == 0.0 <==> v.x == u.x && v.y == u.y && v.z == u.z
  {
    var dx := v.x - u.x;
    var dy := v.y - u.y;
    var dz := v.z - u.z;
    assert v.DistanceSquared(u) == dx * dx + dy * dy + dz * dz;
    assert u.DistanceSquared(v) == (-dx) * (-dx) + (-dy) * (-dy) + (-dz) * (-dz);
    SumOfSquares(dx, dy, dz);
    SqrtZero(v.DistanceSquared(u));
    SqrtOf(v.DistanceSquared(u));
    SqrtZero(0.0);
  }

  /** rotate() keeps the length of the vector. */
  lemma RotateKeepsLength(v: CartesianVector, q: Quaternion)
    requires SqrtLaw() && v.Cached() && q.Magnitude() != 0.0
    ensures v.Rotate(q).length == v.length
  {
    var qn := q.Normalize();
    var p := Pure(v.x, v.y, v.z);
    var rotated := qn.Multiply(p).Multiply(qn.Conjugate());
    assert v.Rotate(q) == Vector(rotated.x, rotated.y, rotated.z);
    NormalizeUnit(q);
    SandwichNorm(qn, p);
    SandwichPure(qn, p);
    assert rotated.Norm() == p.Norm();
    MagnitudeOfSum(v.x, v.y, v.z, p.Norm());
    MagnitudeOfSum(rotated.x, rotated.y, rotated.z, rotated.Norm());
  }

  /** Rotating by the identity quaternion returns the same components. */
  lemma RotateByIdentity(v: CartesianVector)
    requires SqrtLaw()
    ensures Identity().Magnitude() != 0.0
    ensures v.Rotate(Identity()) == Vector(v.x, v.y, v.z)
  {
    NormalizeIdentity();
    assert v.Rotate(Identity()) == v.Sandwich(Identity());
  }

  /** dot is the sum of the components of the componentwise product. */
  lemma DotIsProductSum(u: CartesianVector, v: CartesianVector)
    ensures var p := u.Multiply(v); u.Dot(v) == p.x + p.y + p.z
  {
  }

  /** getAngle is symmetric in its two vectors. */
  lemma AngleSymmetric(v: CartesianVector, u: CartesianVector)
    requires v.length != 0.0 && u.length != 0.0
    ensures v.GetAngle(u) == u.GetAngle(v)
  {
    assert v.Dot(u) == u.Dot(v);
    assert v.length * u.length == u.length * v.length;
  }
}
