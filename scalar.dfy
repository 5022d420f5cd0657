/**
 * Scalar: a magnitude together with the origin it is measured from. Every
 * operation works on the magnitude and carries the receiver's origin over.
 */
module Scalars {
  import opened JavaMath
  import opened Quaternions

  /** The outcome of an operation that may throw. */
  datatype Result<T> = Success(value: T) | Failure(error: string)

  datatype Scalar = Scalar(magnitude: real, origin: real) {

    /** add(double). */
    function AddValue(d: real): (r: Scalar)
      ensures r.origin == origin
      ensures r.magnitude - d == magnitude
    {
      Scalar(magnitude + d, origin)
    }

    /** add(IScalar): only the argument's magnitude is used. */
    function Add(s: Scalar): (r: Scalar)
      ensures r.origin == origin
      ensures r.magnitude - s.magnitude == magnitude
    {
      Scalar(magnitude + s.magnitude, origin)
    }

    /** multiply(double). */
    function MultiplyValue(d: real): (r: Scalar)
      ensures r.origin == origin
      ensures d != 0.0 ==> r.magnitude / d == magnitude
      ensures d == 0.0 ==> r.magnitude == 0.0
      ensures d == 1.0 ==> r == this
    {
      ProductFactor(magnitude * d, magnitude, d);
      Scalar(magnitude * d, origin)
    }

    /** multiply(IScalar): only the argument's magnitude is used. */
    function Multiply(s: Scalar): (r: Scalar)
      ensures r.origin == origin
      ensures s.magnitude != 0.0 ==> r.magnitude / s.magnitude == magnitude
      ensures s.magnitude == 0.0 ==> r.magnitude == 0.0
      ensures s.magnitude == 1.0 ==> r == this
    {
      ProductFactor(magnitude * s.magnitude, magnitude, s.magnitude);
      Scalar(magnitude * s.magnitude, origin)
    }

    /** multiply(IQuaternion): only the quaternion's real part w is used. */
    function MultiplyQuaternion(q: Quaternion): (r: Scalar)
      ensures r.origin == origin
      ensures q.w != 0.0 ==> r.magnitude / q.w == magnitude
      ensures q.w == 0.0 ==> r.magnitude == 0.0
      ensures q.w == 1.0 ==> r == this
    {
      ProductFactor(magnitude * q.w, magnitude, q.w);
      Scalar(magnitude * q.w, origin)
    }

    /**
     * normalize(): a zero magnitude stays 0; any other becomes
     * magnitude * (1 / magnitude), which is 1 over the reals.
     */
    function Normalize(): (r: Scalar)
      ensures r.origin == origin
      ensures r.magnitude == (if magnitude == 0.0 then 0.0 else 1.0)
    {
      if magnitude == 0.0 then
        Scalar(0.0, origin)
      else
        var reciprocal := 1.0 / magnitude;
        Scalar(magnitude * reciprocal, origin)
    }

    /** inverse(): throws on a zero magnitude, otherwise the reciprocal. */
    function Inverse(): (r: Result<Scalar>)
      ensures r.Failure? <==> magnitude == 0.0
      ensures r.Success? ==> r.value.origin == origin && r.value.magnitude * magnitude == 1.0
    {
      if magnitude == 0.0 then
        Failure("Cannot compute inverse of scalar with magnitude 0.")
      else
        Success(Scalar(1.0 / magnitude, origin))
    }

    /** negate(). */
    function Negate(): (r: Scalar)
      ensures r.origin == origin
      ensures r.magnitude + magnitude == 0.0
    {
      Scalar(-magnitude, origin)
    }
  }

  /** The Scalar overloads of add and multiply are the double overloads on the argument's magnitude. */
  lemma ScalarArgumentIgnoresOrigin(s: Scalar, t: Scalar, q: Quaternion)
    ensures s.Add(t) == s.AddValue(t.magnitude)
    ensures s.Multiply(t) == s.MultiplyValue(t.magnitude)
    ensures s.MultiplyQuaternion(q) == s.MultiplyValue(q.w)
  {
  }

  /** Multiplying by a and then by b multiplies by a * b, in either order. */
  lemma MultiplyComposes(s: Scalar, a: real, b: real)
    ensures s.MultiplyValue(a).MultiplyValue(b) == s.MultiplyValue(a * b)
    ensures s.MultiplyValue(a).MultiplyValue(b) == s.MultiplyValue(b).MultiplyValue(a)
  {
    assert (s.magnitude * a) * b == s.magnitude * (a * b);
    assert (s.magnitude * b) * a == s.magnitude * (a * b);
  }

  /** Multiplying by a non-zero value and then by its reciprocal restores the scalar. */
  lemma MultiplyReciprocal(s: Scalar, d: real)
    requires d != 0.0
    ensures s.MultiplyValue(d).MultiplyValue(1.0 / d) == s
  {
    MultiplyComposes(s, d, 1.0 / d);
    assert d * (1.0 / d) == 1.0;
  }

  /** normalize() is idempotent. */
  lemma NormalizeIdempotent(s: Scalar)
    ensures s.Normalize().Normalize() == s.Normalize()
  {
  }

  /** Inverting twice restores a scalar with a non-zero magnitude. */
  lemma InverseInvolution(s: Scalar)
    requires s.magnitude != 0.0
    ensures s.Inverse().Success? && s.Inverse().value.Inverse() == Success(s)
  {
    var t := s.Inverse().value;
    assert t.magnitude * s.magnitude == 1.0;
    assert t.magnitude != 0.0;
    assert 1.0 / t.magnitude == s.magnitude;
  }

  /** Negating twice restores the original. */
  lemma NegateInvolution(s: Scalar)
    ensures s.Negate().Negate() == s
  {
  }
}
