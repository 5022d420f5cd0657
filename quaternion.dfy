/**
 * Quaternion (w, x, y, z): an immutable value whose every operation builds
 * a new quaternion. Multiplication is the Hamilton product.
 */
module Quaternions {
  import opened JavaMath

  datatype Quaternion = Quaternion(w: real, x: real, y: real, z: real) {

    /** add(double): only the real part moves. */
    function AddScalar(s: real): (r: Quaternion)
      ensures r.w - w == s
      ensures r.x == x && r.y == y && r.z == z
    {
      Quaternion(w + s, x, y, z)
    }

    /** add(IQuaternion): componentwise sum. */
    function Add(q: Quaternion): (r: Quaternion)
      ensures r.w - q.w == w && r.x - q.x == x && r.y - q.y == y && r.z - q.z == z
    {
      Quaternion(w + q.w, x + q.x, y + q.y, z + q.z)
    }

    /** multiply(double): every component is scaled. */
    function Scale(s: real): (r: Quaternion)
      ensures s == 1.0 ==> r == this
      ensures s == 0.0 ==> r == Quaternion(0.0, 0.0, 0.0, 0.0)
    {
      Quaternion(w * s, x * s, y * s, z * s)
    }

    /** multiply(IQuaternion): the Hamilton product this * q. */
    function Multiply(q: Quaternion): (r: Quaternion)
      ensures q == Identity() ==> r == this
      ensures this == Identity() ==> r == q
    {
      Quaternion(
        w * q.w - x * q.x - y * q.y - z * q.z,
        w * q.x + x * q.w + y * q.z - z * q.y,
        w * q.y + y * q.w + z * q.x - x * q.z,
        w * q.z + z * q.w + x * q.y - y * q.x)
    }

    /** conjugate(): the real part is kept, the vector part negated. */
    function Conjugate(): (r: Quaternion)
      ensures r.w == w && r.x == -x && r.y == -y && r.z == -z
    {
      Quaternion(w, -x, -y, -z)
    }

    /** The squared magnitude w^2 + x^2 + y^2 + z^2. */
    function Norm(): (r: real)
      ensures r == Multiply(Conjugate()).w
    {
      FourSquares(w, x, y, z)
    }

    /** getMagnitude(). */
    function Magnitude(): (r: real)
      ensures SqrtLaw() ==> r >= 0.0 && r * r == Norm()
    {
      NormNonNegative(this);
      Sqrt(Norm())
    }

    /**
     * normalize(): each component divided by the magnitude. The code has no
     * guard, so a zero quaternion would produce NaN; the model requires a
     * non-zero magnitude instead.
     */
    function Normalize(): (r: Quaternion)
      requires Magnitude() != 0.0
      ensures r.Scale(Magnitude()) == this
    {
      var m := Magnitude();
      Quaternion(w / m, x / m, y / m, z / m)
    }

    /**
     * inverse(): the conjugate divided by the squared magnitude, computed as
     * getMagnitude() * getMagnitude(). Again unguarded, so the model requires
     * a non-zero magnitude.
     */
    function Inverse(): (r: Quaternion)
      requires Magnitude() != 0.0
      ensures r.Scale(Magnitude() * Magnitude()) == Conjugate()
    {
      var m := Magnitude();
      Quaternion(w / (m * m), -x / (m * m), -y / (m * m), -z / (m * m))
    }
  }

  /** w^2 + x^2 + y^2 + z^2. */
  function FourSquares(w: real, x: real, y: real, z: real): real {
    w * w + x * x + y * y + z * z
  }

  /** The multiplicative identity (1, 0, 0, 0). */
  function Identity(): (r: Quaternion)
    ensures r.w == 1.0 && r.x == 0.0 && r.y == 0.0 && r.z == 0.0
  {
    Quaternion(1.0, 0.0, 0.0, 0.0)
  }

  /** A quaternion with zero real part, holding the point (x, y, z). */
  function Pure(x: real, y: real, z: real): (r: Quaternion)
    ensures r.w == 0.0 && r.x == x && r.y == y && r.z == z
  {
    Quaternion(0.0, x, y, z)
  }

  /** Scaling by 1 keeps a quaternion, scaling by 0 gives the zero quaternion. */
  lemma ScaleByOneOrZero(q: Quaternion)
    ensures q.Scale(1.0) == q
    ensures q.Scale(0.0) == Quaternion(0.0, 0.0, 0.0, 0.0)
  {
  }

  /** The identity is neutral for the Hamilton product on either side. */
  lemma MultiplyIdentity(q: Quaternion)
    ensures q.Multiply(Identity()) == q
    ensures Identity().Multiply(q) == q
  {
  }

  /** Conjugating twice restores the quaternion; the identity is its own conjugate. */
  lemma ConjugateInvolution(q: Quaternion)
    ensures q.Conjugate().Conjugate() == q
    ensures Identity().Conjugate() == Identity()
  {
  }

  /** Adding a real number is adding the quaternion (s, 0, 0, 0). */
  lemma AddScalarIsAdd(q: Quaternion, s: real)
    ensures q.AddScalar(s) == q.Add(Quaternion(s, 0.0, 0.0, 0.0))
  {
  }

  /** Scaling by s is the Hamilton product with (s, 0, 0, 0), from either side. */
  lemma ScaleIsMultiply(q: Quaternion, s: real)
    ensures q.Scale(s) == q.Multiply(Quaternion(s, 0.0, 0.0, 0.0))
    ensures q.Scale(s) == Quaternion(s, 0.0, 0.0, 0.0).Multiply(q)
  {
  }

  /** Conjugation reverses a product. */
  lemma ConjugateOfProduct(p: Quaternion, q: Quaternion)
    ensures p.Multiply(q).Conjugate() == q.Conjugate().Multiply(p.Conjugate())
  {
    ConjugateProductW(p, q);
    ConjugateProductX(p, q);
    ConjugateProductY(p, q);
    ConjugateProductZ(p, q);
    var l := p.Multiply(q).Conjugate();
    var r := q.Conjugate().Multiply(p.Conjugate());
    assert l.w == r.w && l.x == r.x && l.y == r.y && l.z == r.z;
  }

  /** The w components of conj(p * q) and conj(q) * conj(p) agree. */
  lemma ConjugateProductW(p: Quaternion, q: Quaternion)
    ensures p.Multiply(q).Conjugate().w == q.Conjugate().Multiply(p.Conjugate()).w
  {
  }

  /** The x components of conj(p * q) and conj(q) * conj(p) agree. */
  lemma ConjugateProductX(p: Quaternion, q: Quaternion)
    ensures p.Multiply(q).Conjugate().x == q.Conjugate().Multiply(p.Conjugate()).x
  {
  }

  /** The y components of conj(p * q) and conj(q) * conj(p) agree. */
  lemma ConjugateProductY(p: Quaternion, q: Quaternion)
    ensures p.Multiply(q).Conjugate().y == q.Conjugate().Multiply(p.Conjugate()).y
  {
  }

  /** The z components of conj(p * q) and conj(q) * conj(p) agree. */
  lemma ConjugateProductZ(p: Quaternion, q: Quaternion)
    ensures p.Multiply(q).Conjugate().z == q.Conjugate().Multiply(p.Conjugate()).z
  {
  }

  /** q * conj(q) = conj(q) * q = (|q|^2, 0, 0, 0). */
  lemma MultiplyConjugate(q: Quaternion)
    ensures q.Multiply(q.Conjugate()) == Quaternion(q.Norm(), 0.0, 0.0, 0.0)
    ensures q.Conjugate().Multiply(q) == Quaternion(q.Norm(), 0.0, 0.0, 0.0)
  {
  }

  /** Euler's four-square identity: the norm of a product is the product of the norms. */
  lemma NormMultiplicative(p: Quaternion, q: Quaternion)
    ensures p.Multiply(q).Norm() == p.Norm() * q.Norm()
  {
    FourSquareIdentity(p.w, p.x, p.y, p.z, q.w, q.x, q.y, q.z);
  }

  /** Euler's four-square identity, in the shape of the Hamilton product. */
  lemma FourSquareIdentity(a: real, b: real, c: real, d: real, e: real, f: real, g: real, h: real)
    ensures FourSquares(a * e - b * f - c * g - d * h, a * f + b * e + c * h - d * g,
                         a * g + c * e + d * f - b * h, a * h + d * e + b * g - c * f)
         == FourSquares(a, b, c, d) * FourSquares(e, f, g, h)
  {
  }

  /** The norm is non-negative and vanishes only at the zero quaternion. */
  lemma NormNonNegative(q: Quaternion)
    ensures q.Norm() >= 0.0
    ensures q.Norm() == 0.0 <==> q == Quaternion(0.0, 0.0, 0.0, 0.0)
  {
    Square(q.w);
    Square(q.x);
    Square(q.y);
    Square(q.z);
  }

  /** getMagnitude() is non-negative, squares to the norm, and is 0 only at the zero quaternion. */
  lemma MagnitudeOfNorm(q: Quaternion)
    requires SqrtLaw()
    ensures q.Magnitude() >= 0.0
    ensures q.Magnitude() * q.Magnitude() == q.Norm()
    ensures q.Magnitude() == 0.0 <==> q == Quaternion(0.0, 0.0, 0.0, 0.0)
  {
    var n := q.Norm();
    NormNonNegative(q);
    SqrtOf(n);
    SqrtZero(n);
    assert q.Magnitude() == Sqrt(n);
  }

  /** The identity has magnitude 1. */
  lemma IdentityMagnitude()
    requires SqrtLaw()
    ensures Identity().Norm() == 1.0
    ensures Identity().Magnitude() == 1.0
  {
    SqrtUnique(1.0, 1.0);
  }

  /** Normalizing the identity gives the identity back. */
  lemma NormalizeIdentity()
    requires SqrtLaw()
    ensures Identity().Magnitude() == 1.0
    ensures Identity().Normalize() == Identity()
  {
    IdentityMagnitude();
  }

  /** normalize() yields a quaternion of norm and magnitude 1. */
  lemma NormalizeUnit(q: Quaternion)
    requires SqrtLaw() && q.Magnitude() != 0.0
    ensures q.Normalize().Norm() == 1.0
    ensures q.Normalize().Magnitude() == 1.0
  {
    var m := q.Magnitude();
    var n := q.Normalize();
    var m2 := m * m;
    assert m2 == q.Norm() by {
      MagnitudeOfNorm(q);
    }
    assert q.Norm() == n.Norm() * m2 by {
      assert n.Scale(m) == q;
      ScaleNorm(n, m);
    }
    assert m2 != 0.0 by {
      NonZeroProduct(m, m, m2);
    }
    CancelFactor(n.Norm(), m2, q.Norm());
    assert n.Magnitude() == Sqrt(1.0);
    SqrtUnique(1.0, 1.0);
  }

  /** Scaling a quaternion by s scales its norm by s^2. */
  lemma ScaleNorm(q: Quaternion, s: real)
    ensures q.Scale(s).Norm() == q.Norm() * (s * s)
  {
  }

  /** inverse() is a two-sided inverse for the Hamilton product. */
  lemma InverseIsInverse(q: Quaternion)
    requires SqrtLaw() && q.Magnitude() != 0.0
    ensures q.Multiply(q.Inverse()) == Identity()
    ensures q.Inverse().Multiply(q) == Identity()
  {
    var m := q.Magnitude();
    var n := q.Norm();
    assert m * m == n by {
      MagnitudeOfNorm(q);
    }
    NonZeroProduct(m, m, n);
    var i := q.Inverse();
    var c := q.Conjugate();
    assert i == c.Scale(1.0 / n);
    MultiplyConjugate(q);
    ScaleThrough(q, c, 1.0 / n);
    ScaleThroughLeft(q, c, 1.0 / n);
  }

  /** A scale factor on the right operand moves out of the product. */
  lemma ScaleThrough(p: Quaternion, q: Quaternion, s: real)
    ensures p.Multiply(q.Scale(s)) == p.Multiply(q).Scale(s)
  {
    ScaledRight(p, q, s);
    var l := p.Multiply(q.Scale(s));
    var r := p.Multiply(q).Scale(s);
    assert l.w == r.w && l.x == r.x && l.y == r.y && l.z == r.z;
  }

  /** A scale factor on the left operand moves out of the product. */
  lemma ScaleThroughLeft(p: Quaternion, q: Quaternion, s: real)
    ensures q.Scale(s).Multiply(p) == q.Multiply(p).Scale(s)
  {
    ScaledLeft(q, p, s);
    var l := q.Scale(s).Multiply(p);
    var r := q.Multiply(p).Scale(s);
    assert l.w == r.w && l.x == r.x && l.y == r.y && l.z == r.z;
  }

  /** Each component of p * (s q) is s times that component of p * q. */
  lemma ScaledRight(p: Quaternion, q: Quaternion, s: real)
    ensures p.Multiply(q.Scale(s)).w == p.Multiply(q).w * s
    ensures p.Multiply(q.Scale(s)).x == p.Multiply(q).x * s
    ensures p.Multiply(q.Scale(s)).y == p.Multiply(q).y * s
    ensures p.Multiply(q.Scale(s)).z == p.Multiply(q).z * s
  {
  }

  /** Each component of (s q) * p is s times that component of q * p. */
  lemma ScaledLeft(q: Quaternion, p: Quaternion, s: real)
    ensures q.Scale(s).Multiply(p).w == q.Multiply(p).w * s
    ensures q.Scale(s).Multiply(p).x == q.Multiply(p).x * s
    ensures q.Scale(s).Multiply(p).y == q.Multiply(p).y * s
    ensures q.Scale(s).Multiply(p).z == q.Multiply(p).z * s
  {
  }

  /** The sandwich q * p * conj(q) of a pure quaternion p is pure again, for any q. */
  lemma SandwichPure(q: Quaternion, p: Quaternion)
    requires p.w == 0.0
    ensures q.Multiply(p).Multiply(q.Conjugate()).w == 0.0
  {
  }

  /** The sandwich multiplies the norm of p by |q|^4, so a unit q keeps it. */
  lemma SandwichNorm(q: Quaternion, p: Quaternion)
    ensures q.Multiply(p).Multiply(q.Conjugate()).Norm() == q.Norm() * q.Norm() * p.Norm()
    ensures q.Norm() == 1.0 ==> q.Multiply(p).Multiply(q.Conjugate()).Norm() == p.Norm()
  {
    NormMultiplicative(q, p);
    NormMultiplicative(q.Multiply(p), q.Conjugate());
  }
}
