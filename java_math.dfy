/**
 * The parts of java.lang.Math that the library calls.
 *
 * Doubles are modelled as reals. The transcendental functions and the
 * square root are left uninterpreted: each is a constant of arrow type
 * whose value the model never fixes. What a proof needs to know about them
 * is stated as a "law" below, and every lemma that relies on a law names it
 * in its `requires`, so no property of sin, cos, acos, atan2 or sqrt is
 * taken for granted anywhere else (the same holds for pow).
 */
module JavaMath {

  /** Math.PI: the double nearest to pi, written out exactly. */
  const PI: real := 3.141592653589793115997963468544185161590576171875

  /** Math.sin, Math.cos, Math.acos, Math.atan2, Math.sqrt and Math.pow. */
  const Sin: real -> real
  const Cos: real -> real
  const Acos: real -> real
  const Atan2: (real, real) -> real
  const Sqrt: real -> real
  const Pow: (real, real) -> real

  /** sin^2 t + cos^2 t = 1 for every angle t. */
  ghost predicate SinCosLaw() {
    forall t :: Sin(t) * Sin(t) + Cos(t) * Cos(t) == 1.0
  }

  /** sin 0 = 0 and cos 0 = 1. */
  ghost predicate ZeroAngleLaw() {
    Sin(0.0) == 0.0 && Cos(0.0) == 1.0
  }

  /** The square root of a non-negative number is non-negative and squares back to it. */
  ghost predicate SqrtLaw() {
    forall a :: a >= 0.0 ==> Sqrt(a) >= 0.0 && Sqrt(a) * Sqrt(a) == a
  }

  /** acos is a right inverse of cos on [-1, 1], and its value lies in [0, pi], where sin is non-negative. */
  ghost predicate AcosLaw() {
    forall t :: -1.0 <= t <= 1.0 ==> Cos(Acos(t)) == t && Sin(Acos(t)) >= 0.0
  }

  /** acos undoes cos on [0, pi], the range in which Math.acos returns its angle. */
  ghost predicate AcosCosLaw() {
    forall t :: 0.0 <= t <= PI ==> Acos(Cos(t)) == t
  }

  /**
   * atan2(a, b) is the angle of the point (b, a):
   * sin(atan2(a, b)) = a / sqrt(a^2 + b^2) and cos(atan2(a, b)) = b / sqrt(a^2 + b^2),
   * written without the division.
   */
  ghost predicate Atan2Law() {
    forall a, b :: a * a + b * b != 0.0 ==>
      Sin(Atan2(a, b)) * Sqrt(a * a + b * b) == a && Cos(Atan2(a, b)) * Sqrt(a * a + b * b) == b
  }

  /** Math.pow: an exponent of 0 gives 1, and an exponent of 1 gives the base. */
  ghost predicate PowLaw() {
    forall a :: Pow(a, 0.0) == 1.0 && Pow(a, 1.0) == a
  }

  // Instances of the laws, for use in proofs.

  lemma SinCos(t: real)
    requires SinCosLaw()
    ensures Sin(t) * Sin(t) + Cos(t) * Cos(t) == 1.0
  {
  }

  lemma SqrtOf(a: real)
    requires SqrtLaw() && a >= 0.0
    ensures Sqrt(a) >= 0.0 && Sqrt(a) * Sqrt(a) == a
  {
  }

  lemma CosAcos(t: real)
    requires AcosLaw() && -1.0 <= t <= 1.0
    ensures Cos(Acos(t)) == t && Sin(Acos(t)) >= 0.0
  {
  }

  lemma Atan2Of(a: real, b: real)
    requires Atan2Law() && a * a + b * b != 0.0
    ensures Sin(Atan2(a, b)) * Sqrt(a * a + b * b) == a
    ensures Cos(Atan2(a, b)) * Sqrt(a * a + b * b) == b
  {
  }

  /** Two non-negative numbers with the same square are equal. */
  lemma SquareInjective(u: real, v: real)
    requires u >= 0.0 && v >= 0.0 && u * u == v * v
    ensures u == v
  {
    if u + v != 0.0 {
      assert (u - v) * (u + v) == 0.0;
      assert u - v == (u - v) * (u + v) / (u + v);
    }
  }

  /** sqrt(a) is the only non-negative number whose square is a. */
  lemma SqrtUnique(a: real, u: real)
    requires SqrtLaw() && u >= 0.0 && u * u == a
    ensures Sqrt(a) == u
  {
    SqrtOf(a);
    SquareInjective(Sqrt(a), u);
  }

  /** sqrt(a) is 0 exactly when a is 0. */
  lemma SqrtZero(a: real)
    requires SqrtLaw() && a >= 0.0
    ensures Sqrt(a) == 0.0 <==> a == 0.0
  {
    SqrtOf(a);
    if a == 0.0 {
      SqrtUnique(a, 0.0);
    }
  }

  /** Equal squares have equal square roots, whatever the signs. */
  lemma SqrtOfSquare(u: real)
    requires SqrtLaw()
    ensures Sqrt(u * u) == (if u >= 0.0 then u else -u)
  {
    SqrtUnique(u * u, if u >= 0.0 then u else -u);
  }

  /** A product is zero only when a factor is. */
  lemma ProductZero(x: real, y: real)
    requires x * y == 0.0
    ensures x == 0.0 || y == 0.0
  {
  }

  /** A product of two non-zero numbers is non-zero. */
  lemma NonZeroProduct(x: real, y: real, p: real)
    requires x != 0.0 && y != 0.0 && p == x * y
    ensures p != 0.0
  {
  }

  /** A factor that leaves a non-zero number unchanged is 1. */
  lemma CancelFactor(b: real, a: real, c: real)
    requires a != 0.0 && c == b * a && c == a
    ensures b == 1.0
  {
    assert (b - 1.0) * a == 0.0;
    ProductZero(b - 1.0, a);
  }

  /** Dividing by a non-zero number and multiplying back gives the number again. */
  lemma DivideBack(u: real, s: real)
    requires s != 0.0
    ensures (u / s) * s == u
  {
  }

  /** A product divided by a non-zero factor is the other factor, and a zero factor makes it 0. */
  lemma ProductFactor(p: real, a: real, b: real)
    requires p == a * b
    ensures b != 0.0 ==> p / b == a
    ensures b == 0.0 ==> p == 0.0
  {
  }

  /** A product of two positive numbers is positive. */
  lemma ProductPositive(x: real, y: real)
    requires x > 0.0 && y > 0.0
    ensures x * y > 0.0
  {
  }

  /** Equal factors give equal products. */
  lemma EqualFactors(a: real, b: real, c: real)
    requires a == b
    ensures a * c == b * c
  {
  }

  /** x * x, as a function so that equal arguments give equal squares. */
  function Squared(x: real): real {
    x * x
  }

  /** The two legs h c and h s of a right angle with sine s and cosine c square to h^2. */
  lemma Legs(h: real, c: real, s: real)
    requires s * s + c * c == 1.0
    ensures Squared(h * c) + Squared(h * s) == Squared(h)
  {
    assert (h * c) * (h * c) + (h * s) * (h * s) == (h * h) * (s * s + c * c);
  }

  /** A square is non-negative, and zero only when its root is. */
  lemma Square(x: real)
    ensures x * x >= 0.0
    ensures x * x == 0.0 <==> x == 0.0
  {
    if x > 0.0 {
      ProductPositive(x, x);
    } else if x < 0.0 {
      ProductPositive(-x, -x);
      assert x * x == (-x) * (-x);
    }
    if x * x == 0.0 {
      ProductZero(x, x);
    }
  }

  /** A sum of three squares is non-negative and vanishes only when every term does. */
  lemma SumOfSquares(x: real, y: real, z: real)
    ensures x * x >= 0.0 && y * y >= 0.0 && z * z >= 0.0
    ensures x * x + y * y + z * z >= 0.0
    ensures x * x + y * y + z * z == 0.0 <==> x == 0.0 && y == 0.0 && z == 0.0
  {
    Square(x);
    Square(y);
    Square(z);
  }

  /** A number in [-1, 1] is one whose square is at most 1. */
  lemma UnitInterval(t: real)
    requires t * t <= 1.0
    ensures -1.0 <= t <= 1.0
  {
    assert (t - 1.0) * (t + 1.0) <= 0.0;
  }
}
