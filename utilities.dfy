/**
 * The Utilities class: the radian constants for the angles the samplers
 * sweep, and the Euclidean magnitude of a 2D (x, z) or 3D (x, y, z) vector.
 */
module Utilities {
  import opened JavaMath

  /** 45, 90, 180, 270 and 360 degrees in radians. */
  const RADIAN_45: real := PI / 4.0
  const RADIAN_90: real := PI / 2.0
  const RADIAN_180: real := PI
  const RADIAN_270: real := PI * 1.5
  const RADIAN_360: real := PI * 2.0

  /** Each constant is the right multiple of the smallest one. */
  lemma RadianMultiples()
    ensures RADIAN_360 == 2.0 * RADIAN_180 == 4.0 * RADIAN_90 == 8.0 * RADIAN_45
    ensures RADIAN_270 == 3.0 * RADIAN_90
  {
  }

  /** The constants increase strictly from 45 to 360 degrees. */
  lemma RadiansIncreasing()
    ensures 0.0 < RADIAN_45 < RADIAN_90 < RADIAN_180 < RADIAN_270 < RADIAN_360
  {
  }

  /** Magnitude of the horizontal vector (x, z). */
  function MagnitudeOf2(x: real, z: real): (r: real)
    ensures SqrtLaw() ==> r >= 0.0
  {
    SumOfSquares(x, 0.0, z);
    Sqrt(x * x + z * z)
  }

  /** Magnitude of the vector (x, y, z). */
  function MagnitudeOf3(x: real, y: real, z: real): (r: real)
    ensures SqrtLaw() ==> r >= 0.0
    ensures y == 0.0 ==> r == MagnitudeOf2(x, z)
  {
    SumOfSquares(x, y, z);
    Sqrt(x * x + y * y + z * z)
  }

  /** Both magnitudes are non-negative and vanish exactly at the zero vector. */
  lemma MagnitudeNonNegative(x: real, y: real, z: real)
    requires SqrtLaw()
    ensures MagnitudeOf3(x, y, z) >= 0.0
    ensures MagnitudeOf3(x, y, z) == 0.0 <==> x == 0.0 && y == 0.0 && z == 0.0
    ensures MagnitudeOf2(x, z) >= 0.0
    ensures MagnitudeOf2(x, z) == 0.0 <==> x == 0.0 && z == 0.0
  {
    SumOfSquares(x, y, z);
    SumOfSquares(x, 0.0, z);
    SqrtZero(x * x + y * y + z * z);
    SqrtZero(x * x + z * z);
  }

  /** The squared magnitude is the sum of the squared components. */
  lemma MagnitudeSquared(x: real, y: real, z: real)
    requires SqrtLaw()
    ensures MagnitudeOf3(x, y, z) * MagnitudeOf3(x, y, z) == x * x + y * y + z * z
    ensures MagnitudeOf2(x, z) * MagnitudeOf2(x, z) == x * x + z * z
  {
    SqrtOf(x * x + y * y + z * z);
    SqrtOf(x * x + z * z);
  }

  /** A 3D vector without height has the magnitude of its horizontal part. */
  lemma MagnitudeFlat(x: real, z: real)
    ensures MagnitudeOf3(x, 0.0, z) == MagnitudeOf2(x, z)
  {
  }

  /** Negating any component leaves the magnitude unchanged. */
  lemma MagnitudeNegation(x: real, y: real, z: real)
    ensures MagnitudeOf3(-x, y, z) == MagnitudeOf3(x, -y, z) == MagnitudeOf3(x, y, -z) == MagnitudeOf3(x, y, z)
    ensures MagnitudeOf2(-x, z) == MagnitudeOf2(x, -z) == MagnitudeOf2(x, z)
  {
  }

  /** Dividing each component by a non-zero magnitude gives magnitude 1. */
  lemma NormalizedMagnitude(x: real, y: real, z: real, m: real)
    requires SqrtLaw() && m == MagnitudeOf3(x, y, z) && m != 0.0
    ensures MagnitudeOf3(x / m, y / m, z / m) == 1.0
  {
    var nx, ny, nz := x / m, y / m, z / m;
    MagnitudeSquared(x, y, z);
    UnitSquares(x, y, z, m);
    MagnitudeOfSum(nx, ny, nz, 1.0);
    SqrtUnique(1.0, 1.0);
  }

  /** When m^2 is the sum of squares of x, y and z, the parts divided by m have squares summing to 1. */
  lemma UnitSquares(x: real, y: real, z: real, m: real)
    requires m != 0.0 && m * m == x * x + y * y + z * z
    ensures (x / m) * (x / m) + (y / m) * (y / m) + (z / m) * (z / m) == 1.0
  {
    var nx, ny, nz := x / m, y / m, z / m;
    var sum := x * x + y * y + z * z;
    var nsum := nx * nx + ny * ny + nz * nz;
    var m2 := m * m;
    DivideBack(x, m);
    DivideBack(y, m);
    DivideBack(z, m);
    ScaledSquares(nx, ny, nz, m, x, y, z);
    NonZeroProduct(m, m, m2);
    CancelFactor(nsum, m2, sum);
  }

  /** Scaling every part by m scales the sum of squares by m^2. */
  lemma ScaledSquares(nx: real, ny: real, nz: real, m: real, x: real, y: real, z: real)
    requires nx * m == x && ny * m == y && nz * m == z
    ensures x * x + y * y + z * z == (nx * nx + ny * ny + nz * nz) * (m * m)
  {
  }

  /** The magnitude is the square root of the sum of squares, however that sum is named. */
  lemma MagnitudeOfSum(x: real, y: real, z: real, s: real)
    requires s == x * x + y * y + z * z
    ensures MagnitudeOf3(x, y, z) == Sqrt(s)
  {
  }
}
