/**
 * AxisAngle: a rotation axis (x, y, z) and an angle. The angle is a Theta
 * supplier in the library; here it is the zenith value it supplies.
 */
module AxisAngles {
  import opened JavaMath
  import opened Utilities

  datatype AxisAngle = AxisAngle(x: real, y: real, z: real, angle: real) {

    /** The length of the axis. */
    function AxisLength(): real {
      MagnitudeOf3(x, y, z)
    }

    /** negate(): both the axis and the angle change sign. */
    function Negate(): (r: AxisAngle)
      ensures r.x == -x && r.y == -y && r.z == -z && r.angle == -angle
    {
      AxisAngle(-x, -y, -z, -angle)
    }

    /** inverse(): the axis changes sign, the angle is kept. */
    function Inverse(): (r: AxisAngle)
      ensures r.x == -x && r.y == -y && r.z == -z && r.angle == angle
    {
      AxisAngle(-x, -y, -z, angle)
    }

    /**
     * normalize(): the axis divided by its length, the angle kept. The code
     * divides without a guard, so the model requires a non-zero axis.
     */
    function Normalize(): (r: AxisAngle)
      requires AxisLength() != 0.0
      ensures r.angle == angle
      ensures r.x * AxisLength() == x && r.y * AxisLength() == y && r.z * AxisLength() == z
    {
      var m := AxisLength();
      AxisAngle(x / m, y / m, z / m, angle)
    }
  }

  /** Negating twice restores the original. */
  lemma NegateInvolution(a: AxisAngle)
    ensures a.Negate().Negate() == a
  {
  }

  /** Inverting twice restores the original. */
  lemma InverseInvolution(a: AxisAngle)
    ensures a.Inverse().Inverse() == a
  {
  }

  /** inverse() and negate() share the axis and differ only in the sign of the angle. */
  lemma InverseIsNegateOfAngle(a: AxisAngle)
    ensures a.Inverse().x == a.Negate().x && a.Inverse().y == a.Negate().y && a.Inverse().z == a.Negate().z
    ensures a.Inverse().angle == -a.Negate().angle
    ensures a.Negate().Inverse() == AxisAngle(a.x, a.y, a.z, -a.angle)
  {
  }

  /** A normalized axis has length 1. */
  lemma NormalizeUnit(a: AxisAngle)
    requires SqrtLaw() && a.AxisLength() != 0.0
    ensures a.Normalize().AxisLength() == 1.0
  {
    NormalizedMagnitude(a.x, a.y, a.z, a.AxisLength());
  }

  /** Normalizing a normalized axis changes nothing. */
  lemma NormalizeIdempotent(a: AxisAngle)
    requires SqrtLaw() && a.AxisLength() != 0.0
    ensures a.Normalize().AxisLength() != 0.0
    ensures a.Normalize().Normalize() == a.Normalize()
  {
    NormalizeUnit(a);
  }
}
