/**
 * Helix's default methods: a helix of a given radius that rises a given
 * distance per radian. Its radius and distance are what the implementing
 * class supplies.
 */
module Helices {
  import opened JavaMath
  import opened CaravanPoints

  datatype Helix = Helix(radius: real, distance: real) {

    /** getX(pos) = radius cos pos. */
    function GetX(pos: real): (r: real)
      ensures ZeroAngleLaw() && pos == 0.0 ==> r == radius
    {
      radius * Cos(pos)
    }

    /** getY(pos) = radius sin pos. */
    function GetY(pos: real): (r: real)
      ensures ZeroAngleLaw() && pos == 0.0 ==> r == 0.0
    {
      radius * Sin(pos)
    }

    /** getZ(pos) = distance pos: no height at pos 0, and distance more for each unit of pos. */
    function GetZ(pos: real): (r: real)
      ensures pos == 0.0 ==> r == 0.0
    {
      distance * pos
    }

    /** toPoint(pos): a new Caravan point at (getX, getY, getZ) with zero offsets. */
    method ToPoint(pos: real) returns (p: Point)
      ensures fresh(p)
      ensures p.GetX() == GetX(pos) && p.GetY() == GetY(pos) && p.GetZ() == GetZ(pos)
      ensures p.GetXOffset() == 0.0 && p.GetYOffset() == 0.0 && p.GetZOffset() == 0.0
    {
      p := new Point(GetX(pos), GetY(pos), GetZ(pos));
    }
  }

  /** Every position of the helix lies on the cylinder of its radius around the z axis. */
  lemma OnCylinder(h: Helix, pos: real)
    requires SinCosLaw()
    ensures Squared(h.GetX(pos)) + Squared(h.GetY(pos)) == Squared(h.radius)
  {
    SinCos(pos);
    Legs(h.radius, Cos(pos), Sin(pos));
  }

  /** The height is linear in the position: moving by d adds the height of d, so every turn rises equally. */
  lemma RiseIsLinear(h: Helix, pos: real, d: real)
    ensures h.GetZ(pos + d) == h.GetZ(pos) + h.GetZ(d)
  {
  }
}
