/**
 * The Caravan module's Point: three final coordinates and three offsets
 * that setters change in place. It defines no equality, so two Points are
 * the same only when they are the same object, which is what a Dafny
 * class reference compares.
 */
module CaravanPoints {

  class Point {
    const x: real
    const y: real
    const z: real
    var xOffset: real
    var yOffset: real
    var zOffset: real

    /** Point(x, y, z): the offsets start at 0. */
    constructor (x: real, y: real, z: real)
      ensures this.x == x && this.y == y && this.z == z
      ensures xOffset == 0.0 && yOffset == 0.0 && zOffset == 0.0
    {
      this.x := x;
      this.y := y;
      this.z := z;
      xOffset := 0.0;
      yOffset := 0.0;
      zOffset := 0.0;
    }

    /** Point(x, y, z, xOffset, yOffset, zOffset): all six values as given. */
    constructor WithOffsets(x: real, y: real, z: real, xOffset: real, yOffset: real, zOffset: real)
      ensures this.x == x && this.y == y && this.z == z
      ensures this.xOffset == xOffset && this.yOffset == yOffset && this.zOffset == zOffset
    {
      this.x := x;
      this.y := y;
      this.z := z;
      this.xOffset := xOffset;
      this.yOffset := yOffset;
      this.zOffset := zOffset;
    }

    /** getX(): the x coordinate fixed at construction; no setter changes it. */
    function GetX(): (r: real)
      ensures r == x
    {
      x
    }

    /** getY(): the y coordinate fixed at construction; no setter changes it. */
    function GetY(): (r: real)
      ensures r == y
    {
      y
    }

    /** getZ(): the z coordinate fixed at construction; no setter changes it. */
    function GetZ(): (r: real)
      ensures r == z
    {
      z
    }

    /** getXOffset(): the offset last set for x, 0 after construction. */
    function GetXOffset(): (r: real)
      reads this
      ensures r == xOffset
    {
      xOffset
    }

    /** getYOffset(): the offset last set for y, 0 after construction. */
    function GetYOffset(): (r: real)
      reads this
      ensures r == yOffset
    {
      yOffset
    }

    /** getZOffset(): the offset last set for z, 0 after construction. */
    function GetZOffset(): (r: real)
      reads this
      ensures r == zOffset
    {
      zOffset
    }

    /** setXOffset: the x offset reads back as v; the other offsets and the coordinates stay. */
    method SetXOffset(v: real)
      modifies this
      ensures GetXOffset() == v
      ensures GetYOffset() == old(GetYOffset()) && GetZOffset() == old(GetZOffset())
    {
      xOffset := v;
    }

    /** setYOffset: the y offset reads back as v; the other offsets and the coordinates stay. */
    method SetYOffset(v: real)
      modifies this
      ensures GetYOffset() == v
      ensures GetXOffset() == old(GetXOffset()) && GetZOffset() == old(GetZOffset())
    {
      yOffset := v;
    }

    /** setZOffset: the z offset reads back as v; the other offsets and the coordinates stay. */
    method SetZOffset(v: real)
      modifies this
      ensures GetZOffset() == v
      ensures GetXOffset() == old(GetXOffset()) && GetYOffset() == old(GetYOffset())
    {
      zOffset := v;
    }
  }
}
