/**
 * FibonacciLattice.populate: directions spread over the unit sphere by the
 * golden angle, each translated by an origin. The counter is a double that
 * runs 0, step, 2 step, ... while it is at most radius; the result is an
 * insertion-ordered set of points that define no equality, so it keeps
 * every point in the order added and is a sequence here.
 */
module FibonacciLattices {
  import opened JavaMath
  import opened Spatial
  import opened DoubleCounters

  /** goldenRatio = (1 + sqrt 5) / 2; Math.sqrt(5) is non-negative, so the ratio is at least 1/2. */
  function GoldenRatio(): (g: real)
    requires Sqrt(5.0) >= 0.0
    ensures g >= 0.5
  {
    (1.0 + Sqrt(5.0)) / 2.0
  }

  /** The acos argument at counter i when the divisor is count: 1 - 2 (i + 1/2) / count. */
  function Height(i: real, count: real): real
    requires count != 0.0
  {
    1.0 - 2.0 * (i + 0.5) / count
  }

  /**
   * The lattice direction at counter i: theta = 2 pi i / goldenRatio,
   * phi = acos(Height), and (cos theta sin phi, cos phi, sin theta sin phi).
   */
  function Direction(i: real, count: real): Point3D
    requires Sqrt(5.0) >= 0.0 && count != 0.0
  {
    Bearing(2.0 * PI * i / GoldenRatio(), Acos(Height(i, count)))
  }

  /** The unit direction with azimuth theta and zenith phi: (cos theta sin phi, cos phi, sin theta sin phi). */
  function Bearing(theta: real, phi: real): Point3D {
    FromDouble3(Cos(theta) * Sin(phi), Cos(phi), Sin(theta) * Sin(phi))
  }

  /** The point populate adds at counter i: origin.add(direction), dividing by radius. */
  function LatticePoint(origin: Point3D, radius: int, i: real): Point3D
    requires Sqrt(5.0) >= 0.0 && radius != 0
  {
    origin.Add(Direction(i, radius as real))
  }

  /**
   * The first k points of a lattice around origin whose acos argument is
   * divided by count, in the order the counter 0, step, 2 step, ... visits them.
   */
  function Samples(origin: Point3D, count: real, step: real, k: nat): (ps: seq<Point3D>)
    requires Sqrt(5.0) >= 0.0 && count != 0.0
    ensures |ps| == k
  {
    if k == 0 then [] else Samples(origin, count, step, k - 1) + [origin.Add(Direction(Counter(0.0, step, k - 1), count))]
  }

  /** The n-th sample is the direction at the n-th counter value, translated by origin. */
  lemma {:induction false} SampleAt(origin: Point3D, count: real, step: real, k: nat, n: nat)
    requires Sqrt(5.0) >= 0.0 && count != 0.0 && n < k
    ensures Samples(origin, count, step, k)[n] == origin.Add(Direction(Counter(0.0, step, n), count))
  {
    if n < k - 1 {
      SampleAt(origin, count, step, k - 1, n);
    }
  }

  /**
   * The loop body of populate at counter i with divisor count: theta, phi,
   * the three coordinates, and origin.add of the direction they give.
   */
  method PassPoint(origin: Point3D, i: real, count: real, goldenRatio: real) returns (p: Point3D)
    requires Sqrt(5.0) >= 0.0 && count != 0.0 && goldenRatio == (1.0 + Sqrt(5.0)) / 2.0
    ensures p == origin.Add(Direction(i, count))
  {
    var theta := 2.0 * PI * i / goldenRatio;
    var phi := Acos(1.0 - 2.0 * (i + 0.5) / count);
    var x := Cos(theta) * Sin(phi);
    var y := Cos(phi);
    var z := Sin(theta) * Sin(phi);
    assert FromDouble3(x, y, z) == Bearing(theta, phi);
    p := origin.Add(FromDouble3(x, y, z));
  }

  /**
   * populate(origin, radius, step). A zero radius divides by zero in Java
   * (NaN points), and a non-positive step with a non-negative radius never
   * ends, so both are excluded. A negative radius yields no points.
   */
  method Populate(origin: Point3D, radius: int, step: real) returns (points: seq<Point3D>)
    requires Sqrt(5.0) >= 0.0
    requires radius != 0
    requires radius < 0 || step > 0.0
    ensures radius < 0 ==> points == []
    ensures radius > 0 ==> |points| == PassCount(0.0, step, radius as real, true)
    ensures points == Samples(origin, radius as real, step, |points|)
  {
    points := [];
    var goldenRatio := (1.0 + Sqrt(5.0)) / 2.0;
    var i := 0.0;
    while i <= radius as real
      invariant i == Counter(0.0, step, |points|)
      invariant radius < 0 ==> points == []
      invariant radius > 0 ==> |points| <= PassCount(0.0, step, radius as real, true)
      invariant points == Samples(origin, radius as real, step, |points|)
      decreases if radius < 0 then 0 else PassCount(0.0, step, radius as real, true) - |points|
    {
      PassesExactly(|points|, 0.0, step, radius as real, true);
      var p := PassPoint(origin, i, radius as real, goldenRatio);
      points := points + [p];
      i := i + step;
    }
    if radius > 0 {
      PassesExactly(|points|, 0.0, step, radius as real, true);
    }
  }

  /** With step 1 and a non-negative radius the loop makes radius + 1 passes. */
  lemma UnitStepCount(radius: nat)
    ensures PassCount(0.0, 1.0, radius as real, true) == radius + 1
  {
    assert (radius as real - 0.0) / 1.0 == radius as real;
  }

  /** For a positive count and counter, the acos argument is at most 1, and at least -1 exactly when i + 1/2 <= count. */
  lemma HeightRange(i: real, count: real)
    requires count > 0.0 && i >= 0.0
    ensures Height(i, count) <= 1.0
    ensures Height(i, count) >= -1.0 <==> i + 0.5 <= count
  {
    var q := 2.0 * (i + 0.5) / count;
    assert q * count == 2.0 * (i + 0.5);
    assert Height(i, count) == 1.0 - q;
    ScaleOrder(q, 2.0, count);
    assert q <= 2.0 <==> i + 0.5 <= count;
    ScaleOrder(0.0, q, count);
    assert q >= 0.0;
  }

  /**
   * As written, with step 1 the last point populate adds (index radius) is
   * the direction at counter radius, whose acos argument is
   * -1 - 1/radius < -1: Math.acos gives NaN there.
   */
  lemma LastHeightOutOfRange(origin: Point3D, radius: int)
    requires Sqrt(5.0) >= 0.0 && radius > 0
    ensures radius < PassCount(0.0, 1.0, radius as real, true)
    ensures Samples(origin, radius as real, 1.0, PassCount(0.0, 1.0, radius as real, true))[radius]
      == origin.Add(Direction(radius as real, radius as real))
    ensures Height(radius as real, radius as real) < -1.0
  {
    UnitStepCount(radius);
    SampleAt(origin, radius as real, 1.0, radius + 1, radius);
    CounterValue(0.0, 1.0, radius);
    HeightRange(radius as real, radius as real);
  }

  /** The counters of consecutive passes give acos arguments 2 step / count apart. */
  lemma HeightsEvenlySpaced(i: real, step: real, count: real)
    requires count != 0.0
    ensures Height(i, count) - Height(i + step, count) == 2.0 * step / count
  {
  }

  /** Every direction has unit length, whatever its angles. */
  lemma DirectionIsUnit(i: real, count: real)
    requires SinCosLaw() && Sqrt(5.0) >= 0.0 && count != 0.0
    ensures var d := Direction(i, count); Squared(d.x) + Squared(d.y) + Squared(d.z) == 1.0
  {
    var theta := 2.0 * PI * i / GoldenRatio();
    var phi := Acos(Height(i, count));
    SinCos(theta);
    SinCos(phi);
    Legs(Sin(phi), Cos(theta), Sin(theta));
    var d := Bearing(theta, phi);
    assert d == Direction(i, count);
    assert d.x == Sin(phi) * Cos(theta) && d.z == Sin(phi) * Sin(theta);
  }

  /**
   * Every point populate adds at a counter whose acos argument is in
   * [-1, 1] (i + 1/2 <= radius, see HeightRange) lies at distance 1 from
   * origin. The last pass lies outside that range; see LastHeightOutOfRange.
   */
  lemma LatticeOnUnitSphere(origin: Point3D, radius: int, i: real)
    requires SinCosLaw() && Sqrt(5.0) >= 0.0
    requires radius > 0 && 0.0 <= i && i + 0.5 <= radius as real
    ensures var p := LatticePoint(origin, radius, i);
      Squared(p.x - origin.x) + Squared(p.y - origin.y) + Squared(p.z - origin.z) == 1.0
  {
    DirectionIsUnit(i, radius as real);
    var d := Direction(i, radius as real);
    var p := LatticePoint(origin, radius, i);
    assert p.x - origin.x == d.x && p.y - origin.y == d.y && p.z - origin.z == d.z;
  }

  /** Where the acos argument is in range, the point's height above origin is that argument. */
  lemma LatticeHeight(origin: Point3D, radius: int, i: real)
    requires AcosLaw() && Sqrt(5.0) >= 0.0 && radius > 0 && i >= 0.0 && i + 0.5 <= radius as real
    ensures LatticePoint(origin, radius, i).y - origin.y == Height(i, radius as real)
  {
    HeightRange(i, radius as real);
    CosAcos(Height(i, radius as real));
  }

  /** The point at counter i when the divisor is the number of passes radius + 1. */
  function CorrectedLatticePoint(origin: Point3D, radius: int, i: real): Point3D
    requires Sqrt(5.0) >= 0.0 && radius >= 0
  {
    origin.Add(Direction(i, radius as real + 1.0))
  }

  /**
   * populate with the acos argument divided by radius + 1, the number of
   * passes the loop makes for step 1, instead of radius.
   */
  method PopulateCorrected(origin: Point3D, radius: int, step: real) returns (points: seq<Point3D>)
    requires Sqrt(5.0) >= 0.0
    requires radius < 0 || step > 0.0
    ensures radius < 0 ==> points == []
    ensures radius >= 0 ==> |points| == PassCount(0.0, step, radius as real, true)
    ensures radius >= 0 ==> points == Samples(origin, radius as real + 1.0, step, |points|)
  {
    points := [];
    var goldenRatio := (1.0 + Sqrt(5.0)) / 2.0;
    var i := 0.0;
    while i <= radius as real
      invariant i == Counter(0.0, step, |points|)
      invariant radius < 0 ==> points == []
      invariant radius >= 0 ==> |points| <= PassCount(0.0, step, radius as real, true)
      invariant radius >= 0 ==> points == Samples(origin, radius as real + 1.0, step, |points|)
      decreases if radius < 0 then 0 else PassCount(0.0, step, radius as real, true) - |points|
    {
      PassesExactly(|points|, 0.0, step, radius as real, true);
      var p := PassPoint(origin, i, radius as real + 1.0, goldenRatio);
      points := points + [p];
      i := i + step;
    }
    if radius >= 0 {
      PassesExactly(|points|, 0.0, step, radius as real, true);
    }
  }

  /** With the corrected divisor every pass keeps the acos argument strictly inside (-1, 1). */
  lemma CorrectedHeightInRange(radius: int, i: real)
    requires radius >= 0 && 0.0 <= i <= radius as real
    ensures -1.0 < Height(i, radius as real + 1.0) < 1.0
  {
    var c := radius as real + 1.0;
    var q := 2.0 * (i + 0.5) / c;
    assert q * c == 2.0 * (i + 0.5);
    assert Height(i, c) == 1.0 - q;
    ScaleOrder(q, 2.0, c);
    assert q < 2.0;
    ScaleOrder(0.0, q, c);
    assert q > 0.0;
  }

  /**
   * Every corrected point is a unit direction from origin whose height is
   * the acos argument, so the heights fall evenly from near 1 to near -1.
   */
  lemma CorrectedLatticePoints(origin: Point3D, radius: int, i: real)
    requires SinCosLaw() && AcosLaw() && Sqrt(5.0) >= 0.0 && radius >= 0 && 0.0 <= i <= radius as real
    ensures var p := CorrectedLatticePoint(origin, radius, i);
      Squared(p.x - origin.x) + Squared(p.y - origin.y) + Squared(p.z - origin.z) == 1.0 &&
      p.y - origin.y == Height(i, radius as real + 1.0)
  {
    var c := radius as real + 1.0;
    DirectionIsUnit(i, c);
    CorrectedHeightInRange(radius, i);
    CosAcos(Height(i, c));
    var d := Direction(i, c);
    var p := CorrectedLatticePoint(origin, radius, i);
    assert p.x - origin.x == d.x && p.y - origin.y == d.y && p.z - origin.z == d.z;
  }

  /**
   * Every point the corrected populate adds is a unit direction from origin
   * whose height is its acos argument.
   */
  lemma CorrectedPopulateOnSphere(origin: Point3D, radius: int, step: real, n: nat)
    requires SinCosLaw() && AcosLaw() && Sqrt(5.0) >= 0.0 && radius >= 0 && step > 0.0
    requires n < PassCount(0.0, step, radius as real, true)
    ensures var p := Samples(origin, radius as real + 1.0, step, PassCount(0.0, step, radius as real, true))[n];
      Squared(p.x - origin.x) + Squared(p.y - origin.y) + Squared(p.z - origin.z) == 1.0 &&
      p.y - origin.y == Height(Counter(0.0, step, n), radius as real + 1.0)
  {
    var k := PassCount(0.0, step, radius as real, true);
    SampleAt(origin, radius as real + 1.0, step, k, n);
    PassesExactly(n, 0.0, step, radius as real, true);
    CounterValue(0.0, step, n);
    assert (n as real) * step >= 0.0;
    CorrectedLatticePoints(origin, radius, Counter(0.0, step, n));
  }
}
