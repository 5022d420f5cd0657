/**
 * ArchimedeanSpiral: the constructor fixes the radius once from the final
 * angle, and getPoints walks a double angle counter from origin up to (and
 * not including) the zenith of theta, adding one offset point per pass
 * after the start point. The result is an insertion-ordered set of points
 * that define no equality, so it is a sequence here. The Theta supplier is
 * its zenith value.
 */
module ArchimedeanSpirals {
  import opened JavaMath
  import opened Spatial
  import opened DoubleCounters

  datatype ArchimedeanSpiral = ArchimedeanSpiral(origin: real, step: real, radius: real, zenith: real) {

    /** The point getPoints adds at angle a: start + (radius cos a, radius sin a). */
    function PointAt(start: Point2D, a: real): Point2D {
      FromDouble2(radius * Cos(a) + start.x, radius * Sin(a) + start.z)
    }

    /** How many angles the loop visits: none when origin is not below the zenith. */
    function AngleCount(): nat
      requires step > 0.0 || origin >= zenith
    {
      if origin >= zenith then 0 else PassCount(origin, step, zenith, false)
    }

    /** start followed by the points at the first k angles origin, origin + step, ... */
    function Drawn(start: Point2D, k: nat): (ps: seq<Point2D>)
      ensures |ps| == k + 1 && ps[0] == start
    {
      if k == 0 then [start] else Drawn(start, k - 1) + [PointAt(start, Counter(origin, step, k - 1))]
    }

    /**
     * getPoints(start). A non-positive step with origin below the zenith
     * never ends, so it is excluded.
     */
    method GetPoints(start: Point2D) returns (points: seq<Point2D>)
      requires step > 0.0 || origin >= zenith
      ensures |points| == AngleCount() + 1
      ensures points == Drawn(start, AngleCount())
    {
      points := [start];
      var i := origin;
      while i < zenith
        invariant i == Counter(origin, step, |points| - 1)
        invariant 1 <= |points|
        invariant |points| <= AngleCount() + 1
        invariant points == Drawn(start, |points| - 1)
        decreases AngleCount() + 1 - |points|
      {
        PassesExactly(|points| - 1, origin, step, zenith, false);
        assert |points| - 1 < AngleCount();
        var x := radius * Cos(i);
        var z := radius * Sin(i);
        var added := FromDouble2(x + start.x, z + start.z);
        assert added == PointAt(start, i);
        assert Drawn(start, |points|) == Drawn(start, |points| - 1) + [PointAt(start, Counter(origin, step, |points| - 1))];
        points := points + [added];
        i := i + step;
      }
      if origin < zenith {
        PassesExactly(|points| - 1, origin, step, zenith, false);
      }
    }

    /** The radius of an Archimedean spiral at angle a: origin + step a. */
    function RadiusAt(a: real): real {
      origin + step * a
    }

    /** The point the corrected getPoints adds at angle a, at the spiral's radius for a. */
    function SpiralPointAt(start: Point2D, a: real): Point2D {
      FromDouble2(RadiusAt(a) * Cos(a) + start.x, RadiusAt(a) * Sin(a) + start.z)
    }

    /** start followed by the corrected points at the first k angles. */
    function SpiralDrawn(start: Point2D, k: nat): (ps: seq<Point2D>)
      ensures |ps| == k + 1 && ps[0] == start
    {
      if k == 0 then [start] else SpiralDrawn(start, k - 1) + [SpiralPointAt(start, Counter(origin, step, k - 1))]
    }

    /** getPoints with the radius recomputed from each angle, as an Archimedean spiral has it. */
    method GetSpiralPoints(start: Point2D) returns (points: seq<Point2D>)
      requires step > 0.0 || origin >= zenith
      ensures |points| == AngleCount() + 1
      ensures points == SpiralDrawn(start, AngleCount())
    {
      points := [start];
      var i := origin;
      while i < zenith
        invariant i == Counter(origin, step, |points| - 1)
        invariant 1 <= |points|
        invariant |points| <= AngleCount() + 1
        invariant points == SpiralDrawn(start, |points| - 1)
        decreases AngleCount() + 1 - |points|
      {
        PassesExactly(|points| - 1, origin, step, zenith, false);
        assert |points| - 1 < AngleCount();
        var r := RadiusAt(i);
        var x := r * Cos(i);
        var z := r * Sin(i);
        var added := FromDouble2(x + start.x, z + start.z);
        assert added == SpiralPointAt(start, i);
        assert SpiralDrawn(start, |points|) == SpiralDrawn(start, |points| - 1) + [SpiralPointAt(start, Counter(origin, step, |points| - 1))];
        points := points + [added];
        i := i + step;
      }
      if origin < zenith {
        PassesExactly(|points| - 1, origin, step, zenith, false);
      }
    }
  }

  /** The constructor: the radius is origin + step * zenith, fixed for every point. */
  function NewArchimedeanSpiral(origin: real, step: real, zenith: real): (s: ArchimedeanSpiral)
    ensures s.origin == origin && s.step == step && s.zenith == zenith
    ensures s.radius - s.origin == step * zenith
  {
    ArchimedeanSpiral(origin, step, origin + step * zenith, zenith)
  }

  /** Point n of getPoints (after the start) is drawn at the n-th angle origin + n step. */
  lemma {:induction false} DrawnAt(s: ArchimedeanSpiral, start: Point2D, k: nat, n: nat)
    requires n < k
    ensures s.Drawn(start, k)[n + 1] == s.PointAt(start, Counter(s.origin, s.step, n))
  {
    if n < k - 1 {
      DrawnAt(s, start, k - 1, n);
    }
  }

  /** Every angle getPoints visits is at least origin and below the zenith. */
  lemma AnglesInRange(s: ArchimedeanSpiral, n: nat)
    requires s.step > 0.0 && n < s.AngleCount()
    ensures s.origin <= Counter(s.origin, s.step, n) < s.zenith
  {
    PassesExactly(n, s.origin, s.step, s.zenith, false);
    CounterValue(s.origin, s.step, n);
    assert (n as real) * s.step >= 0.0;
  }

  /** The squared distance between a point and start. */
  function SquaredOffset(p: Point2D, start: Point2D): real {
    Squared(p.x - start.x) + Squared(p.z - start.z)
  }

  /**
   * As written, every point after start lies at distance |radius| from it,
   * whatever its angle: the points trace a circle, not a spiral.
   */
  lemma PointsOnCircle(s: ArchimedeanSpiral, start: Point2D, a: real)
    requires SinCosLaw()
    ensures SquaredOffset(s.PointAt(start, a), start) == Squared(s.radius)
  {
    SinCos(a);
    Legs(s.radius, Cos(a), Sin(a));
    var p := s.PointAt(start, a);
    assert p.x - start.x == s.radius * Cos(a) && p.z - start.z == s.radius * Sin(a);
  }

  /** Hence any two points getPoints adds after start are equally far from it. */
  lemma NoOutwardGrowth(s: ArchimedeanSpiral, start: Point2D, k: nat, m: nat, n: nat)
    requires SinCosLaw() && m < k && n < k
    ensures SquaredOffset(s.Drawn(start, k)[m + 1], start) == SquaredOffset(s.Drawn(start, k)[n + 1], start)
  {
    DrawnAt(s, start, k, m);
    DrawnAt(s, start, k, n);
    PointsOnCircle(s, start, Counter(s.origin, s.step, m));
    PointsOnCircle(s, start, Counter(s.origin, s.step, n));
  }

  /** Corrected: the point at angle a lies at distance |origin + step a| from start. */
  lemma SpiralRadius(s: ArchimedeanSpiral, start: Point2D, a: real)
    requires SinCosLaw()
    ensures SquaredOffset(s.SpiralPointAt(start, a), start) == Squared(s.RadiusAt(a))
  {
    var r := s.RadiusAt(a);
    SinCos(a);
    Legs(r, Cos(a), Sin(a));
    var p := s.SpiralPointAt(start, a);
    assert p.x - start.x == r * Cos(a) && p.z - start.z == r * Sin(a);
  }

  /** Point n of the corrected getPoints (after the start) is drawn at the n-th angle. */
  lemma {:induction false} SpiralDrawnAt(s: ArchimedeanSpiral, start: Point2D, k: nat, n: nat)
    requires n < k
    ensures s.SpiralDrawn(start, k)[n + 1] == s.SpiralPointAt(start, Counter(s.origin, s.step, n))
  {
    if n < k - 1 {
      SpiralDrawnAt(s, start, k - 1, n);
    }
  }

  /**
   * Corrected: with a positive step and a non-negative starting radius,
   * each point the corrected getPoints adds lies strictly farther from
   * start than the one before.
   */
  lemma SpiralMovesOutward(s: ArchimedeanSpiral, start: Point2D, k: nat, n: nat)
    requires SinCosLaw() && s.step > 0.0 && s.RadiusAt(s.origin) >= 0.0 && n + 1 < k
    ensures SquaredOffset(s.SpiralDrawn(start, k)[n + 1], start) < SquaredOffset(s.SpiralDrawn(start, k)[n + 2], start)
  {
    var a := Counter(s.origin, s.step, n);
    var b := Counter(s.origin, s.step, n + 1);
    SpiralDrawnAt(s, start, k, n);
    SpiralDrawnAt(s, start, k, n + 1);
    SpiralRadius(s, start, a);
    SpiralRadius(s, start, b);
    CounterFromOrigin(s.origin, s.step, n);
    GrowingSquare(s, a, b);
  }

  /** With a positive step the counter never falls below its start, and each increment adds step. */
  lemma CounterFromOrigin(start: real, step: real, n: nat)
    requires step > 0.0
    ensures Counter(start, step, n) >= start
    ensures Counter(start, step, n + 1) == Counter(start, step, n) + step
  {
    CounterValue(start, step, n);
    assert (n as real) * step >= 0.0;
  }

  /** The spiral's radius is non-negative at a >= origin and grows strictly from a to b = a + step. */
  lemma GrowingSquare(s: ArchimedeanSpiral, a: real, b: real)
    requires s.step > 0.0 && s.RadiusAt(s.origin) >= 0.0 && a >= s.origin && b == a + s.step
    ensures Squared(s.RadiusAt(a)) < Squared(s.RadiusAt(b))
  {
    var u, v, d := s.RadiusAt(a), s.RadiusAt(b), s.step * s.step;
    RadiusSteps(s.origin, s.step, a, b, u, v, d);
    SquareGrows(u, d);
  }

  /**
   * With radius o + st t at angle t: from a non-negative radius at o, the
   * radius u at a >= o is non-negative, and one step on it grows by st^2.
   */
  lemma RadiusSteps(o: real, st: real, a: real, b: real, u: real, v: real, d: real)
    requires st > 0.0 && o + st * o >= 0.0 && a >= o && b == a + st
    requires u == o + st * a && v == o + st * b && d == st * st
    ensures u >= 0.0 && d > 0.0 && v == u + d
  {
    ProductPositive(st, st);
    calc {
      d;
    ==
      st * st;
    >
      0.0;
    }
    ScaleOrder(o, a, st);
    assert st * o <= st * a;
    calc {
      v;
    ==
      o + st * (a + st);
    ==
      o + st * a + st * st;
    ==
      u + d;
    }
  }


  /** Adding a positive amount to a non-negative number makes its square strictly larger. */
  lemma SquareGrows(u: real, d: real)
    requires u >= 0.0 && d > 0.0
    ensures Squared(u) < Squared(u + d)
  {
    var e := d * (2.0 * u + d);
    ProductPositive(d, 2.0 * u + d);
    assert (u + d) * (u + d) == u * u + e;
    assert Squared(u + d) == Squared(u) + e;
  }
}
