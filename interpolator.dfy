/**
 * Interpolator: generators that walk one angle, or two nested angles, from
 * 0 up to a bound (RADIAN_45 ... RADIAN_360) and collect one unit per
 * visited angle.
 *
 * The counters are Java ints and the step a double, so `i += step` stores
 * the narrowing cast (int) (i + step): truncation toward zero, clamped to
 * the int range (sections 5.1.3 and 15.26.2 of the Java Language
 * Specification). Each pass therefore advances by the whole part of the
 * step, every visited angle is a whole number of radians, and a step below
 * 1 never moves the counter past 0, so the loop does not end.
 *
 * No unit class defines equals, so the HashSet keeps every unit it is
 * given; the model returns the units as a sequence in the order they are
 * added.
 */
module Interpolator {
  import opened JavaMath
  import opened Utilities
  import opened Units
  import opened Vectors
  import opened Scalars

  const INT_MIN: int := -0x8000_0000
  const INT_MAX: int := 0x7fff_ffff

  // ---------------------------------------------------------------------
  // The int counter.
  // ---------------------------------------------------------------------

  /** The narrowing cast (int) d: truncation toward zero, clamped to the int range. */
  function IntCast(d: real): (r: int)
    ensures INT_MIN <= r <= INT_MAX
    ensures d >= 0.0 ==> 0 <= r && r as real <= d && (r == INT_MAX || d < (r + 1) as real)
    ensures d <= 0.0 ==> r <= 0 && d <= r as real && (r == INT_MIN || (r - 1) as real < d)
  {
    var t := if d >= 0.0 then d.Floor else -((-d).Floor);
    if t < INT_MIN then INT_MIN else if t > INT_MAX then INT_MAX else t
  }

  /** The counter after `i += step`. */
  function Advance(i: int, step: real): int {
    IntCast(i as real + step)
  }

  /** The loop test `i <= bound`, or `i < bound`, with the int widened to a double. */
  predicate Continues(i: int, bound: real, inclusive: bool) {
    if inclusive then i as real <= bound else i as real < bound
  }

  /** The largest counter value the loop test lets through. */
  function Limit(bound: real, inclusive: bool): int {
    if inclusive || bound.Floor as real != bound then bound.Floor else bound.Floor - 1
  }

  /** An int passes the loop test exactly when it is at most the limit. */
  lemma ContinuesWithinLimit(i: int, bound: real, inclusive: bool)
    ensures Continues(i, bound, inclusive) <==> i <= Limit(bound, inclusive)
  {
  }

  /** With whole-number counters the five bounds admit 0, 1, 3, 4 and 6 radians. */
  lemma EffectiveLimits()
    ensures Limit(RADIAN_45, true) == 0 && Limit(RADIAN_90, true) == 1
    ensures Limit(RADIAN_180, true) == 3 && Limit(PI, true) == 3 && Limit(RADIAN_270, true) == 4
    ensures Limit(RADIAN_360, true) == 6 && Limit(RADIAN_360, false) == 6
  {
  }

  /** From a non-negative counter, a step of at least 0 moves it by the whole part of the step. */
  lemma AdvanceByWholePart(i: int, step: real)
    requires 0 <= i && step >= 0.0 && i + step.Floor <= INT_MAX
    ensures Advance(i, step) == i + step.Floor
  {
    var d := i as real + step;
    assert d.Floor == i + step.Floor;
  }

  /**
   * With a step below 1 a counter at or below 0 stays at or below 0: the
   * test against a positive bound passes before and after the step, so
   * the loop never ends.
   */
  lemma SmallStepNeverExits(i: int, step: real, bound: real, inclusive: bool)
    requires i <= 0 && step < 1.0 && bound > 0.0
    ensures Advance(i, step) <= 0
    ensures Continues(i, bound, inclusive) && Continues(Advance(i, step), bound, inclusive)
  {
  }

  // ---------------------------------------------------------------------
  // The visited angles.
  // ---------------------------------------------------------------------

  /** The counter values visited with whole step k: 0, k, 2k, ... up to limit. */
  function Visits(k: int, limit: int): seq<int>
    requires k >= 1
  {
    if limit < 0 then [] else seq(limit / k + 1, n => n * k)
  }

  /** n k stays within the limit for every n up to limit / k. */
  lemma MultipleWithin(n: int, k: int, limit: int)
    requires k >= 1 && 0 <= limit && 0 <= n <= limit / k
    ensures 0 <= n * k <= limit
  {
    assert (limit / k - n) * k >= 0;
    assert (limit / k) * k <= limit;
  }

  /**
   * The visits are the multiples of k from 0, each within the limit, and
   * the next multiple after the last one is past it.
   */
  lemma VisitsSpan(k: int, limit: int)
    requires k >= 1
    ensures var vs := Visits(k, limit);
      (forall n :: 0 <= n < |vs| ==> vs[n] == n * k && 0 <= vs[n] <= limit) && |vs| * k > limit
    ensures limit >= 0 ==> |Visits(k, limit)| == limit / k + 1
  {
    var vs := Visits(k, limit);
    forall n | 0 <= n < |vs|
      ensures vs[n] == n * k && 0 <= vs[n] <= limit
    {
      MultipleWithin(n, k, limit);
    }
    if limit >= 0 {
      var q := limit / k;
      assert |vs| == q + 1;
      QuotientBounds(limit, k, q);
      assert |vs| * k == q * k + k;
    }
  }

  /** The quotient q = limit / k has q k <= limit < q k + k. */
  lemma QuotientBounds(limit: int, k: int, q: int)
    requires k >= 1 && 0 <= limit && q == limit / k
    ensures q * k <= limit < q * k + k
  {
    var r := limit % k;
    assert limit == k * q + r && 0 <= r < k;
    assert k * q == q * k;
  }

  /** The counter is at the n-th visit while visits remain, and past the limit after the last. */
  predicate OnTrack(i: int, n: int, vs: seq<int>, limit: int) {
    0 <= n <= |vs| && (n < |vs| ==> i == vs[n]) && (n == |vs| ==> i > limit)
  }

  /** One `i += step` moves the counter from the n-th visit to the next, or past the limit. */
  lemma AdvanceOnTrack(i: int, n: int, step: real, limit: int)
    requires step >= 1.0 && limit <= 8
    requires 0 <= n < |Visits(step.Floor, limit)| && i == Visits(step.Floor, limit)[n]
    ensures OnTrack(Advance(i, step), n + 1, Visits(step.Floor, limit), limit)
  {
    var k := step.Floor;
    var vs := Visits(k, limit);
    VisitsSpan(k, limit);
    assert i + k == (n + 1) * k;
    if n + 1 < |vs| {
      assert vs[n + 1] == i + k;
      AdvanceByWholePart(i, step);
    } else if i + k <= INT_MAX {
      AdvanceByWholePart(i, step);
    }
  }

  // ---------------------------------------------------------------------
  // The angle pairs of the nested loops.
  // ---------------------------------------------------------------------

  /** The pairs (i, inner[0]), (i, inner[1]), ... of one pass of the inner loop. */
  function Row(i: int, inner: seq<int>): (ps: seq<(int, int)>)
    ensures |ps| == |inner|
  {
    seq(|inner|, n requires 0 <= n < |inner| => (i, inner[n]))
  }

  /** The pairs the nested loops visit, the outer angle first. */
  function Pairs(outer: seq<int>, inner: seq<int>): (ps: seq<(int, int)>)
    ensures |ps| == |outer| * |inner|
  {
    if outer == [] then [] else Pairs(outer[..|outer| - 1], inner) + Row(outer[|outer| - 1], inner)
  }

  /** The pairs of a loop whose two counters both run through the visits of step k up to limit. */
  function Grid(k: int, limit: int): seq<(int, int)>
    requires k >= 1
  {
    Pairs(Visits(k, limit), Visits(k, limit))
  }

  /** One more inner pass adds one pair. */
  lemma RowGrows(i: int, inner: seq<int>, b: int)
    requires 0 <= b < |inner|
    ensures Row(i, inner[..b + 1]) == Row(i, inner[..b]) + [(i, inner[b])]
  {
  }

  /** One more outer pass adds a whole row. */
  lemma PairsGrow(outer: seq<int>, inner: seq<int>, a: int)
    requires 0 <= a < |outer|
    ensures Pairs(outer[..a + 1], inner) == Pairs(outer[..a], inner) + Row(outer[a], inner)
  {
    assert outer[..a + 1][..a] == outer[..a];
  }

  /** Every pair is made of an outer visit and an inner visit. */
  lemma {:induction false} PairsCover(outer: seq<int>, inner: seq<int>)
    ensures forall n :: 0 <= n < |Pairs(outer, inner)| ==> Pairs(outer, inner)[n].0 in outer && Pairs(outer, inner)[n].1 in inner
  {
    if outer != [] {
      var front := outer[..|outer| - 1];
      PairsCover(front, inner);
      var ps := Pairs(outer, inner);
      forall n | 0 <= n < |ps|
        ensures ps[n].0 in outer && ps[n].1 in inner
      {
        if n < |Pairs(front, inner)| {
          assert ps[n] == Pairs(front, inner)[n];
          assert ps[n].0 in front;
        } else {
          assert ps[n] == Row(outer[|outer| - 1], inner)[n - |Pairs(front, inner)|];
        }
      }
    }
  }

  /** The units the nested loops add: one unit make(i, j) per visited pair, in order. */
  predicate Built<U(==)>(units: seq<U>, make: (int, int) -> U, ps: seq<(int, int)>) {
    |units| == |ps| && forall n :: 0 <= n < |units| ==> units[n] == make(ps[n].0, ps[n].1)
  }

  /** Adding the unit of one more pair keeps the units built. */
  lemma BuiltAppend<U>(units: seq<U>, make: (int, int) -> U, ps: seq<(int, int)>, i: int, j: int)
    requires Built(units, make, ps)
    ensures Built(units + [make(i, j)], make, ps + [(i, j)])
  {
  }

  // ---------------------------------------------------------------------
  // The generic loops.
  // ---------------------------------------------------------------------

  /**
   * The single loop of polarSetNN: one PolarUnit(magnitude, i) per visited
   * i. The step must be at least 1, or the loop never ends.
   */
  method PolarSweep(magnitude: real, step: real, bound: real, inclusive: bool) returns (units: seq<PolarUnit>)
    requires step >= 1.0 && 0.0 <= bound <= 8.0
    ensures PolarBuilt(units, magnitude, Visits(step.Floor, Limit(bound, inclusive)))
  {
    ghost var limit := Limit(bound, inclusive);
    ghost var vs := Visits(step.Floor, limit);
    VisitsSpan(step.Floor, limit);
    units := [];
    var i := 0;
    while Continues(i, bound, inclusive)
      invariant OnTrack(i, |units|, vs, limit)
      invariant PolarBuilt(units, magnitude, vs[..|units|])
      decreases |vs| - |units|
    {
      ContinuesWithinLimit(i, bound, inclusive);
      AdvanceOnTrack(i, |units|, step, limit);
      assert vs[..|units| + 1] == vs[..|units|] + [i];
      units := units + [PolarUnit(magnitude, i as real)];
      i := Advance(i, step);
    }
    ContinuesWithinLimit(i, bound, inclusive);
    assert vs[..|units|] == vs;
  }

  /** The units polarSetNN adds: radius the scalar's magnitude, theta each visited angle. */
  predicate PolarBuilt(units: seq<PolarUnit>, magnitude: real, vs: seq<int>) {
    |units| == |vs| && forall n :: 0 <= n < |units| ==> units[n] == PolarUnit(magnitude, vs[n] as real)
  }

  /**
   * The nested loops of cartesianNN and sphericalUnitNN: for each visited
   * i, for each visited j, the unit make(i, j). Both counters use the same
   * step and bound.
   */
  method GridSweep<U(==)>(make: (int, int) -> U, step: real, bound: real, inclusive: bool) returns (units: seq<U>)
    requires step >= 1.0 && 0.0 <= bound <= 8.0
    ensures Built(units, make, Grid(step.Floor, Limit(bound, inclusive)))
  {
    ghost var limit := Limit(bound, inclusive);
    ghost var vs := Visits(step.Floor, limit);
    VisitsSpan(step.Floor, limit);
    units := [];
    var i := 0;
    ghost var a := 0;
    while Continues(i, bound, inclusive)
      invariant OnTrack(i, a, vs, limit)
      invariant Built(units, make, Pairs(vs[..a], vs))
      decreases |vs| - a
    {
      ContinuesWithinLimit(i, bound, inclusive);
      ghost var done := Pairs(vs[..a], vs);
      var j := 0;
      ghost var b := 0;
      while Continues(j, bound, inclusive)
        invariant OnTrack(j, b, vs, limit)
        invariant Built(units, make, done + Row(i, vs[..b]))
        decreases |vs| - b
      {
        ContinuesWithinLimit(j, bound, inclusive);
        BuiltAppend(units, make, done + Row(i, vs[..b]), i, j);
        RowGrows(i, vs, b);
        assert done + Row(i, vs[..b + 1]) == (done + Row(i, vs[..b])) + [(i, j)];
        units := units + [make(i, j)];
        AdvanceOnTrack(j, b, step, limit);
        j := Advance(j, step);
        b := b + 1;
      }
      ContinuesWithinLimit(j, bound, inclusive);
      assert vs[..b] == vs;
      PairsGrow(vs, vs, a);
      AdvanceOnTrack(i, a, step, limit);
      i := Advance(i, step);
      a := a + 1;
    }
    ContinuesWithinLimit(i, bound, inclusive);
    assert vs[..a] == vs;
  }

  // ---------------------------------------------------------------------
  // The units.
  // ---------------------------------------------------------------------

  /** The unit cartesianNN adds for angles i and j, from a vector of length L. */
  function CartesianAt(length: real, i: int, j: int): CartesianUnit {
    NewCartesianUnit(length * Sin(i as real) * Cos(j as real), length * Cos(i as real),
                     length * Sin(i as real) * Sin(j as real))
  }

  /** The unit sphericalUnitNN adds: the angles land in radius and theta, the magnitude in phi. */
  function SphericalAt(magnitude: real, i: int, j: int): SphericalUnit {
    SphericalUnit(i as real, j as real, magnitude)
  }

  /** Every unit cartesianNN builds lies at distance L from the origin. */
  lemma CartesianOnSphere(length: real, i: int, j: int)
    requires SinCosLaw()
    ensures var p := CartesianAt(length, i, j).point3d;
      Squared(p.x) + Squared(p.y) + Squared(p.z) == Squared(length)
  {
    var si, ci := Sin(i as real), Cos(i as real);
    var sj, cj := Sin(j as real), Cos(j as real);
    SinCos(i as real);
    SinCos(j as real);
    Legs(length * si, cj, sj);
    Legs(length, ci, si);
  }

  /** All the units of a cartesianNN result lie on the sphere of radius L. */
  lemma CartesianUnitsOnSphere(units: seq<CartesianUnit>, length: real, ps: seq<(int, int)>)
    requires SinCosLaw() && Built(units, (i, j) => CartesianAt(length, i, j), ps)
    ensures forall n :: 0 <= n < |units| ==>
      Squared(units[n].point3d.x) + Squared(units[n].point3d.y) + Squared(units[n].point3d.z) == Squared(length)
  {
    forall n | 0 <= n < |units|
      ensures Squared(units[n].point3d.x) + Squared(units[n].point3d.y) + Squared(units[n].point3d.z) == Squared(length)
    {
      CartesianOnSphere(length, ps[n].0, ps[n].1);
    }
  }

  /** Every generator emits floor(B / k) + 1 units per loop, B its effective bound and k the whole step. */
  lemma GeneratorCounts(k: int, limit: int)
    requires k >= 1 && limit >= 0
    ensures |Visits(k, limit)| == limit / k + 1
    ensures |Grid(k, limit)| == (limit / k + 1) * (limit / k + 1)
  {
    VisitsSpan(k, limit);
  }

  /** The 45-degree generators visit the angle 0 alone and so emit exactly one unit. */
  lemma FortyFiveIsOneUnit(k: int, length: real, magnitude: real)
    requires k >= 1 && ZeroAngleLaw()
    ensures Grid(k, 0) == [(0, 0)] && Visits(k, 0) == [0]
    ensures CartesianAt(length, 0, 0) == NewCartesianUnit(0.0, length, 0.0)
    ensures SphericalAt(magnitude, 0, 0) == SphericalUnit(0.0, 0.0, magnitude)
  {
    assert Visits(k, 0) == [0];
    assert Pairs([0], [0]) == Pairs([], [0]) + Row(0, [0]);
  }

  /** polarSetNN's thetas are the visits: whole multiples of k from 0 up to the limit. */
  lemma PolarThetas(units: seq<PolarUnit>, magnitude: real, k: int, limit: int)
    requires k >= 1 && PolarBuilt(units, magnitude, Visits(k, limit))
    ensures forall n :: 0 <= n < |units| ==>
      units[n].radius == magnitude && units[n].theta == (n * k) as real && 0.0 <= units[n].theta <= limit as real
  {
    VisitsSpan(k, limit);
  }

  // ---------------------------------------------------------------------
  // The fifteen generators.
  // ---------------------------------------------------------------------

  /** cartesian45(IVector, double). */
  method Cartesian45(vector: CartesianVector, step: real) returns (units: seq<CartesianUnit>)
    requires step >= 1.0
    ensures Built(units, (i, j) => CartesianAt(vector.length, i, j), Grid(step.Floor, 0))
  {
    EffectiveLimits();
    units := GridSweep((i, j) => CartesianAt(vector.length, i, j), step, RADIAN_45, true);
  }

  /** cartesian90(IVector, double). */
  method Cartesian90(vector: CartesianVector, step: real) returns (units: seq<CartesianUnit>)
    requires step >= 1.0
    ensures Built(units, (i, j) => CartesianAt(vector.length, i, j), Grid(step.Floor, 1))
  {
    EffectiveLimits();
    units := GridSweep((i, j) => CartesianAt(vector.length, i, j), step, RADIAN_90, true);
  }

  /** cartesian180(IVector, double). */
  method Cartesian180(vector: CartesianVector, step: real) returns (units: seq<CartesianUnit>)
    requires step >= 1.0
    ensures Built(units, (i, j) => CartesianAt(vector.length, i, j), Grid(step.Floor, 3))
  {
    EffectiveLimits();
    units := GridSweep((i, j) => CartesianAt(vector.length, i, j), step, RADIAN_180, true);
  }

  /** cartesian270(IVector, double). */
  method Cartesian270(vector: CartesianVector, step: real) returns (units: seq<CartesianUnit>)
    requires step >= 1.0
    ensures Built(units, (i, j) => CartesianAt(vector.length, i, j), Grid(step.Floor, 4))
  {
    EffectiveLimits();
    units := GridSweep((i, j) => CartesianAt(vector.length, i, j), step, RADIAN_270, true);
  }

  /** cartesian360(IVector, double): both loops test i <= RADIAN_360. */
  method Cartesian360(vector: CartesianVector, step: real) returns (units: seq<CartesianUnit>)
    requires step >= 1.0
    ensures Built(units, (i, j) => CartesianAt(vector.length, i, j), Grid(step.Floor, 6))
  {
    EffectiveLimits();
    units := GridSweep((i, j) => CartesianAt(vector.length, i, j), step, RADIAN_360, true);
  }

  /** polarSet45(IScalar, double). */
  method PolarSet45(scalar: Scalar, step: real) returns (units: seq<PolarUnit>)
    requires step >= 1.0
    ensures PolarBuilt(units, scalar.magnitude, Visits(step.Floor, 0))
  {
    EffectiveLimits();
    units := PolarSweep(scalar.magnitude, step, RADIAN_45, true);
  }

  /** polarSet90(IScalar, double). */
  method PolarSet90(scalar: Scalar, step: real) returns (units: seq<PolarUnit>)
    requires step >= 1.0
    ensures PolarBuilt(units, scalar.magnitude, Visits(step.Floor, 1))
  {
    EffectiveLimits();
    units := PolarSweep(scalar.magnitude, step, RADIAN_90, true);
  }

  /** polarSet180(IScalar, double). */
  method PolarSet180(scalar: Scalar, step: real) returns (units: seq<PolarUnit>)
    requires step >= 1.0
    ensures PolarBuilt(units, scalar.magnitude, Visits(step.Floor, 3))
  {
    EffectiveLimits();
    units := PolarSweep(scalar.magnitude, step, RADIAN_180, true);
  }

  /** polarSet270(IScalar, double). */
  method PolarSet270(scalar: Scalar, step: real) returns (units: seq<PolarUnit>)
    requires step >= 1.0
    ensures PolarBuilt(units, scalar.magnitude, Visits(step.Floor, 4))
  {
    EffectiveLimits();
    units := PolarSweep(scalar.magnitude, step, RADIAN_270, true);
  }

  /** polarSet360(IScalar, double): the loop tests i < RADIAN_360. */
  method PolarSet360(scalar: Scalar, step: real) returns (units: seq<PolarUnit>)
    requires step >= 1.0
    ensures PolarBuilt(units, scalar.magnitude, Visits(step.Floor, 6))
  {
    EffectiveLimits();
    units := PolarSweep(scalar.magnitude, step, RADIAN_360, false);
  }

  /** sphericalUnit45(IScalar, double). */
  method SphericalUnit45(scalar: Scalar, step: real) returns (units: seq<SphericalUnit>)
    requires step >= 1.0
    ensures Built(units, (i, j) => SphericalAt(scalar.magnitude, i, j), Grid(step.Floor, 0))
  {
    EffectiveLimits();
    units := GridSweep((i, j) => SphericalAt(scalar.magnitude, i, j), step, RADIAN_45, true);
  }

  /** sphericalUnit90(IScalar, double). */
  method SphericalUnit90(scalar: Scalar, step: real) returns (units: seq<SphericalUnit>)
    requires step >= 1.0
    ensures Built(units, (i, j) => SphericalAt(scalar.magnitude, i, j), Grid(step.Floor, 1))
  {
    EffectiveLimits();
    units := GridSweep((i, j) => SphericalAt(scalar.magnitude, i, j), step, RADIAN_90, true);
  }

  /** sphericalUnit180(IScalar, double): the inner loop tests j <= Math.PI, the same value as RADIAN_180. */
  method SphericalUnit180(scalar: Scalar, step: real) returns (units: seq<SphericalUnit>)
    requires step >= 1.0
    ensures Built(units, (i, j) => SphericalAt(scalar.magnitude, i, j), Grid(step.Floor, 3))
  {
    EffectiveLimits();
    units := GridSweep((i, j) => SphericalAt(scalar.magnitude, i, j), step, RADIAN_180, true);
  }

  /** sphericalUnit270(IScalar, double). */
  method SphericalUnit270(scalar: Scalar, step: real) returns (units: seq<SphericalUnit>)
    requires step >= 1.0
    ensures Built(units, (i, j) => SphericalAt(scalar.magnitude, i, j), Grid(step.Floor, 4))
  {
    EffectiveLimits();
    units := GridSweep((i, j) => SphericalAt(scalar.magnitude, i, j), step, RADIAN_270, true);
  }

  /** sphericalUnit360(IScalar, double): both loops test i < RADIAN_360. */
  method SphericalUnit360(scalar: Scalar, step: real) returns (units: seq<SphericalUnit>)
    requires step >= 1.0
    ensures Built(units, (i, j) => SphericalAt(scalar.magnitude, i, j), Grid(step.Floor, 6))
  {
    EffectiveLimits();
    units := GridSweep((i, j) => SphericalAt(scalar.magnitude, i, j), step, RADIAN_360, false);
  }
}
