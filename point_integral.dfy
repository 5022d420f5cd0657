/**
 * Point.integ: the Converter Point's trapezoid integral from its own value
 * to another value or another Point, by the 1-D integrate.
 */
module PointIntegrals {
  import opened Spatial
  import opened Integrals

  /** integ(double point, subIntervals, f): integrate from this point's value to point. */
  method Integ(pt: Point, point: real, subIntervals: real, f: real -> real) returns (r: real)
    requires subIntervals != 0.0
    ensures r == TrapezoidRule(f, pt.get, point, subIntervals)
  {
    r := Integrate(pt.get, point, subIntervals, f);
  }

  /** integ(Point point, subIntervals, f): the same, up to the other point's value. */
  method IntegTo(pt: Point, point: Point, subIntervals: real, f: real -> real) returns (r: real)
    requires subIntervals != 0.0
    ensures r == TrapezoidRule(f, pt.get, point.get, subIntervals)
  {
    r := Integ(pt, point.get, subIntervals, f);
  }

  /** Walking back from a + n dx by -dx meets the grid lines of a in reverse: line m is line n - m. */
  lemma MirrorNode(a: real, dx: real, n: nat, m: nat)
    requires m <= n
    ensures Node(a + (n as real) * dx, m as real, -dx) == Node(a, (n - m) as real, dx)
  {
    assert ((n - m) as real) * dx == (n as real) * dx - (m as real) * dx;
  }

  /**
   * The first m interior samples taken backwards from a + n dx are the
   * last m of the n - 1 interior samples taken forwards from a.
   */
  lemma {:induction false} ReflectedSum(f: real -> real, a: real, dx: real, n: nat, m: nat)
    requires m < n
    ensures InteriorSum(f, a + (n as real) * dx, -dx, m)
      == InteriorSum(f, a, dx, n - 1) - InteriorSum(f, a, dx, n - 1 - m)
  {
    if m > 0 {
      ReflectedSum(f, a, dx, n, m - 1);
      MirrorNode(a, dx, n, m);
    }
  }

  /**
   * For a whole number of subintervals, integrating from b back to a gives
   * the negated integral from a to b: the samples are the same, the step
   * changes sign.
   */
  lemma IntegReverses(f: real -> real, a: real, b: real, n: nat)
    requires n >= 1
    ensures TrapezoidRule(f, b, a, n as real) == -TrapezoidRule(f, a, b, n as real)
  {
    var nr := n as real;
    var dx := (b - a) / nr;
    assert InteriorCount(nr) == n - 1;
    SpacingReverses(a, b, nr);
    var s := InteriorSum(f, a, dx, n - 1);
    ReflectedWhole(f, a, b, dx, n);
    var e := 0.5 * (f(a) + f(b)) + s;
    TrapezoidForm(f, b, a, nr, -dx, s);
    TrapezoidForm(f, a, b, nr, dx, s);
    assert -dx * e == -(dx * e);
  }

  /** All n - 1 interior samples walked back from b = a + n dx are those walked forward from a. */
  lemma ReflectedWhole(f: real -> real, a: real, b: real, dx: real, n: nat)
    requires n >= 1 && b == a + (n as real) * dx
    ensures InteriorSum(f, b, -dx, n - 1) == InteriorSum(f, a, dx, n - 1)
  {
    ReflectedSum(f, a, dx, n, n - 1);
    assert InteriorSum(f, a, dx, n - 1 - (n - 1)) == 0.0;
  }

  /** n steps of (b - a) / n lead from a to b, and the steps from b back to a are their negation. */
  lemma SpacingReverses(a: real, b: real, n: real)
    requires n > 0.0
    ensures b == a + n * ((b - a) / n)
    ensures (a - b) / n == -((b - a) / n)
  {
  }

  /** The trapezoid rule with its step and its interior sum named. */
  lemma TrapezoidForm(f: real -> real, lower: real, upper: real, n: real, dx: real, s: real)
    requires n != 0.0 && dx == (upper - lower) / n
    requires s == InteriorSum(f, lower, dx, InteriorCount(n))
    ensures TrapezoidRule(f, lower, upper, n) == dx * (0.5 * (f(lower) + f(upper)) + s)
  {
  }

  /** Integrating from a point to itself gives 0. */
  lemma IntegToSelf(pt: Point, n: real, f: real -> real)
    requires n != 0.0
    ensures TrapezoidRule(f, pt.get, pt.get, n) == 0.0
  {
    EmptyInterval(f, pt.get, n);
  }
}
