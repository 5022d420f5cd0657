/**
 * A double loop counter `for (double i = start; i <= bound; i += step)`,
 * or with `i < bound`, as used by FibonacciLattice and ArchimedeanSpiral.
 * Doubles are exact reals here, so the counter on pass n is exactly
 * start + n step.
 */
module DoubleCounters {

  /** The loop test on the counter value x. */
  predicate Passes(x: real, bound: real, inclusive: bool) {
    if inclusive then x <= bound else x < bound
  }

  /** The counter's value after n increments, added one step at a time as the loop does. */
  function Counter(start: real, step: real, n: nat): real {
    if n == 0 then start else Counter(start, step, n - 1) + step
  }

  /** After n increments the counter is start + n step. */
  lemma {:induction false} CounterValue(start: real, step: real, n: nat)
    ensures Counter(start, step, n) == start + (n as real) * step
  {
    if n > 0 {
      CounterValue(start, step, n - 1);
      assert (n as real) * step == ((n - 1) as real) * step + step;
    }
  }

  /** How many passes the loop makes with a positive step. */
  function PassCount(start: real, step: real, bound: real, inclusive: bool): nat
    requires step > 0.0
  {
    if !Passes(start, bound, inclusive) then 0
    else
      var q := (bound - start) / step;
      if inclusive || q.Floor as real != q then q.Floor + 1 else q.Floor
  }

  /** Multiplying by a positive factor keeps the order, strict or not. */
  lemma ScaleOrder(a: real, b: real, s: real)
    requires s > 0.0
    ensures a * s <= b * s <==> a <= b
    ensures a * s < b * s <==> a < b
  {
    if a <= b {
      assert (b - a) * s >= 0.0;
    } else {
      assert (a - b) * s > 0.0;
    }
  }

  /**
   * Pass n (counting from 0) takes place exactly when n is below the pass
   * count: the loop runs PassCount times and then stops.
   */
  lemma PassesExactly(n: nat, start: real, step: real, bound: real, inclusive: bool)
    requires step > 0.0
    ensures Passes(Counter(start, step, n), bound, inclusive) <==> n < PassCount(start, step, bound, inclusive)
  {
    CounterValue(start, step, n);
    PassesAt(n, start, step, bound, inclusive);
  }

  /** PassesExactly with the counter written as start + n step. */
  lemma PassesAt(n: nat, start: real, step: real, bound: real, inclusive: bool)
    requires step > 0.0
    ensures Passes(start + (n as real) * step, bound, inclusive) <==> n < PassCount(start, step, bound, inclusive)
  {
    var q := (bound - start) / step;
    var f := q.Floor;
    assert q * step == bound - start;
    ScaleOrder(n as real, q, step);
    // the counter passes exactly when n <= q (inclusive) or n < q
    var x := start + (n as real) * step;
    assert x <= bound <==> (n as real) * step <= q * step;
    assert x < bound <==> (n as real) * step < q * step;
    assert Passes(x, bound, inclusive) <==> (if inclusive then n as real <= q else n as real < q);
    if !Passes(start, bound, inclusive) {
      ScaleOrder(0.0, q, step);
      assert !(if inclusive then 0.0 <= q else 0.0 < q);
    } else if inclusive {
      assert n as real <= q <==> n <= f;
    } else if f as real != q {
      assert n as real < q <==> n <= f;
    } else {
      assert n as real < q <==> n < f;
    }
  }
}
