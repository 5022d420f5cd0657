/**
 * Integral: the trapezoid rule in one dimension and its product form over
 * a box in three. The integrand is a parameter; the double loop counters
 * are exact reals here.
 */
module Integrals {
  import opened Spatial
  import opened GridSums

  // ---------------------------------------------------------------------
  // One dimension.
  // ---------------------------------------------------------------------

  /**
   * How many interior samples the 1-D loop takes: the integers i with
   * 1 <= i < n.
   */
  function InteriorCount(n: real): (c: nat)
    ensures c == 0 || (c as real) < n
    ensures (c + 1) as real >= n
  {
    if n <= 1.0 then 0
    else if n.Floor as real == n then n.Floor - 1
    else n.Floor
  }

  /** The i-th grid line on an axis that starts at start with spacing step. */
  function Node(start: real, i: real, step: real): real {
    start + i * step
  }

  /** f(lower + i dx) summed over i = 1 .. count. */
  function InteriorSum(f: real -> real, lower: real, dx: real, count: nat): real {
    if count == 0 then 0.0
    else InteriorSum(f, lower, dx, count - 1) + f(Node(lower, count as real, dx))
  }

  /** One more interior sample, at index i = count, adds f(lower + i dx). */
  lemma InteriorStep(f: real -> real, lower: real, dx: real, count: nat, i: real, s: real)
    requires count >= 1 && i == count as real && s == lower + i * dx
    ensures InteriorSum(f, lower, dx, count) == InteriorSum(f, lower, dx, count - 1) + f(s)
  {
    assert s == Node(lower, count as real, dx);
  }

  /**
   * The value integrate(lower, upper, n, f) returns:
   * dx (f(lower) / 2 + f(upper) / 2 + the interior samples), dx = (upper - lower) / n.
   */
  function TrapezoidRule(f: real -> real, lower: real, upper: real, n: real): real
    requires n != 0.0
  {
    var dx := (upper - lower) / n;
    dx * (0.5 * (f(lower) + f(upper)) + InteriorSum(f, lower, dx, InteriorCount(n)))
  }

  /**
   * integrate(double lower, double upper, double subIntervals, f). The
   * code divides by subIntervals, so it must be non-zero.
   */
  method Integrate(lower: real, upper: real, subIntervals: real, f: real -> real) returns (r: real)
    requires subIntervals != 0.0
    ensures r == TrapezoidRule(f, lower, upper, subIntervals)
  {
    var dx := (upper - lower) / subIntervals;
    var sum := 0.5 * (f(lower) + f(upper));
    var i := 1.0;
    ghost var taken: nat := 0;
    while i < subIntervals
      invariant i == (taken + 1) as real
      invariant taken <= InteriorCount(subIntervals)
      invariant sum == 0.5 * (f(lower) + f(upper)) + InteriorSum(f, lower, dx, taken)
      decreases InteriorCount(subIntervals) - taken
    {
      var s := lower + i * dx;
      InteriorStep(f, lower, dx, taken + 1, i, s);
      sum := sum + f(s);
      taken := taken + 1;
      i := i + 1.0;
    }
    r := dx * sum;
  }

  /** An empty interval integrates to 0. */
  lemma EmptyInterval(f: real -> real, lower: real, n: real)
    requires n != 0.0
    ensures TrapezoidRule(f, lower, lower, n) == 0.0
  {
  }

  /** The interior samples of a constant c add up to count c. */
  lemma {:induction false} ConstantInteriorSum(f: real -> real, c: real, lower: real, dx: real, count: nat)
    requires forall x :: f(x) == c
    ensures InteriorSum(f, lower, dx, count) == (count as real) * c
  {
    if count > 0 {
      ConstantInteriorSum(f, c, lower, dx, count - 1);
    }
  }

  /** For a whole number n >= 1 of subintervals a constant c integrates to c (upper - lower). */
  lemma ConstantIntegral(f: real -> real, c: real, lower: real, upper: real, n: nat)
    requires n >= 1 && forall x :: f(x) == c
    ensures TrapezoidRule(f, lower, upper, n as real) == c * (upper - lower)
  {
    assert InteriorCount(n as real) == n - 1;
    ConstantInteriorSum(f, c, lower, (upper - lower) / (n as real), n - 1);
    var dx := (upper - lower) / (n as real);
    assert TrapezoidRule(f, lower, upper, n as real) == dx * ((n as real) * c);
    assert dx * (n as real) == upper - lower;
  }

  // ---------------------------------------------------------------------
  // Three dimensions.
  // ---------------------------------------------------------------------

  /** The box corner, the step on each axis and the subinterval count. */
  datatype Grid = Grid(x1: real, y1: real, z1: real, dx: real, dy: real, dz: real, n: real)

  /** The grid integrate(origin, destination, n, f) walks. */
  function GridOf(origin: Point3D, destination: Point3D, n: real): (g: Grid)
    requires n != 0.0
    ensures g.dx * n == destination.x - origin.x
    ensures g.dy * n == destination.y - origin.y
    ensures g.dz * n == destination.z - origin.z
  {
    Grid(origin.x, origin.y, origin.z,
         (destination.x - origin.x) / n, (destination.y - origin.y) / n, (destination.z - origin.z) / n, n)
  }

  /** 1/2 at either end of an axis, 1 inside. */
  function EdgeFactor(i: real, n: real): real {
    if i == 0.0 || i == n then 0.5 else 1.0
  }

  /** The end factor as a function of the index. */
  function Edge(n: real): real -> real {
    i => EdgeFactor(i, n)
  }

  /** The weight of a grid point: 1, halved once for each index at an end of its axis. */
  function Weight(i: real, j: real, k: real, n: real): (w: real)
    ensures w == EdgeFactor(i, n) * EdgeFactor(j, n) * EdgeFactor(k, n)
  {
    var wi := if i == 0.0 || i == n then 1.0 * 0.5 else 1.0;
    var wj := if j == 0.0 || j == n then wi * 0.5 else wi;
    if k == 0.0 || k == n then wj * 0.5 else wj
  }

  /** The weighted sample at grid point (i, j, k). */
  function Term(g: Grid, f: (real, real, real) -> real, i: real, j: real, k: real): real {
    Weight(i, j, k, g.n) * f(Node(g.x1, i, g.dx), Node(g.y1, j, g.dy), Node(g.z1, k, g.dz))
  }

  /** Term as a function of the three indices. */
  function Sample(g: Grid, f: (real, real, real) -> real): (real, real, real) -> real {
    (i, j, k) => Term(g, f, i, j, k)
  }

  /**
   * The value the 3-D integrate returns: the weighted sum over the
   * LineCount(n)^3 grid points times dx dy dz.
   */
  function BoxRule(f: (real, real, real) -> real, origin: Point3D, destination: Point3D, n: real): real
    requires n != 0.0
  {
    var g := GridOf(origin, destination, n);
    CubeSum(Sample(g, f), LineCount(n), LineCount(n)) * (g.dx * g.dy * g.dz)
  }

  /** A coordinate computed as start + i step is grid line i. */
  lemma NodeAt(start: real, i: real, step: real, x: real)
    requires x == start + i * step
    ensures x == Node(start, i, step)
  {
  }

  /** The method's weighted sample at (x, y, z) is the grid's term at (i, j, k). */
  lemma SampleAt(g: Grid, f: (real, real, real) -> real, i: real, j: real, k: real, x: real, y: real, z: real, weight: real)
    requires x == g.x1 + i * g.dx && y == g.y1 + j * g.dy && z == g.z1 + k * g.dz
    requires weight == Weight(i, j, k, g.n)
    ensures weight * f(x, y, z) == Sample(g, f)(i, j, k)
  {
    NodeAt(g.x1, i, g.dx, x);
    NodeAt(g.y1, j, g.dy, y);
    NodeAt(g.z1, k, g.dz, z);
    assert Sample(g, f)(i, j, k) == Term(g, f, i, j, k);
  }

  /** One more step along a row, a plane or the cube. */
  lemma RowNext(t: (real, real, real) -> real, i: real, j: real, c: nat, k: real)
    requires k == c as real
    ensures RowSum(t, i, j, c + 1) == RowSum(t, i, j, c) + t(i, j, k)
  {
  }

  lemma PlaneNext(t: (real, real, real) -> real, i: real, size: nat, b: nat, j: real)
    requires j == b as real
    ensures PlaneSum(t, i, size, b + 1) == PlaneSum(t, i, size, b) + RowSum(t, i, j, size)
  {
  }

  lemma CubeNext(t: (real, real, real) -> real, size: nat, a: nat, i: real)
    requires i == a as real
    ensures CubeSum(t, size, a + 1) == CubeSum(t, size, a) + PlaneSum(t, i, size, size)
  {
  }

  /** A counter c <= LineCount(n) that has passed n has made all LineCount(n) passes. */
  lemma LoopExit(n: real, c: nat)
    requires c <= LineCount(n) && c as real > n
    ensures c == LineCount(n)
  {
  }

  /**
   * The innermost loop of the 3-D integrate: for the fixed x and y of
   * grid lines i and j, k runs 0, 1, ... while at most n and each weighted
   * sample is added.
   */
  method RowIntegral(g: Grid, f: (real, real, real) -> real, i: real, j: real, x: real, y: real)
    returns (sum: real)
    requires x == g.x1 + i * g.dx && y == g.y1 + j * g.dy
    ensures sum == RowSum(Sample(g, f), i, j, LineCount(g.n))
  {
    ghost var t := Sample(g, f);
    ghost var count := LineCount(g.n);
    sum := 0.0;
    var k := 0.0;
    ghost var c: nat := 0;
    while k <= g.n
      invariant k == c as real && c <= count
      invariant sum == RowSum(t, i, j, c)
      decreases count - c
    {
      var term := WeightedSample(g, f, i, j, k, x, y);
      RowNext(t, i, j, c, k);
      sum := sum + term;
      k := k + 1.0;
      c := c + 1;
    }
    LoopExit(g.n, c);
  }

  /** One pass of the innermost loop: z for grid line k, the weight of (i, j, k), and the weighted sample. */
  method WeightedSample(g: Grid, f: (real, real, real) -> real, i: real, j: real, k: real, x: real, y: real)
    returns (term: real)
    requires x == g.x1 + i * g.dx && y == g.y1 + j * g.dy
    ensures term == Sample(g, f)(i, j, k)
  {
    var z := g.z1 + k * g.dz;
    var weight := Weight(i, j, k, g.n);
    SampleAt(g, f, i, j, k, x, y, z, weight);
    term := weight * f(x, y, z);
  }

  /** The middle loop: j runs over the grid lines for the fixed x of line i. */
  method PlaneIntegral(g: Grid, f: (real, real, real) -> real, i: real, x: real)
    returns (sum: real)
    requires x == g.x1 + i * g.dx
    ensures sum == PlaneSum(Sample(g, f), i, LineCount(g.n), LineCount(g.n))
  {
    ghost var t := Sample(g, f);
    ghost var count := LineCount(g.n);
    sum := 0.0;
    var j := 0.0;
    ghost var b: nat := 0;
    while j <= g.n
      invariant j == b as real && b <= count
      invariant sum == PlaneSum(t, i, count, b)
      decreases count - b
    {
      var y := g.y1 + j * g.dy;
      var row := RowIntegral(g, f, i, j, x, y);
      PlaneNext(t, i, count, b, j);
      sum := sum + row;
      j := j + 1.0;
      b := b + 1;
    }
    LoopExit(g.n, b);
  }

  /**
   * integrate(IPoint3D origin, IPoint3D destination, double subIntervals, f):
   * three nested counters run 0, 1, ... while at most subIntervals; the
   * weighted sum is scaled by dx dy dz.
   */
  method Integrate3(origin: Point3D, destination: Point3D, subIntervals: real, f: (real, real, real) -> real)
    returns (r: real)
    requires subIntervals != 0.0
    ensures r == BoxRule(f, origin, destination, subIntervals)
  {
    var g := GridOf(origin, destination, subIntervals);
    ghost var t := Sample(g, f);
    ghost var count := LineCount(subIntervals);
    var integral := 0.0;
    var i := 0.0;
    ghost var a: nat := 0;
    while i <= subIntervals
      invariant i == a as real && a <= count
      invariant integral == CubeSum(t, count, a)
      decreases count - a
    {
      var x := g.x1 + i * g.dx;
      var plane := PlaneIntegral(g, f, i, x);
      CubeNext(t, count, a, i);
      integral := integral + plane;
      i := i + 1.0;
      a := a + 1;
    }
    LoopExit(subIntervals, a);
    assert integral == CubeSum(Sample(g, f), LineCount(subIntervals), LineCount(subIntervals));
    r := integral * (g.dx * g.dy * g.dz);
  }

  /** A box with no extent along some axis integrates to 0. */
  lemma FlatBox(f: (real, real, real) -> real, origin: Point3D, destination: Point3D, n: real)
    requires n != 0.0
    requires origin.x == destination.x || origin.y == destination.y || origin.z == destination.z
    ensures BoxRule(f, origin, destination, n) == 0.0
  {
    var g := GridOf(origin, destination, n);
    assert g.dx == 0.0 || g.dy == 0.0 || g.dz == 0.0;
  }

  /** For a whole number n >= 1 the end factors over 0 .. n add up to n. */
  lemma {:induction false} EdgeSumWhole(n: nat, count: nat)
    requires 1 <= n && 1 <= count <= n + 1
    ensures AxisSum(Edge(n as real), count) == (if count == n + 1 then n as real else (count as real) - 0.5)
  {
    if count > 1 {
      EdgeSumWhole(n, count - 1);
    }
  }

  /** With a constant integrand c every sample is c e_i e_j e_k, e the end factor. */
  lemma {:induction false} ConstantSample(g: Grid, f: (real, real, real) -> real, c: real)
    requires forall x, y, z :: f(x, y, z) == c
    ensures forall i, j, k :: Sample(g, f)(i, j, k) == Product(Edge(g.n), c)(i, j, k)
  {
  }

  /** For a whole number n >= 1 of subintervals a constant c integrates to c times the box volume. */
  lemma ConstantBox(f: (real, real, real) -> real, c: real, origin: Point3D, destination: Point3D, n: nat)
    requires n >= 1 && forall x, y, z :: f(x, y, z) == c
    ensures BoxRule(f, origin, destination, n as real)
         == c * ((destination.x - origin.x) * (destination.y - origin.y) * (destination.z - origin.z))
  {
    var g := GridOf(origin, destination, n as real);
    ConstantSample(g, f, c);
    WholeCube(Sample(g, f), c, n);
    CubicBox(f, c, origin, destination, n, g);
  }

  /** Samples c e_i e_j e_k over lines 0 .. n add up to c n^3. */
  lemma WholeCube(t: (real, real, real) -> real, c: real, n: nat)
    requires n >= 1
    requires forall i, j, k :: t(i, j, k) == Product(Edge(n as real), c)(i, j, k)
    ensures CubeSum(t, n + 1, n + 1) == c * (n as real) * (n as real) * (n as real)
  {
    CubeOfAgreeing(t, Edge(n as real), c, n + 1);
    EdgeSumWhole(n, n + 1);
  }

  /** A box rule whose samples add up to c n^3 over n subintervals per axis is c times the box volume. */
  lemma CubicBox(f: (real, real, real) -> real, c: real, origin: Point3D, destination: Point3D, n: nat, g: Grid)
    requires n >= 1 && g == GridOf(origin, destination, n as real)
    requires CubeSum(Sample(g, f), n + 1, n + 1) == c * (n as real) * (n as real) * (n as real)
    ensures BoxRule(f, origin, destination, n as real)
         == c * ((destination.x - origin.x) * (destination.y - origin.y) * (destination.z - origin.z))
  {
    var nr := n as real;
    var sum := CubeSum(Sample(g, f), n + 1, n + 1);
    assert LineCount(nr) == n + 1;
    assert BoxRule(f, origin, destination, nr) == sum * (g.dx * g.dy * g.dz);
    VolumeScale(sum, c, nr, g.dx, g.dy, g.dz,
                destination.x - origin.x, destination.y - origin.y, destination.z - origin.z);
  }

  /** A sum of c n^3 times the cell volume dx dy dz is c times the box volume when each side is n cells. */
  lemma VolumeScale(sum: real, c: real, n: real, dx: real, dy: real, dz: real, sx: real, sy: real, sz: real)
    requires sum == c * n * n * n
    requires dx * n == sx && dy * n == sy && dz * n == sz
    ensures sum * (dx * dy * dz) == c * (sx * sy * sz)
  {
    assert (dx * dy * dz) * (n * n * n) == (dx * n) * (dy * n) * (dz * n);
  }
}
