/**
 * Sums over the whole-number points of a cube, plane by plane and row by
 * row, in the order the nested loops of the 3-D trapezoid rule visit them,
 * and how such a sum factors when every sample is a product of per-axis
 * values.
 */
module GridSums {

  /** w(0) + w(1) + .. + w(count - 1). */
  function AxisSum(w: real -> real, count: nat): real {
    if count == 0 then 0.0 else AxisSum(w, count - 1) + w((count - 1) as real)
  }

  /** Samples t(i, j, 0) .. t(i, j, count - 1). */
  function RowSum(t: (real, real, real) -> real, i: real, j: real, count: nat): real {
    if count == 0 then 0.0
    else RowSum(t, i, j, count - 1) + t(i, j, (count - 1) as real)
  }

  /** Rows (i, 0) .. (i, count - 1), each of size samples. */
  function PlaneSum(t: (real, real, real) -> real, i: real, size: nat, count: nat): real {
    if count == 0 then 0.0
    else PlaneSum(t, i, size, count - 1) + RowSum(t, i, (count - 1) as real, size)
  }

  /** Planes 0 .. count - 1, each of size rows of size samples. */
  function CubeSum(t: (real, real, real) -> real, size: nat, count: nat): real {
    if count == 0 then 0.0
    else CubeSum(t, size, count - 1) + PlaneSum(t, (count - 1) as real, size, size)
  }

  /** The samples c w(i) w(j) w(k): one weight per axis, times a constant. */
  function Product(w: real -> real, c: real): (real, real, real) -> real {
    (i, j, k) => c * w(i) * w(j) * w(k)
  }

  /** Row (i, j) of a product adds up to c w(i) w(j) times the sum of w. */
  lemma RowOfProduct(w: real -> real, c: real, i: real, j: real, count: nat)
    ensures RowSum(Product(w, c), i, j, count) == c * w(i) * w(j) * AxisSum(w, count)
  {
    RowFactors(Product(w, c), w, i, j, c * w(i) * w(j), count);
  }

  /** A row whose samples are a w(k) adds up to a times the sum of w. */
  lemma {:induction false} RowFactors(t: (real, real, real) -> real, w: real -> real, i: real, j: real, a: real, count: nat)
    requires forall k :: t(i, j, k) == a * w(k)
    ensures RowSum(t, i, j, count) == a * AxisSum(w, count)
  {
    if count > 0 {
      var k := (count - 1) as real;
      RowFactors(t, w, i, j, a, count - 1);
      RowStep(a, w(k), RowSum(t, i, j, count), RowSum(t, i, j, count - 1), t(i, j, k),
              AxisSum(w, count), AxisSum(w, count - 1));
    }
  }

  /** A plane whose rows are a w(j) e adds up to a e times the sum of w. */
  lemma {:induction false} PlaneFactors(t: (real, real, real) -> real, w: real -> real, i: real, size: nat, a: real, e: real, count: nat)
    requires forall j :: RowSum(t, i, j, size) == a * w(j) * e
    ensures PlaneSum(t, i, size, count) == a * e * AxisSum(w, count)
  {
    if count > 0 {
      PlaneFactors(t, w, i, size, a, e, count - 1);
      PlaneStep(a, e, w((count - 1) as real),
                PlaneSum(t, i, size, count), PlaneSum(t, i, size, count - 1), RowSum(t, i, (count - 1) as real, size),
                AxisSum(w, count), AxisSum(w, count - 1));
    }
  }

  /** A cube whose planes are a w(i) e e adds up to a e e times the sum of w. */
  lemma {:induction false} CubeFactors(t: (real, real, real) -> real, w: real -> real, size: nat, a: real, e: real, count: nat)
    requires forall i :: PlaneSum(t, i, size, size) == a * w(i) * e * e
    ensures CubeSum(t, size, count) == a * e * e * AxisSum(w, count)
  {
    if count > 0 {
      CubeFactors(t, w, size, a, e, count - 1);
      CubeStep(a, e, w((count - 1) as real),
               CubeSum(t, size, count), CubeSum(t, size, count - 1), PlaneSum(t, (count - 1) as real, size, size),
               AxisSum(w, count), AxisSum(w, count - 1));
    }
  }

  /** Plane i of a product adds up to c w(i) A A, A the sum of w. */
  lemma {:induction false} PlaneOfProduct(w: real -> real, c: real, i: real, size: nat)
    ensures PlaneSum(Product(w, c), i, size, size) == c * w(i) * AxisSum(w, size) * AxisSum(w, size)
  {
    forall j
      ensures RowSum(Product(w, c), i, j, size) == c * w(i) * w(j) * AxisSum(w, size)
    {
      RowOfProduct(w, c, i, j, size);
    }
    PlaneFactors(Product(w, c), w, i, size, c * w(i), AxisSum(w, size), size);
  }

  /**
   * The whole cube of a product adds up to c A A A: the sum of a product
   * of per-axis weights is the product of the per-axis sums.
   */
  lemma {:induction false} CubeOfProduct(w: real -> real, c: real, size: nat)
    ensures CubeSum(Product(w, c), size, size) == c * AxisSum(w, size) * AxisSum(w, size) * AxisSum(w, size)
  {
    forall i
      ensures PlaneSum(Product(w, c), i, size, size) == c * w(i) * AxisSum(w, size) * AxisSum(w, size)
    {
      PlaneOfProduct(w, c, i, size);
    }
    CubeFactors(Product(w, c), w, size, c, AxisSum(w, size), size);
  }

  /** Sums of two sample functions that agree everywhere agree. */
  lemma {:induction false} RowsAgree(t: (real, real, real) -> real, u: (real, real, real) -> real, i: real, j: real, count: nat)
    requires forall i, j, k :: t(i, j, k) == u(i, j, k)
    ensures RowSum(t, i, j, count) == RowSum(u, i, j, count)
  {
    if count > 0 {
      RowsAgree(t, u, i, j, count - 1);
    }
  }

  lemma {:induction false} PlanesAgree(t: (real, real, real) -> real, u: (real, real, real) -> real, i: real, size: nat, count: nat)
    requires forall i, j, k :: t(i, j, k) == u(i, j, k)
    ensures PlaneSum(t, i, size, count) == PlaneSum(u, i, size, count)
  {
    if count > 0 {
      PlanesAgree(t, u, i, size, count - 1);
      RowsAgree(t, u, i, (count - 1) as real, size);
    }
  }

  lemma {:induction false} CubesAgree(t: (real, real, real) -> real, u: (real, real, real) -> real, size: nat, count: nat)
    requires forall i, j, k :: t(i, j, k) == u(i, j, k)
    ensures CubeSum(t, size, count) == CubeSum(u, size, count)
  {
    if count > 0 {
      CubesAgree(t, u, size, count - 1);
      PlanesAgree(t, u, (count - 1) as real, size, size);
    }
  }

  /** Samples that agree everywhere with c w(i) w(j) w(k) add up to c A A A. */
  lemma CubeOfAgreeing(t: (real, real, real) -> real, w: real -> real, c: real, size: nat)
    requires forall i, j, k :: t(i, j, k) == Product(w, c)(i, j, k)
    ensures CubeSum(t, size, size) == c * AxisSum(w, size) * AxisSum(w, size) * AxisSum(w, size)
  {
    CubesAgree(t, Product(w, c), size, size);
    CubeOfProduct(w, c, size);
  }

  /** One step of a row: s S' + s x = s (S' + x). */
  lemma {:induction false} RowStep(s: real, x: real, total: real, previous: real, added: real, sum: real, previousSum: real)
    requires total == previous + added && sum == previousSum + x
    requires previous == s * previousSum && added == s * x
    ensures total == s * sum
  {
  }

  /** One step of a plane: a e S' + a x e = a e (S' + x). */
  lemma {:induction false} PlaneStep(a: real, e: real, x: real, total: real, previous: real, added: real, sum: real, previousSum: real)
    requires total == previous + added && sum == previousSum + x
    requires previous == a * e * previousSum && added == a * x * e
    ensures total == a * e * sum
  {
    assert a * x * e == a * e * x;
  }

  /** One step of a cube: a e e S' + a x e e = a e e (S' + x). */
  lemma {:induction false} CubeStep(a: real, e: real, x: real, total: real, previous: real, added: real, sum: real, previousSum: real)
    requires total == previous + added && sum == previousSum + x
    requires previous == a * e * e * previousSum && added == a * x * e * e
    ensures total == a * e * e * sum
  {
    assert a * x * e * e == a * e * e * x;
  }
}
