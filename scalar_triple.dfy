/**
 * ScalarTriple: built from three vectors A, B and C, it stores
 * A . (B * C), B . (C * A) and C . (A * B), where * is the componentwise
 * vector multiply, and the vector of those three numbers.
 */
module ScalarTriples {
  import opened Vectors

  datatype ScalarTriple = ScalarTriple(productA: real, productB: real, productC: real, scalarTripleProduct: CartesianVector)

  /** The sum over the three axes of the product of the three components. */
  function ComponentProductSum(a: CartesianVector, b: CartesianVector, c: CartesianVector): real {
    a.x * b.x * c.x + a.y * b.y * c.y + a.z * b.z * c.z
  }

  /**
   * new ScalarTriple(A, B, C). With a componentwise multiply all three
   * products are the same sum, and the stored vector is built through the
   * public constructor from them.
   */
  function NewScalarTriple(a: CartesianVector, b: CartesianVector, c: CartesianVector): (t: ScalarTriple)
    ensures t.productA == ComponentProductSum(a, b, c)
    ensures t.productB == ComponentProductSum(a, b, c)
    ensures t.productC == ComponentProductSum(a, b, c)
    ensures t.scalarTripleProduct.Cached()
    ensures t.scalarTripleProduct.x == t.productA && t.scalarTripleProduct.y == t.productB
         && t.scalarTripleProduct.z == t.productC
  {
    var pa := a.Dot(b.Multiply(c));
    var pb := b.Dot(c.Multiply(a));
    var pc := c.Dot(a.Multiply(b));
    DotOfProduct(a, b, c);
    DotOfProduct(b, c, a);
    DotOfProduct(c, a, b);
    assert ComponentProductSum(b, c, a) == ComponentProductSum(a, b, c);
    assert ComponentProductSum(c, a, b) == ComponentProductSum(a, b, c);
    ScalarTriple(pa, pb, pc, Vector(pa, pb, pc))
  }

  /** The dot product of a with the componentwise product of b and c is the sum of the three-way products. */
  lemma DotOfProduct(a: CartesianVector, b: CartesianVector, c: CartesianVector)
    ensures a.Dot(b.Multiply(c)) == ComponentProductSum(a, b, c)
  {
    var m := b.Multiply(c);
    var d := a.Dot(m);
    ProductParts(b, c, m);
    DotParts(a, m, d);
    TripleSum(a.x, a.y, a.z, b.x, b.y, b.z, c.x, c.y, c.z, m.x, m.y, m.z, d);
  }

  /** The components of the componentwise product m of b and c. */
  lemma ProductParts(b: CartesianVector, c: CartesianVector, m: CartesianVector)
    requires m == b.Multiply(c)
    ensures m.x == b.x * c.x && m.y == b.y * c.y && m.z == b.z * c.z
  {
  }

  /** The dot product d of a and m, written out. */
  lemma DotParts(a: CartesianVector, m: CartesianVector, d: real)
    requires d == a.Dot(m)
    ensures d == a.x * m.x + a.y * m.y + a.z * m.z
  {
  }

  /** With m the componentwise product of b and c, a . m is the sum of a_i b_i c_i. */
  lemma TripleSum(ax: real, ay: real, az: real, bx: real, b2: real, bz: real, cx: real, cy: real, cz: real,
                  mx: real, my: real, mz: real, d: real)
    requires mx == bx * cx && my == b2 * cy && mz == bz * cz
    requires d == ax * mx + ay * my + az * mz
    ensures d == ax * bx * cx + ay * b2 * cy + az * bz * cz
  {
  }

  /** The construction does not depend on the order of its three vectors. */
  lemma ScalarTripleSymmetric(a: CartesianVector, b: CartesianVector, c: CartesianVector)
    ensures NewScalarTriple(a, b, c) == NewScalarTriple(b, c, a)
    ensures NewScalarTriple(a, b, c) == NewScalarTriple(b, a, c)
  {
    assert ComponentProductSum(a, b, c) == ComponentProductSum(b, c, a);
    assert ComponentProductSum(a, b, c) == ComponentProductSum(b, a, c);
  }
}
