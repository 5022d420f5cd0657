# Polarize, modelled in Dafny

Polarize is a small coordinate-geometry library for Java. It has two parallel
modules and a curve module beside them:

- **Commons** computes on plain doubles.
- **Converter** wraps every coordinate in a `Point` supplier (`Point.X`, `Point.Y`, `Point.Z`) but uses the same formulas.
- **Caravan** holds mutable points and curves.

This project models the library's core and proves properties about it:

- **Value algebra:** quaternions, axis-angle rotations, scalars, Cartesian vectors, the per-coordinate `Point` arithmetic, the Cartesian and polar units, ScalarTriple and the Utilities constants and magnitudes.
- **Conversions:** between Cartesian, polar and spherical units, and between quaternions and axis-angle rotations (`Polarizer`).
- **Rotations:** about one axis, the delta-driven "full" rotation, and the quaternion sandwich (`Rotator`).
- **Samplers:**
  - Interpolator's angle-stepping generators;
  - `Point3D.drawLine`;
  - the 1-D and 3-D trapezoid `Integral`;
  - `FibonacciLattice.populate`;
  - `ArchimedeanSpiral`.
- **Caravan:** the offset `Point` and the in-place set operations of `GenericCurve`, both written as Dafny classes, and the `Helix` formulas.

Doubles are reals. `Math.sin`, `cos`, `acos`, `atan2`, `sqrt` and `pow` are
uninterpreted (module `JavaMath`). The facts the proofs use about them are
named laws, and every lemma that needs a law states it in its `requires`.
`Math.PI` is the exact value of the double.

Some classes exist in both modules with the same formulas, for example
`Polarizer` and `Rotator`. Each is modelled once, and the rows below cite
either copy. The counterparts that only one module shows share one datatype
layer:

- the Converter `CartesianVector`, `Scalar`, `PolarUnit`, `SphericalUnit`, `Delta` and `CartesianUnit`;
- the Commons `Quaternion`, `Point3D` and `Utilities`.

Collections built in a `HashSet` or `LinkedHashSet` are sequences in insertion
order. None of the element classes define `equals`, so such a set never merges
two elements. `GenericCurve`'s set is the one exception: its elements are Caravan
`Point` objects, compared by identity, and the model keeps it duplicate-free.

Where Java would silently produce NaN or Infinity, the model adds a
precondition. Examples are a division by a zero magnitude or count, and
`acos` or `sqrt` outside their domain. Loops that the code cannot finish are
also excluded by a precondition.

## Model

| member | source | states |
|---|---|---|
| Quaternions.Quaternion.AddScalar | Converter/src/main/java/io/github/simplexdev/polarize/math/Quaternion.java:39-41 | add(double) moves only the real part w, by exactly the added value; x, y and z are kept |
| Quaternions.Quaternion.Add | Converter/src/main/java/io/github/simplexdev/polarize/math/Quaternion.java:44-46 | add(q) is the componentwise sum: each component minus q's component is the receiver's |
| Quaternions.Quaternion.Scale | Converter/src/main/java/io/github/simplexdev/polarize/math/Quaternion.java:49-51 | multiply(1) returns the quaternion and multiply(0) the zero quaternion; ScaleIsMultiply ties it to the Hamilton product and ScaleNorm scales the norm by s^2 |
| Quaternions.Quaternion.Multiply | Converter/src/main/java/io/github/simplexdev/polarize/math/Quaternion.java:54-70 | the Hamilton product has (1, 0, 0, 0) as a right and a left identity |
| Quaternions.Quaternion.Norm | Converter/src/main/java/io/github/simplexdev/polarize/math/Quaternion.java:90-92 | the sum of squares under getMagnitude's sqrt is the real part of q * conj(q) |
| Quaternions.Quaternion.Magnitude | Converter/src/main/java/io/github/simplexdev/polarize/math/Quaternion.java:90-92 | getMagnitude is non-negative and squares to the norm |
| Quaternions.Quaternion.Conjugate | Converter/src/main/java/io/github/simplexdev/polarize/math/Quaternion.java:85-87 | conjugate keeps w and negates x, y and z |
| Quaternions.Quaternion.Normalize | Converter/src/main/java/io/github/simplexdev/polarize/math/Quaternion.java:73-76 | requires a non-zero magnitude (the code divides unguarded); the result scaled back by the magnitude is the receiver |
| Quaternions.Quaternion.Inverse | Converter/src/main/java/io/github/simplexdev/polarize/math/Quaternion.java:79-82 | requires a non-zero magnitude; the result scaled by magnitude * magnitude is the conjugate |
| Quaternions.ScaleByOneOrZero | Converter/src/main/java/io/github/simplexdev/polarize/math/Quaternion.java:49-51 | multiply(1.0) returns the same quaternion and multiply(0.0) the zero quaternion |
| Quaternions.MultiplyIdentity | Converter/src/main/java/io/github/simplexdev/polarize/math/Quaternion.java:54-70 | (1, 0, 0, 0) is a left and a right identity of the Hamilton product |
| Quaternions.ConjugateInvolution | Converter/src/main/java/io/github/simplexdev/polarize/math/Quaternion.java:85-87 | conjugating twice returns the original; the identity is its own conjugate |
| Quaternions.AddScalarIsAdd | Converter/src/main/java/io/github/simplexdev/polarize/math/Quaternion.java:39-46 | add(s) equals add of the quaternion (s, 0, 0, 0) |
| Quaternions.ScaleIsMultiply | Converter/src/main/java/io/github/simplexdev/polarize/math/Quaternion.java:49-70 | multiply(s) equals the Hamilton product with (s, 0, 0, 0) on either side |
| Quaternions.ConjugateOfProduct | Converter/src/main/java/io/github/simplexdev/polarize/math/Quaternion.java:54-87 | the conjugate of p * q is conj(q) * conj(p) |
| Quaternions.MultiplyConjugate | Converter/src/main/java/io/github/simplexdev/polarize/math/Quaternion.java:54-87 | q * conj(q) and conj(q) * q are both (w^2 + x^2 + y^2 + z^2, 0, 0, 0) |
| Quaternions.NormMultiplicative | Converter/src/main/java/io/github/simplexdev/polarize/math/Quaternion.java:54-92 | the squared magnitude of a Hamilton product is the product of the squared magnitudes |
| Quaternions.NormNonNegative | Converter/src/main/java/io/github/simplexdev/polarize/math/Quaternion.java:90-92 | the sum of squares under getMagnitude's sqrt is non-negative and 0 exactly for the zero quaternion |
| Quaternions.MagnitudeOfNorm | Converter/src/main/java/io/github/simplexdev/polarize/math/Quaternion.java:90-92 | getMagnitude is non-negative, squares to w^2 + x^2 + y^2 + z^2, and is 0 exactly for the zero quaternion |
| Quaternions.IdentityMagnitude | Converter/src/main/java/io/github/simplexdev/polarize/math/Quaternion.java:90-92 | the identity quaternion has magnitude 1 |
| Quaternions.NormalizeIdentity | Converter/src/main/java/io/github/simplexdev/polarize/math/Quaternion.java:73-76 | normalizing the identity returns the identity |
| Quaternions.NormalizeUnit | Converter/src/main/java/io/github/simplexdev/polarize/math/Quaternion.java:73-76 | after normalize the magnitude (and its square) is 1 |
| Quaternions.InverseIsInverse | Converter/src/main/java/io/github/simplexdev/polarize/math/Quaternion.java:79-82 | for a non-zero magnitude, q * inverse(q) and inverse(q) * q are both (1, 0, 0, 0) |
| Quaternions.ScaleThrough | Converter/src/main/java/io/github/simplexdev/polarize/math/Quaternion.java:49-70 | p * (s q) = s (p * q) |
| Quaternions.ScaleThroughLeft | Converter/src/main/java/io/github/simplexdev/polarize/math/Quaternion.java:49-70 | (s q) * p = s (q * p) |
| Quaternions.SandwichPure | Commons/src/main/java/io/github/simplexdev/polarize/cartesian/CartesianVector.java:136-142 | the sandwich q * (0, x, y, z) * conj(q) has real part 0 for every q, so rotate discards nothing |
| Quaternions.SandwichNorm | Commons/src/main/java/io/github/simplexdev/polarize/cartesian/CartesianVector.java:136-142 | the sandwich multiplies the squared norm of p by the fourth power of q's magnitude, and keeps it for a unit q |
| AxisAngles.AxisAngle.Negate | Converter/src/main/java/io/github/simplexdev/polarize/math/AxisAngle.java:40-42 | negate negates the axis and the angle |
| AxisAngles.AxisAngle.Inverse | Converter/src/main/java/io/github/simplexdev/polarize/math/AxisAngle.java:51-53 | inverse negates the axis and keeps the angle |
| AxisAngles.AxisAngle.Normalize | Converter/src/main/java/io/github/simplexdev/polarize/math/AxisAngle.java:45-48 | requires a non-zero axis (no guard in the code); keeps the angle, and each new axis part times the old length is the old part |
| AxisAngles.NegateInvolution | Converter/src/main/java/io/github/simplexdev/polarize/math/AxisAngle.java:40-42 | negate twice is the identity |
| AxisAngles.InverseInvolution | Converter/src/main/java/io/github/simplexdev/polarize/math/AxisAngle.java:51-53 | inverse twice is the identity |
| AxisAngles.InverseIsNegateOfAngle | Converter/src/main/java/io/github/simplexdev/polarize/math/AxisAngle.java:40-53 | inverse and negate give the same axis and opposite angles |
| AxisAngles.NormalizeUnit | Converter/src/main/java/io/github/simplexdev/polarize/math/AxisAngle.java:45-48 | the normalized axis has length 1 |
| AxisAngles.NormalizeIdempotent | Converter/src/main/java/io/github/simplexdev/polarize/math/AxisAngle.java:45-48 | normalizing twice gives the same as normalizing once |
| Scalars.Scalar.AddValue | Commons/src/main/java/io/github/simplexdev/polarize/polar/Scalar.java:26-29 | add(d) keeps the origin and adds d to the magnitude |
| Scalars.Scalar.Add | Commons/src/main/java/io/github/simplexdev/polarize/polar/Scalar.java:32-35 | add(s) keeps the receiver's origin and adds only s's magnitude |
| Scalars.Scalar.MultiplyValue | Commons/src/main/java/io/github/simplexdev/polarize/polar/Scalar.java:39-42 | multiply(d) keeps the origin and multiplies the magnitude by d: the new magnitude divided by a non-zero d is the old one, d = 0 gives magnitude 0, and d = 1 returns the same scalar |
| Scalars.Scalar.Multiply | Commons/src/main/java/io/github/simplexdev/polarize/polar/Scalar.java:45-48 | multiply(s) keeps the receiver's origin and multiplies the magnitude by s's magnitude (divided by a non-zero one it gives the old magnitude; a zero one gives 0); a unit argument returns the same scalar |
| Scalars.Scalar.MultiplyQuaternion | Commons/src/main/java/io/github/simplexdev/polarize/polar/Scalar.java:51-54 | multiply(q) keeps the origin and multiplies the magnitude by q's w alone (divided by a non-zero w it gives the old magnitude; w = 0 gives 0); w = 1 returns the same scalar |
| Scalars.Scalar.Normalize | Commons/src/main/java/io/github/simplexdev/polarize/polar/Scalar.java:57-65 | normalize keeps the origin; the magnitude becomes 0 when it was 0 and 1 otherwise |
| Scalars.Scalar.Inverse | Commons/src/main/java/io/github/simplexdev/polarize/polar/Scalar.java:68-74 | inverse fails exactly when the magnitude is 0; otherwise it keeps the origin and its magnitude times the old one is 1 |
| Scalars.Scalar.Negate | Commons/src/main/java/io/github/simplexdev/polarize/polar/Scalar.java:77-80 | negate keeps the origin and negates the magnitude |
| Scalars.ScalarArgumentIgnoresOrigin | Commons/src/main/java/io/github/simplexdev/polarize/polar/Scalar.java:32-54 | the Scalar and Quaternion overloads equal the double overloads on the argument's magnitude or w |
| Scalars.NormalizeIdempotent | Commons/src/main/java/io/github/simplexdev/polarize/polar/Scalar.java:57-65 | normalize is idempotent |
| Scalars.InverseInvolution | Commons/src/main/java/io/github/simplexdev/polarize/polar/Scalar.java:68-74 | for a non-zero magnitude, inverse succeeds twice and returns the original scalar |
| Scalars.NegateInvolution | Commons/src/main/java/io/github/simplexdev/polarize/polar/Scalar.java:77-80 | negate twice is the identity |
| Scalars.MultiplyComposes | Commons/src/main/java/io/github/simplexdev/polarize/polar/Scalar.java:39-42 | multiplying by a and then by b is multiplying by a * b, and the order of a and b does not matter |
| Scalars.MultiplyReciprocal | Commons/src/main/java/io/github/simplexdev/polarize/polar/Scalar.java:39-42 | multiplying by a non-zero d and then by 1 / d restores the scalar |
| ScalarTriples.NewScalarTriple | Converter/src/main/java/io/github/simplexdev/polarize/math/ScalarTriple.java:13-22 | with the componentwise multiply, productA, productB and productC all equal the sum of a_i b_i c_i, and the stored vector is (productA, productB, productC) with a consistent cached length |
| ScalarTriples.ScalarTripleSymmetric | Converter/src/main/java/io/github/simplexdev/polarize/math/ScalarTriple.java:13-16 | the construction gives the same result for rotated or swapped arguments |
| ScalarTriples.DotOfProduct | Converter/src/main/java/io/github/simplexdev/polarize/math/ScalarTriple.java:13-16 | a . (b * c) with the componentwise multiply is the sum over the axes of a_i b_i c_i |
| Vectors.Vector | Commons/src/main/java/io/github/simplexdev/polarize/cartesian/CartesianVector.java:17-22 | the public constructor stores x, y, z and caches their true length |
| Vectors.CartesianVector.Add | Commons/src/main/java/io/github/simplexdev/polarize/cartesian/CartesianVector.java:32-38 | add(v) is the componentwise sum and keeps the cached length consistent |
| Vectors.CartesianVector.Multiply | Commons/src/main/java/io/github/simplexdev/polarize/cartesian/CartesianVector.java:41-46 | multiply(v) is the componentwise product: on each axis the result divided by a non-zero component of v is the receiver's component, and a zero component of v gives 0; the cache stays consistent and (1, 1, 1) keeps the components |
| Vectors.CartesianVector.AddValue | Commons/src/main/java/io/github/simplexdev/polarize/cartesian/CartesianVector.java:49-54 | add(d) adds d to every component and keeps the cache consistent |
| Vectors.CartesianVector.MultiplyValue | Commons/src/main/java/io/github/simplexdev/polarize/cartesian/CartesianVector.java:57-62 | multiply(d) scales every component by d: divided by a non-zero d each gives the old component, d = 0 gives the zero vector; the cache stays consistent |
| Vectors.CartesianVector.Inverse | Commons/src/main/java/io/github/simplexdev/polarize/cartesian/CartesianVector.java:65-70 | inverse negates every component and keeps the cache consistent |
| Vectors.CartesianVector.Normalize | Commons/src/main/java/io/github/simplexdev/polarize/cartesian/CartesianVector.java:73-82 | a zero cached length gives (0, 0, 0); otherwise the cached length becomes 1 and each new component times the old length is the old component |
| Vectors.CartesianVector.Rotate | Commons/src/main/java/io/github/simplexdev/polarize/cartesian/CartesianVector.java:136-142 | requires q != 0 because q is normalized first; the result's cached length is consistent |
| Vectors.CartesianVector.Sandwich | Commons/src/main/java/io/github/simplexdev/polarize/cartesian/CartesianVector.java:137-141 | the vector part of qn * (0, x, y, z) * conj(qn); for the identity it is (x, y, z) |
| Vectors.NormalizeCached | Commons/src/main/java/io/github/simplexdev/polarize/cartesian/CartesianVector.java:73-82 | for a consistent vector of non-zero length, the cached 1 after normalize is the true length |
| Vectors.InverseKeepsLength | Commons/src/main/java/io/github/simplexdev/polarize/cartesian/CartesianVector.java:65-70 | inverse keeps the length |
| Vectors.DotProperties | Commons/src/main/java/io/github/simplexdev/polarize/cartesian/CartesianVector.java:85-103 | dot is symmetric, a vector's dot product with itself is non-negative and 0 only for the zero vector, and lengthSquared equals dot with itself |
| Vectors.DistanceProperties | Commons/src/main/java/io/github/simplexdev/polarize/cartesian/CartesianVector.java:106-118 | distanceSquared is symmetric and 0 to itself; distance is symmetric, non-negative, and 0 exactly for equal components |
| Vectors.RotateKeepsLength | Commons/src/main/java/io/github/simplexdev/polarize/cartesian/CartesianVector.java:136-142 | rotate keeps the length of the vector |
| Vectors.RotateByIdentity | Commons/src/main/java/io/github/simplexdev/polarize/cartesian/CartesianVector.java:136-142 | rotating by (1, 0, 0, 0) returns the same components |
| Vectors.AngleSymmetric | Commons/src/main/java/io/github/simplexdev/polarize/cartesian/CartesianVector.java:90-93 | getAngle is symmetric, given both lengths non-zero (the code divides by their product unguarded) |
| Vectors.CartesianVector.Dot | Commons/src/main/java/io/github/simplexdev/polarize/cartesian/CartesianVector.java:85-87 | the dot product is 0 when either vector is the zero vector; DotProperties and DotIsProductSum give its other laws |
| Vectors.CartesianVector.GetAngle | Commons/src/main/java/io/github/simplexdev/polarize/cartesian/CartesianVector.java:90-93 | requires both lengths non-zero (unguarded division); where the cosine lies in [-1, 1], cos of the angle times the product of the lengths is the dot product |
| Vectors.CartesianVector.LengthSquared | Commons/src/main/java/io/github/simplexdev/polarize/cartesian/CartesianVector.java:101-103 | for a vector whose cached length is true, lengthSquared is x^2 + y^2 + z^2 |
| Vectors.CartesianVector.DistanceSquared | Commons/src/main/java/io/github/simplexdev/polarize/cartesian/CartesianVector.java:112-118 | distanceSquared is non-negative and 0 exactly when the components are equal |
| Vectors.CartesianVector.Distance | Commons/src/main/java/io/github/simplexdev/polarize/cartesian/CartesianVector.java:106-109 | distance is non-negative and squares to distanceSquared |
| Vectors.DotIsProductSum | Commons/src/main/java/io/github/simplexdev/polarize/cartesian/CartesianVector.java:41-87 | dot is the sum of the components of the componentwise product |
| Spatial.Point.DistanceTo | Converter/src/main/java/io/github/simplexdev/polarize/api/units/Point.java:78-80 | distance(double) is non-negative, is one of the two differences, and is 0 exactly when the values are equal |
| Spatial.Point.DivideValue | Converter/src/main/java/io/github/simplexdev/polarize/api/units/Point.java:158-160 | requires a non-zero divisor (the code divides unguarded); the quotient times the divisor is the point's value |
| Spatial.Point.Distance | Converter/src/main/java/io/github/simplexdev/polarize/api/units/Point.java:88-90 | distance(Point) is non-negative and 0 exactly when the values are equal |
| Spatial.Point.AddValue | Converter/src/main/java/io/github/simplexdev/polarize/api/units/Point.java:98-100 | add(double): the sum minus the argument is the point's value |
| Spatial.Point.Add | Converter/src/main/java/io/github/simplexdev/polarize/api/units/Point.java:108-110 | add(Point): the sum minus the argument's value is the point's value |
| Spatial.Point.SubtractValue | Converter/src/main/java/io/github/simplexdev/polarize/api/units/Point.java:118-120 | subtract(double): the difference plus the argument is the point's value |
| Spatial.Point.Subtract | Converter/src/main/java/io/github/simplexdev/polarize/api/units/Point.java:128-130 | subtract(Point): the difference plus the argument's value is the point's value |
| Spatial.Point.MultiplyValue | Converter/src/main/java/io/github/simplexdev/polarize/api/units/Point.java:138-140 | multiply(double) is 0 for the factor 0 and the point's value for the factor 1; ArithmeticInverses shows divide undoes it |
| Spatial.Point.Multiply | Converter/src/main/java/io/github/simplexdev/polarize/api/units/Point.java:148-150 | multiply(Point) is the product of the two values: divided by a non-zero argument value it gives this value back, and a zero argument gives 0 |
| Spatial.Point.Divide | Converter/src/main/java/io/github/simplexdev/polarize/api/units/Point.java:168-170 | requires a non-zero argument; the quotient times the argument's value is the point's value |
| Spatial.Point.PowerValue | Converter/src/main/java/io/github/simplexdev/polarize/api/units/Point.java:178-180 | power(double) is Math.pow of the value and the exponent; under Math.pow's documented cases an exponent of 0 gives 1 and an exponent of 1 gives the value |
| Spatial.Point.Power | Converter/src/main/java/io/github/simplexdev/polarize/api/units/Point.java:188-190 | power(Point) raises this value to the argument's value; under Math.pow's documented cases an argument of 0 gives 1 and an argument of 1 gives this value |
| Spatial.PointOverloads | Converter/src/main/java/io/github/simplexdev/polarize/api/units/Point.java:78-190 | every Point overload of distance, add, subtract, multiply, divide and power is the double overload applied to the argument's value |
| Spatial.DistanceSymmetric | Converter/src/main/java/io/github/simplexdev/polarize/api/units/Point.java:78-90 | distance is symmetric and 0 from a point to itself |
| Spatial.ArithmeticInverses | Converter/src/main/java/io/github/simplexdev/polarize/api/units/Point.java:98-160 | subtract undoes add, and divide undoes multiply by a non-zero value |
| Spatial.Point3D.X | Converter/src/main/java/io/github/simplexdev/polarize/cartesian/Point3D.java:24-26 | getX supplies the point's x coordinate |
| Spatial.Point3D.Y | Converter/src/main/java/io/github/simplexdev/polarize/cartesian/Point3D.java:29-31 | getY supplies the point's y coordinate |
| Spatial.Point3D.Z | Converter/src/main/java/io/github/simplexdev/polarize/cartesian/Point3D.java:34-36 | getZ supplies the point's z coordinate |
| Spatial.Point3D.GetDistance | Converter/src/main/java/io/github/simplexdev/polarize/cartesian/Point3D.java:39-43 | getDistance is the vector that leads from this point to the argument, built with its length cached |
| Spatial.Point3D.Multiply | Converter/src/main/java/io/github/simplexdev/polarize/cartesian/Point3D.java:46-50 | the componentwise product: on each axis the result divided by a non-zero coordinate of p is this point's coordinate, and a zero coordinate gives 0; (1, 1, 1) gives the point back |
| Spatial.Point3D.GetDifferential | Converter/src/main/java/io/github/simplexdev/polarize/cartesian/Point3D.java:58-62 | the argument minus this point; the differential to itself is the origin |
| Spatial.Point3D.Add | Converter/src/main/java/io/github/simplexdev/polarize/cartesian/Point3D.java:65-69 | the componentwise sum; adding the origin gives the point back |
| Spatial.Point3D.DrawLine | Converter/src/main/java/io/github/simplexdev/polarize/cartesian/Point3D.java:72-91 | for a non-zero count, drawLine yields LineCount(numPoints) points and point k is this + (p - this) * k / numPoints |
| Spatial.LineCount | Converter/src/main/java/io/github/simplexdev/polarize/cartesian/Point3D.java:75 | the loop counter 0, 1, 2, ... passes floor(n) + 1 times for n >= 0 and never for n < 0 |
| Spatial.FromDouble2 | Converter/src/main/java/io/github/simplexdev/polarize/api/units/Point.java:46-48 | fromDouble(x, z) has exactly those coordinates |
| Spatial.FromDouble3 | Converter/src/main/java/io/github/simplexdev/polarize/api/units/Point.java:58-60 | fromDouble(x, y, z) has exactly those coordinates |
| Spatial.FromXZ | Converter/src/main/java/io/github/simplexdev/polarize/api/units/Point.java:23-25 | fromXZ takes the suppliers' values as coordinates |
| Spatial.FromXYZ | Converter/src/main/java/io/github/simplexdev/polarize/api/units/Point.java:35-37 | fromXYZ takes the suppliers' values as coordinates |
| Spatial.AddDifferential | Converter/src/main/java/io/github/simplexdev/polarize/cartesian/Point3D.java:58-69 | adding getDifferential(p) to a point gives p |
| Spatial.DistanceIsDifferential | Converter/src/main/java/io/github/simplexdev/polarize/cartesian/Point3D.java:39-62 | getDistance and getDifferential have the same components |
| Spatial.LineStart | Converter/src/main/java/io/github/simplexdev/polarize/cartesian/Point3D.java:72-91 | the first point drawLine yields is this point |
| Spatial.LineEnd | Converter/src/main/java/io/github/simplexdev/polarize/cartesian/Point3D.java:72-91 | for a whole number of steps the last point drawLine yields is the target |
| Spatial.LineStep | Converter/src/main/java/io/github/simplexdev/polarize/cartesian/Point3D.java:72-91 | consecutive points drawLine yields are (p - this) / numPoints apart on every axis |
| Spatial.LineCoordinates | Converter/src/main/java/io/github/simplexdev/polarize/cartesian/Point3D.java:76-85 | the k-th point of drawLine is this + (p - this) * (k / numPoints) on every axis |
| Spatial.ScaledStep | Converter/src/main/java/io/github/simplexdev/polarize/cartesian/Point3D.java:76-81 | the coordinate base + d * (k / n) of point k and base + d * ((k + 1) / n) of point k + 1 are d / n apart |
| Spatial.MultiplyCommutes | Converter/src/main/java/io/github/simplexdev/polarize/cartesian/Point3D.java:46-50 | the componentwise product of points is commutative and (1, 1, 1) is a left identity |
| Units.NewCartesianUnit | Commons/src/main/java/io/github/simplexdev/polarize/cartesian/CartesianUnit.java:23-44 | the 3D point is (x, y, z), the 2D point is (x, z), and the two agree on x and z |
| Units.CartesianUnit.GetPoint3D | Commons/src/main/java/io/github/simplexdev/polarize/cartesian/CartesianUnit.java:33-35 | getPoint3D returns the stored 3D point, which shares x and z with the 2D point exactly when the unit is paired |
| Units.CartesianUnit.GetPoint2D | Commons/src/main/java/io/github/simplexdev/polarize/cartesian/CartesianUnit.java:42-44 | getPoint2D returns the stored 2D point, which shares x and z with the 3D point exactly when the unit is paired |
| Units.CartesianUnitPaired | Commons/src/main/java/io/github/simplexdev/polarize/cartesian/CartesianUnit.java:23-26 | the 2D point does not depend on y, and the 3D point keeps y |
| Units.PolarPythagoras | Commons/src/main/java/io/github/simplexdev/polarize/polar/PolarUnit.java:75-88 | adjacent^2 + opposite^2 = radius^2 |
| Units.PolarAtZero | Commons/src/main/java/io/github/simplexdev/polarize/polar/PolarUnit.java:75-88 | at angle 0, adjacent is the radius and opposite is 0 |
| Units.PolarUnit.Adjacent | Commons/src/main/java/io/github/simplexdev/polarize/polar/PolarUnit.java:75-77 | adjacent() is the radius at angle 0 |
| Units.PolarUnit.Opposite | Commons/src/main/java/io/github/simplexdev/polarize/polar/PolarUnit.java:86-88 | opposite() is 0 at angle 0 |
| Utilities.RadianMultiples | Converter/src/main/java/io/github/simplexdev/polarize/util/Utilities.java:8-28 | each radian constant is the right multiple of RADIAN_45 and RADIAN_90 |
| Utilities.RadiansIncreasing | Converter/src/main/java/io/github/simplexdev/polarize/util/Utilities.java:8-28 | the radian constants are positive and strictly increasing |
| Utilities.MagnitudeNonNegative | Converter/src/main/java/io/github/simplexdev/polarize/util/Utilities.java:41-55 | both magnitudes are non-negative and are 0 exactly at the zero vector |
| Utilities.MagnitudeSquared | Converter/src/main/java/io/github/simplexdev/polarize/util/Utilities.java:41-55 | a magnitude squared is the sum of the squared components |
| Utilities.MagnitudeFlat | Converter/src/main/java/io/github/simplexdev/polarize/util/Utilities.java:41-55 | the 3D magnitude with y = 0 is the 2D magnitude |
| Utilities.MagnitudeNegation | Converter/src/main/java/io/github/simplexdev/polarize/util/Utilities.java:41-55 | negating any component leaves either magnitude unchanged |
| Utilities.NormalizedMagnitude | Converter/src/main/java/io/github/simplexdev/polarize/util/Utilities.java:53-55 | dividing every component by a non-zero magnitude gives a vector of magnitude 1 |
| Utilities.MagnitudeOf2 | Converter/src/main/java/io/github/simplexdev/polarize/util/Utilities.java:41-43 | magnitudeOf(x, z) is non-negative; MagnitudeSquared gives its square |
| Utilities.MagnitudeOf3 | Converter/src/main/java/io/github/simplexdev/polarize/util/Utilities.java:53-55 | magnitudeOf(x, y, z) is non-negative, and with y = 0 it is magnitudeOf(x, z); MagnitudeSquared gives its square |
| Polarizer.ToCartesianUnit2 | Converter/src/main/java/io/github/simplexdev/polarize/util/Polarizer.java:74-78 | toCartesianUnit(radius, theta) is the paired unit with x the polar opposite side, z the adjacent side and y = 0 |
| Polarizer.ToCartesianUnitPolar | Converter/src/main/java/io/github/simplexdev/polarize/util/Polarizer.java:38-42 | toCartesianUnit(PolarUnit) puts the unit's opposite side on x and its adjacent side on z, with y = 0 |
| Polarizer.ToCartesianUnitScalar | Converter/src/main/java/io/github/simplexdev/polarize/util/Polarizer.java:56-60 | toCartesianUnit(IScalar, Theta) uses the scalar's magnitude as the radius |
| Polarizer.PolarOverloadsAgree | Commons/src/main/java/io/github/simplexdev/polarize/util/Polarizer.java:33-73 | the PolarUnit and IScalar overloads are the (radius, theta) overload on the same values |
| Polarizer.ToCartesianUnit3 | Converter/src/main/java/io/github/simplexdev/polarize/util/Polarizer.java:131-136 | toCartesianUnit(radius, theta, phi): y is r cos(theta), and x and z are the adjacent and opposite sides of angle phi on the horizontal radius r sin(theta) |
| Polarizer.ToCartesianUnitSpherical | Converter/src/main/java/io/github/simplexdev/polarize/util/Polarizer.java:91-96 | toCartesianUnit(SphericalUnit) is paired and has height radius cos(theta) |
| Polarizer.ToCartesianUnitScalar3 | Converter/src/main/java/io/github/simplexdev/polarize/util/Polarizer.java:106-111 | toCartesianUnit(IScalar, Theta, Phi) is paired and has height magnitude cos(theta) |
| Polarizer.SphericalOverloadsAgree | Commons/src/main/java/io/github/simplexdev/polarize/util/Polarizer.java:86-121 | the SphericalUnit and IScalar overloads are the (radius, theta, phi) overload on the same values |
| Polarizer.SphericalAtZenith | Commons/src/main/java/io/github/simplexdev/polarize/util/Polarizer.java:116-121 | at theta = 0 the point is (0, radius, 0) whatever phi is |
| Polarizer.ToPolarUnit2 | Converter/src/main/java/io/github/simplexdev/polarize/util/Polarizer.java:198-202 | toPolarUnit(x, z) has the 2D magnitude of (x, z) as radius and atan2(x, z) as theta |
| Polarizer.ToPolarUnitCartesian | Converter/src/main/java/io/github/simplexdev/polarize/util/Polarizer.java:145-149 | toPolarUnit(CartesianUnit) has the magnitude of the unit's 2D point as radius |
| Polarizer.ToPolarUnitWithVector | Converter/src/main/java/io/github/simplexdev/polarize/util/Polarizer.java:161-165 | toPolarUnit(CartesianUnit, IVector) takes the vector's length as radius and the unit's angle as theta |
| Polarizer.ToPolarUnitPoint | Converter/src/main/java/io/github/simplexdev/polarize/util/Polarizer.java:176-180 | toPolarUnit(IPoint2D, IVector) takes the vector's length as radius and atan2 of the point as theta |
| Polarizer.PolarUnitOverloads | Commons/src/main/java/io/github/simplexdev/polarize/util/Polarizer.java:129-175 | toPolarUnit(CartesianUnit) is toPolarUnit(x, z) on the unit's coordinates; y plays no part and the radius is non-negative |
| Polarizer.PolarVectorOverload | Converter/src/main/java/io/github/simplexdev/polarize/util/Polarizer.java:176-180 | given the point's own vector, the vector overload is toPolarUnit(x, z) |
| Polarizer.PolarRoundTrip | Converter/src/main/java/io/github/simplexdev/polarize/util/Polarizer.java:38-202 | toCartesianUnit(toPolarUnit(x, z)) is the unit (x, 0, z), the origin included |
| Polarizer.ToSphericalUnit3 | Converter/src/main/java/io/github/simplexdev/polarize/util/Polarizer.java:270-275 | requires a non-zero magnitude (y / radius is unguarded); radius is the 3D magnitude, theta = acos(y / radius), phi = atan2(x, z) |
| Polarizer.ToSphericalUnitCartesian | Converter/src/main/java/io/github/simplexdev/polarize/util/Polarizer.java:217-229 | toSphericalUnit(CartesianUnit) reads the unit's 3D point: its magnitude is the radius and atan2(x, z) is phi |
| Polarizer.ToSphericalUnitWithVector | Converter/src/main/java/io/github/simplexdev/polarize/util/Polarizer.java:240-245 | toSphericalUnit(IPoint3D, IVector) takes the vector's non-zero length as radius, acos(point.y / length) as theta and atan2(x, z) of the point as phi |
| Polarizer.SphericalUnitOverloads | Commons/src/main/java/io/github/simplexdev/polarize/util/Polarizer.java:183-220 | the CartesianUnit overload, and the vector overload given the point's own vector, equal toSphericalUnit(x, y, z) |
| Polarizer.ZenithParts | Converter/src/main/java/io/github/simplexdev/polarize/util/Polarizer.java:270-272 | with theta = acos(y / r), r cos(theta) = y and r sin(theta) is the horizontal magnitude |
| Polarizer.SphericalRoundTripSwaps | Commons/src/main/java/io/github/simplexdev/polarize/util/Polarizer.java:116-220 | as written, toCartesianUnit(toSphericalUnit(x, y, z)) is (z, y, x), which differs from the input whenever x != z |
| Polarizer.SphericalSides | Converter/src/main/java/io/github/simplexdev/polarize/util/Polarizer.java:270-272 | a unit whose radius is the magnitude of (x, y, z) and whose theta is acos(y / radius) has height y and, as its horizontal side, the magnitude of (x, z) |
| Polarizer.RebuildUnit | Converter/src/main/java/io/github/simplexdev/polarize/util/Polarizer.java:91-96 | a spherical unit whose sides are those of (x, y, z) converts back to the unit (x, y, z) |
| Polarizer.ToSphericalUnitCorrected | Converter/src/main/java/io/github/simplexdev/polarize/util/Polarizer.java:270-275 | the corrected conversion has the radius and theta of toSphericalUnit and phi = atan2(z, x) |
| Polarizer.SphericalRoundTrip | Converter/src/main/java/io/github/simplexdev/polarize/util/Polarizer.java:91-136 | with phi = atan2(z, x), converting to spherical and back gives the same (x, y, z) |
| Polarizer.ToAxisAngle | Converter/src/main/java/io/github/simplexdev/polarize/util/Polarizer.java:296-312 | angle = 2 acos(w); below the threshold the axis is the vector part, otherwise the axis times sqrt(1 - w^2) is the vector part |
| Polarizer.ToAxisAngleIdentity | Converter/src/main/java/io/github/simplexdev/polarize/util/Polarizer.java:296-312 | the identity quaternion takes the small branch: zero axis, angle 2 acos(1) |
| Polarizer.ToAxisAngleUnitAxis | Converter/src/main/java/io/github/simplexdev/polarize/util/Polarizer.java:296-312 | for a unit quaternion in the dividing branch the axis has length 1 |
| Polarizer.VectorPartMagnitude | Converter/src/main/java/io/github/simplexdev/polarize/util/Polarizer.java:298 | in a unit quaternion, sqrt(1 - w^2) is the magnitude of the vector part |
| Polarizer.DividingBranch | Converter/src/main/java/io/github/simplexdev/polarize/util/Polarizer.java:296-312 | in the dividing branch the axis is (x / s, y / s, z / s) |
| Polarizer.ToQuaternionAsWritten | Converter/src/main/java/io/github/simplexdev/polarize/util/Polarizer.java:333-341 | as written, the (w, x, y, z) constructor receives x sin(a/2) as w, y sin(a/2) as x, z sin(a/2) as y and cos(a/2) as z |
| Polarizer.ToQuaternionAsWrittenZeroAngle | Converter/src/main/java/io/github/simplexdev/polarize/util/Polarizer.java:333-341 | as written, the zero rotation about the x axis becomes (0, 0, 0, 1), not the identity |
| Polarizer.ToQuaternion | Converter/src/main/java/io/github/simplexdev/polarize/util/Polarizer.java:333-341 | the corrected conversion is the as-written components moved to their places, so w = cos(a/2), x = x sin(a/2), y = y sin(a/2) and z = z sin(a/2) |
| Polarizer.ToQuaternionZeroAngle | Converter/src/main/java/io/github/simplexdev/polarize/util/Polarizer.java:333-341 | the corrected conversion maps every zero rotation to the identity |
| Polarizer.ToQuaternionUnit | Converter/src/main/java/io/github/simplexdev/polarize/util/Polarizer.java:333-341 | the corrected conversion maps a unit axis to a unit quaternion |
| Polarizer.KeepingBranch | Converter/src/main/java/io/github/simplexdev/polarize/util/Polarizer.java:302-305 | below the threshold the axis toAxisAngle returns is the vector part itself, with angle 2 acos(w) |
| Polarizer.AxisAngleRoundTrip | Converter/src/main/java/io/github/simplexdev/polarize/util/Polarizer.java:296-341 | toAxisAngle(toQuaternion(a)): when sin(a/2) reaches the 0.001 threshold the axis comes back exactly, whatever its length; when sin(a/2) is within 0.001 of 0 the code returns the axis scaled by sin(a/2), not the axis; the angle is 2 acos(cos(a/2)) |
| Polarizer.AxisAngleRoundTripExact | Converter/src/main/java/io/github/simplexdev/polarize/util/Polarizer.java:296-341 | for an angle in [0, 2 pi], sin(a/2) is non-negative and the angle comes back unchanged, so the round trip returns a itself at or above the threshold, and the scaled axis with a's angle below it |
| Rotator.RotateX | Converter/src/main/java/io/github/simplexdev/polarize/util/Rotator.java:38-46 | rotateX(IPoint3D, SphericalUnit) keeps x |
| Rotator.RotateY | Converter/src/main/java/io/github/simplexdev/polarize/util/Rotator.java:57-65 | rotateY keeps y |
| Rotator.RotateZ | Converter/src/main/java/io/github/simplexdev/polarize/util/Rotator.java:76-84 | rotateZ keeps z |
| Rotator.PlaneTurn | Converter/src/main/java/io/github/simplexdev/polarize/util/Rotator.java:38-84 | turning a coordinate pair by an angle whose sine and cosine satisfy s^2 + c^2 = 1 keeps the pair's squared length |
| Rotator.SingleAxisKeepsLength | Commons/src/main/java/io/github/simplexdev/polarize/util/Rotator.java:37-77 | each single-axis rotation keeps the squared distance and the magnitude of the point |
| Rotator.RotateXKeepsLength | Converter/src/main/java/io/github/simplexdev/polarize/util/Rotator.java:38-46 | rotateX keeps the squared distance from the origin |
| Rotator.RotateYKeepsLength | Converter/src/main/java/io/github/simplexdev/polarize/util/Rotator.java:57-65 | rotateY keeps the squared distance from the origin |
| Rotator.RotateZKeepsLength | Converter/src/main/java/io/github/simplexdev/polarize/util/Rotator.java:76-84 | rotateZ keeps the squared distance from the origin |
| Rotator.SameMagnitude | Converter/src/main/java/io/github/simplexdev/polarize/util/Utilities.java:53-55 | points at the same squared distance have the same magnitudeOf |
| Rotator.SingleAxisAtZero | Commons/src/main/java/io/github/simplexdev/polarize/util/Rotator.java:37-77 | each single-axis rotation by angle 0 returns the point |
| Rotator.RotateX2 | Converter/src/main/java/io/github/simplexdev/polarize/util/Rotator.java:117-123 | the 2D rotateX is the 2D rotateZ applied to the point with x and z exchanged |
| Rotator.RotateZ2 | Converter/src/main/java/io/github/simplexdev/polarize/util/Rotator.java:134-140 | the 2D rotateZ at angle 0 returns the point |
| Rotator.FullRotation2 | Converter/src/main/java/io/github/simplexdev/polarize/util/Rotator.java:151-157 | the 2D fullRotation is the 2D rotateZ by the unit's theta, for every radius |
| Rotator.PlanarAtZero | Commons/src/main/java/io/github/simplexdev/polarize/util/Rotator.java:110-129 | at angle 0 the 2D rotateX exchanges x and z, and rotateZ returns the point |
| Rotator.RotateZ2KeepsLength | Converter/src/main/java/io/github/simplexdev/polarize/util/Rotator.java:134-140 | the 2D rotateZ keeps the distance from the origin |
| Rotator.RotateX2KeepsLength | Converter/src/main/java/io/github/simplexdev/polarize/util/Rotator.java:117-123 | the 2D rotateX keeps the distance from the origin |
| Rotator.FullRotation2KeepsLength | Commons/src/main/java/io/github/simplexdev/polarize/util/Rotator.java:140-144 | the 2D fullRotation keeps the distance from the origin |
| Rotator.PlanarTurn | Converter/src/main/java/io/github/simplexdev/polarize/util/Rotator.java:117-157 | a pair turned by angle t keeps its squared length |
| Rotator.FullRotation | Converter/src/main/java/io/github/simplexdev/polarize/util/Rotator.java:96-106 | fullRotation places the point at the shifted angles atan2(x, z) + delta.theta and atan2(magnitudeOf(x, z), y) + delta.phi, on the spherical formula with radius r cos(theta + dtheta) cos(phi + dphi) |
| Rotator.FullRotationOnSphere | Commons/src/main/java/io/github/simplexdev/polarize/util/Rotator.java:89-99 | the result of fullRotation lies at distance abs(r) from the origin, r being that radius |
| Rotator.Rotate | Converter/src/main/java/io/github/simplexdev/polarize/util/Rotator.java:167-175 | rotate(IPoint3D, IQuaternion) is the vector part of the sandwich of the point by the conjugate of q |
| Rotator.RotateByIdentity | Converter/src/main/java/io/github/simplexdev/polarize/util/Rotator.java:167-175 | rotating by (1, 0, 0, 0) returns the point |
| Rotator.RotateUnit | Commons/src/main/java/io/github/simplexdev/polarize/util/Rotator.java:154-162 | for a unit quaternion, the discarded real part is 0 and the distance from the origin is kept |
| Rotator.Rotate2 | Converter/src/main/java/io/github/simplexdev/polarize/util/Rotator.java:185-193 | rotate(IPoint2D, IQuaternion) is the 3D rotate of (x, 0, z), read back on x and z |
| Rotator.Rotate2ByIdentity | Converter/src/main/java/io/github/simplexdev/polarize/util/Rotator.java:185-193 | rotating a 2D point by (1, 0, 0, 0) returns the point |
| Interpolator.IntCast | Commons/src/main/java/io/github/simplexdev/polarize/util/Interpolator.java:49 | the (int) narrowing in `i += step` stays within the int range and truncates toward zero: the result is the whole part of the double, clamped at the int bounds |
| Interpolator.ContinuesWithinLimit | Commons/src/main/java/io/github/simplexdev/polarize/util/Interpolator.java:49 | an int counter passes the loop test against a double bound exactly when it is at most that bound's largest whole number |
| Interpolator.EffectiveLimits | Commons/src/main/java/io/github/simplexdev/polarize/util/Interpolator.java:49-414 | against the RADIAN_45, RADIAN_90, RADIAN_180, PI, RADIAN_270 and RADIAN_360 bounds the last counter values let through are 0, 1, 3, 3, 4 and 6 |
| Interpolator.AdvanceByWholePart | Commons/src/main/java/io/github/simplexdev/polarize/util/Interpolator.java:49 | from a non-negative counter, `i += step` adds the whole part of a non-negative step |
| Interpolator.SmallStepNeverExits | Commons/src/main/java/io/github/simplexdev/polarize/util/Interpolator.java:49 | with a step below 1 the counter stays at or below 0, and the loop test passes before and after the step, so the loop does not end |
| Interpolator.MultipleWithin | Commons/src/main/java/io/github/simplexdev/polarize/util/Interpolator.java:49 | every visit n k up to limit / k lies between 0 and the limit |
| Interpolator.VisitsSpan | Commons/src/main/java/io/github/simplexdev/polarize/util/Interpolator.java:49 | the visited counters are 0, k, 2k, ..., each within the limit, floor(limit / k) + 1 of them, and the next multiple is past the limit |
| Interpolator.AdvanceOnTrack | Commons/src/main/java/io/github/simplexdev/polarize/util/Interpolator.java:49 | one `i += step` moves the counter from one visit to the next, or past the limit after the last visit |
| Interpolator.Row | Commons/src/main/java/io/github/simplexdev/polarize/util/Interpolator.java:50-53 | one pass of the inner loop pairs the outer counter with each inner visit |
| Interpolator.Pairs | Commons/src/main/java/io/github/simplexdev/polarize/util/Interpolator.java:49-54 | the nested loops visit as many pairs as the product of the outer and inner visit counts |
| Interpolator.RowGrows | Commons/src/main/java/io/github/simplexdev/polarize/util/Interpolator.java:50-53 | one more inner pass adds exactly one pair at the end |
| Interpolator.PairsGrow | Commons/src/main/java/io/github/simplexdev/polarize/util/Interpolator.java:49-54 | one more outer pass adds a whole row at the end |
| Interpolator.PairsCover | Commons/src/main/java/io/github/simplexdev/polarize/util/Interpolator.java:49-54 | every visited pair is an outer visit together with an inner visit |
| Interpolator.BuiltAppend | Commons/src/main/java/io/github/simplexdev/polarize/util/Interpolator.java:52 | adding the unit of one more pair keeps units and pairs in step |
| Interpolator.PolarSweep | Commons/src/main/java/io/github/simplexdev/polarize/util/Interpolator.java:177-186 | the single loop of polarSetNN yields one PolarUnit(magnitude, i) per visited i, in order |
| Interpolator.GridSweep | Commons/src/main/java/io/github/simplexdev/polarize/util/Interpolator.java:46-57 | the nested loops yield one unit per visited pair (i, j), outer angle first, in order |
| Interpolator.CartesianOnSphere | Commons/src/main/java/io/github/simplexdev/polarize/util/Interpolator.java:51 | every unit cartesianNN builds lies at distance L from the origin, L the vector's length |
| Interpolator.CartesianUnitsOnSphere | Commons/src/main/java/io/github/simplexdev/polarize/util/Interpolator.java:46-161 | all the units a cartesianNN result holds lie on the sphere of radius L |
| Interpolator.GeneratorCounts | Commons/src/main/java/io/github/simplexdev/polarize/util/Interpolator.java:46-421 | a generator with whole step k and effective bound B emits floor(B / k) + 1 units, or that number squared for the nested ones |
| Interpolator.FortyFiveIsOneUnit | Commons/src/main/java/io/github/simplexdev/polarize/util/Interpolator.java:46-57 | the 45-degree generators visit only angle 0 and emit one unit: (0, L, 0), and a spherical unit with the magnitude in phi |
| Interpolator.PolarThetas | Commons/src/main/java/io/github/simplexdev/polarize/util/Interpolator.java:177-286 | every polarSetNN unit has the scalar's magnitude as radius and a whole multiple n k of the step, within the bound, as theta |
| Interpolator.Cartesian45 | Commons/src/main/java/io/github/simplexdev/polarize/util/Interpolator.java:46-57 | cartesian45 yields the units of the pairs up to counter 0 |
| Interpolator.Cartesian90 | Commons/src/main/java/io/github/simplexdev/polarize/util/Interpolator.java:72-83 | cartesian90 yields the units of the pairs up to counter 1 |
| Interpolator.Cartesian180 | Commons/src/main/java/io/github/simplexdev/polarize/util/Interpolator.java:98-109 | cartesian180 yields the units of the pairs up to counter 3 |
| Interpolator.Cartesian270 | Commons/src/main/java/io/github/simplexdev/polarize/util/Interpolator.java:124-135 | cartesian270 yields the units of the pairs up to counter 4 |
| Interpolator.Cartesian360 | Commons/src/main/java/io/github/simplexdev/polarize/util/Interpolator.java:150-161 | cartesian360 yields the units of the pairs up to counter 6 |
| Interpolator.PolarSet45 | Commons/src/main/java/io/github/simplexdev/polarize/util/Interpolator.java:177-186 | polarSet45 yields the units of the visits up to 0 |
| Interpolator.PolarSet90 | Commons/src/main/java/io/github/simplexdev/polarize/util/Interpolator.java:202-211 | polarSet90 yields the units of the visits up to 1 |
| Interpolator.PolarSet180 | Commons/src/main/java/io/github/simplexdev/polarize/util/Interpolator.java:227-236 | polarSet180 yields the units of the visits up to 3 |
| Interpolator.PolarSet270 | Commons/src/main/java/io/github/simplexdev/polarize/util/Interpolator.java:252-261 | polarSet270 yields the units of the visits up to 4 |
| Interpolator.PolarSet360 | Commons/src/main/java/io/github/simplexdev/polarize/util/Interpolator.java:277-286 | polarSet360, testing i < RADIAN_360, yields the units of the visits up to 6 |
| Interpolator.SphericalUnit45 | Commons/src/main/java/io/github/simplexdev/polarize/util/Interpolator.java:302-313 | sphericalUnit45 yields the units of the pairs up to counter 0 |
| Interpolator.SphericalUnit90 | Commons/src/main/java/io/github/simplexdev/polarize/util/Interpolator.java:329-340 | sphericalUnit90 yields the units of the pairs up to counter 1 |
| Interpolator.SphericalUnit180 | Commons/src/main/java/io/github/simplexdev/polarize/util/Interpolator.java:356-367 | sphericalUnit180, whose inner loop tests against Math.PI, yields the units of the pairs up to counter 3 |
| Interpolator.SphericalUnit270 | Commons/src/main/java/io/github/simplexdev/polarize/util/Interpolator.java:383-394 | sphericalUnit270 yields the units of the pairs up to counter 4 |
| Interpolator.SphericalUnit360 | Commons/src/main/java/io/github/simplexdev/polarize/util/Interpolator.java:410-421 | sphericalUnit360 yields the units of the pairs up to counter 6 |
| Integrals.InteriorCount | Converter/src/main/java/io/github/simplexdev/polarize/math/function/Integral.java:14 | the loop `for (i = 1; i < n; i++)` takes the largest count c with c < n, or none |
| Integrals.InteriorStep | Converter/src/main/java/io/github/simplexdev/polarize/math/function/Integral.java:14-17 | one more pass adds f(lower + i dx) for the pass's i |
| Integrals.Integrate | Converter/src/main/java/io/github/simplexdev/polarize/math/function/Integral.java:11-19 | for non-zero subIntervals, integrate returns dx (f(lower) / 2 + f(upper) / 2 + the interior samples), dx = (upper - lower) / n |
| Integrals.EmptyInterval | Converter/src/main/java/io/github/simplexdev/polarize/math/function/Integral.java:11-19 | an empty interval integrates to 0 |
| Integrals.ConstantInteriorSum | Converter/src/main/java/io/github/simplexdev/polarize/math/function/Integral.java:14-17 | the interior samples of a constant c add up to count times c |
| Integrals.ConstantIntegral | Converter/src/main/java/io/github/simplexdev/polarize/math/function/Integral.java:11-19 | for a whole number n >= 1 of subintervals, a constant c integrates to c (upper - lower): the rule is exact on constants |
| Integrals.GridOf | Converter/src/main/java/io/github/simplexdev/polarize/math/function/Integral.java:22-28 | the steps dx, dy and dz times the count span the box on each axis |
| Integrals.Weight | Converter/src/main/java/io/github/simplexdev/polarize/math/function/Integral.java:38-41 | the weight is the product of one end factor per axis: 1/2 at index 0 or n, 1 inside |
| Integrals.NodeAt | Converter/src/main/java/io/github/simplexdev/polarize/math/function/Integral.java:33-37 | a coordinate computed as start + i step is grid line i |
| Integrals.SampleAt | Converter/src/main/java/io/github/simplexdev/polarize/math/function/Integral.java:37-42 | the weighted sample the loop adds at (x, y, z) is the grid's term at (i, j, k) |
| Integrals.RowNext | Converter/src/main/java/io/github/simplexdev/polarize/math/function/Integral.java:36-43 | one more pass of the innermost loop adds the sample at k |
| Integrals.PlaneNext | Converter/src/main/java/io/github/simplexdev/polarize/math/function/Integral.java:34-44 | one more pass of the middle loop adds the row at j |
| Integrals.CubeNext | Converter/src/main/java/io/github/simplexdev/polarize/math/function/Integral.java:32-45 | one more pass of the outer loop adds the plane at i |
| Integrals.LoopExit | Converter/src/main/java/io/github/simplexdev/polarize/math/function/Integral.java:32-36 | a counter that has passed n has made all LineCount(n) passes |
| Integrals.RowIntegral | Converter/src/main/java/io/github/simplexdev/polarize/math/function/Integral.java:36-43 | the innermost loop adds up the weighted samples of row (i, j) |
| Integrals.WeightedSample | Converter/src/main/java/io/github/simplexdev/polarize/math/function/Integral.java:37-42 | one pass of the innermost loop computes the grid's weighted sample at (i, j, k) |
| Integrals.PlaneIntegral | Converter/src/main/java/io/github/simplexdev/polarize/math/function/Integral.java:34-44 | the middle loop adds up the rows of plane i |
| Integrals.Integrate3 | Converter/src/main/java/io/github/simplexdev/polarize/math/function/Integral.java:21-50 | for non-zero subIntervals, the 3-D integrate returns the weighted sum over the grid points times dx dy dz |
| Integrals.FlatBox | Converter/src/main/java/io/github/simplexdev/polarize/math/function/Integral.java:21-50 | a box with no extent along some axis integrates to 0 |
| Integrals.EdgeSumWhole | Converter/src/main/java/io/github/simplexdev/polarize/math/function/Integral.java:39-41 | for a whole n >= 1 the end factors over lines 0 .. n add up to n |
| Integrals.ConstantSample | Converter/src/main/java/io/github/simplexdev/polarize/math/function/Integral.java:38-42 | with a constant integrand c every weighted sample is c times the three end factors |
| Integrals.ConstantBox | Converter/src/main/java/io/github/simplexdev/polarize/math/function/Integral.java:21-50 | for a whole number n >= 1 of subintervals, a constant c integrates to c times the box volume |
| Integrals.WholeCube | Converter/src/main/java/io/github/simplexdev/polarize/math/function/Integral.java:32-45 | weighted constant samples over lines 0 .. n add up to c n^3 |
| Integrals.CubicBox | Converter/src/main/java/io/github/simplexdev/polarize/math/function/Integral.java:47 | a weighted sum of c n^3, scaled by dx dy dz, is c times the box volume |
| Integrals.VolumeScale | Converter/src/main/java/io/github/simplexdev/polarize/math/function/Integral.java:26-28 | c n^3 times the cell volume is c times the box volume when each side is n cells |
| GridSums.RowOfProduct | Converter/src/main/java/io/github/simplexdev/polarize/math/function/Integral.java:36-43 | a row of product samples c w(i) w(j) w(k) adds up to c w(i) w(j) times the sum of w |
| GridSums.PlaneOfProduct | Converter/src/main/java/io/github/simplexdev/polarize/math/function/Integral.java:34-44 | a plane of product samples adds up to c w(i) times the square of the sum of w |
| GridSums.CubeOfProduct | Converter/src/main/java/io/github/simplexdev/polarize/math/function/Integral.java:32-45 | the whole cube of product samples adds up to c times the cube of the sum of w |
| GridSums.CubeOfAgreeing | Converter/src/main/java/io/github/simplexdev/polarize/math/function/Integral.java:32-45 | samples that agree everywhere with a product add up to the same c A^3 |
| PointIntegrals.Integ | Converter/src/main/java/io/github/simplexdev/polarize/api/units/Point.java:200-202 | integ(double, subIntervals, f) is the trapezoid rule from the point's value to the given value |
| PointIntegrals.IntegTo | Converter/src/main/java/io/github/simplexdev/polarize/api/units/Point.java:212-214 | integ(Point, subIntervals, f) is the trapezoid rule up to the other point's value |
| PointIntegrals.MirrorNode | Converter/src/main/java/io/github/simplexdev/polarize/math/function/Integral.java:15 | walking back from a + n dx by -dx, line m is line n - m from a |
| PointIntegrals.ReflectedSum | Converter/src/main/java/io/github/simplexdev/polarize/math/function/Integral.java:14-17 | the first m interior samples walked back from a + n dx are the last m walked forward from a |
| PointIntegrals.IntegReverses | Converter/src/main/java/io/github/simplexdev/polarize/api/units/Point.java:200-214 | for a whole number of subintervals, integrating from b to a gives the negated integral from a to b |
| PointIntegrals.ReflectedWhole | Converter/src/main/java/io/github/simplexdev/polarize/math/function/Integral.java:14-17 | all interior samples walked back from b are those walked forward from a |
| PointIntegrals.SpacingReverses | Converter/src/main/java/io/github/simplexdev/polarize/math/function/Integral.java:12 | n steps of (b - a) / n lead from a to b, and the reverse step is the negation |
| PointIntegrals.TrapezoidForm | Converter/src/main/java/io/github/simplexdev/polarize/math/function/Integral.java:11-19 | the trapezoid rule is dx times the half-weighted ends plus the interior sum |
| PointIntegrals.IntegToSelf | Converter/src/main/java/io/github/simplexdev/polarize/api/units/Point.java:200-214 | integrating from a point to its own value gives 0 |
| FibonacciLattices.GoldenRatio | Converter/src/main/java/io/github/simplexdev/polarize/math/function/FibonacciLattice.java:14 | goldenRatio = (1 + sqrt 5) / 2 is at least 1/2, given that Math.sqrt(5) is non-negative |
| FibonacciLattices.Samples | Converter/src/main/java/io/github/simplexdev/polarize/math/function/FibonacciLattice.java:16-24 | the first k lattice points in visiting order are k points |
| FibonacciLattices.SampleAt | Converter/src/main/java/io/github/simplexdev/polarize/math/function/FibonacciLattice.java:16-24 | sample n is origin.add of the direction at the n-th counter value 0 + n step |
| FibonacciLattices.PassPoint | Converter/src/main/java/io/github/simplexdev/polarize/math/function/FibonacciLattice.java:17-23 | one pass computes theta, phi and the coordinates and adds origin.add of that direction |
| FibonacciLattices.Populate | Converter/src/main/java/io/github/simplexdev/polarize/math/function/FibonacciLattice.java:12-27 | a negative radius yields no points; otherwise one point per pass of the counter 0, step, 2 step, ... <= radius, each the lattice point at that counter, in order |
| FibonacciLattices.UnitStepCount | Converter/src/main/java/io/github/simplexdev/polarize/math/function/FibonacciLattice.java:16 | with step 1 and radius >= 0 the loop makes radius + 1 passes |
| FibonacciLattices.HeightRange | Converter/src/main/java/io/github/simplexdev/polarize/math/function/FibonacciLattice.java:18 | the acos argument is at most 1, and at least -1 exactly when i + 1/2 <= radius |
| FibonacciLattices.LastHeightOutOfRange | Converter/src/main/java/io/github/simplexdev/polarize/math/function/FibonacciLattice.java:16-18 | as written, with step 1 the last pass has i = radius, and its acos argument -1 - 1/radius is below -1 |
| FibonacciLattices.HeightsEvenlySpaced | Converter/src/main/java/io/github/simplexdev/polarize/math/function/FibonacciLattice.java:18 | consecutive passes have acos arguments 2 step / radius apart |
| FibonacciLattices.DirectionIsUnit | Converter/src/main/java/io/github/simplexdev/polarize/math/function/FibonacciLattice.java:19-21 | every direction (cos theta sin phi, cos phi, sin theta sin phi) has unit length |
| FibonacciLattices.LatticeOnUnitSphere | Converter/src/main/java/io/github/simplexdev/polarize/math/function/FibonacciLattice.java:17-23 | every point populate adds at a counter whose acos argument lies in [-1, 1] (0 <= i and i + 1/2 <= radius) is at distance 1 from origin; the last pass is outside that range (see LastHeightOutOfRange) |
| FibonacciLattices.LatticeHeight | Converter/src/main/java/io/github/simplexdev/polarize/math/function/FibonacciLattice.java:18-20 | where the acos argument is in range, the point's height above origin is that argument |
| FibonacciLattices.PopulateCorrected | Converter/src/main/java/io/github/simplexdev/polarize/math/function/FibonacciLattice.java:12-27 | populate with the divisor radius + 1: the same passes, each point the lattice point for that divisor |
| FibonacciLattices.CorrectedHeightInRange | Converter/src/main/java/io/github/simplexdev/polarize/math/function/FibonacciLattice.java:18 | with the divisor radius + 1 every pass has its acos argument strictly inside (-1, 1) |
| FibonacciLattices.CorrectedLatticePoints | Converter/src/main/java/io/github/simplexdev/polarize/math/function/FibonacciLattice.java:17-23 | every corrected point is a unit direction from origin whose height is its acos argument |
| FibonacciLattices.CorrectedPopulateOnSphere | Converter/src/main/java/io/github/simplexdev/polarize/math/function/FibonacciLattice.java:12-27 | every point of the corrected populate is a unit direction from origin whose height is its acos argument |
| DoubleCounters.CounterValue | Converter/src/main/java/io/github/simplexdev/polarize/math/function/FibonacciLattice.java:16 | after n increments `i += step` the counter is start + n step |
| DoubleCounters.ScaleOrder | Converter/src/main/java/io/github/simplexdev/polarize/math/function/FibonacciLattice.java:16 | multiplying by a positive step keeps order, strict or not |
| DoubleCounters.PassesExactly | Converter/src/main/java/io/github/simplexdev/polarize/math/function/FibonacciLattice.java:16 | with a positive step the loop test passes on the n-th counter value exactly when n is below the pass count |
| DoubleCounters.PassesAt | Converter/src/main/java/io/github/simplexdev/polarize/math/function/ArchimedeanSpiral.java:29 | the same, with the counter written as start + n step |
| ArchimedeanSpirals.NewArchimedeanSpiral | Converter/src/main/java/io/github/simplexdev/polarize/math/function/ArchimedeanSpiral.java:18-24 | the constructor keeps origin, step and theta, and fixes radius = origin + step * zenith |
| ArchimedeanSpirals.ArchimedeanSpiral.Drawn | Converter/src/main/java/io/github/simplexdev/polarize/math/function/ArchimedeanSpiral.java:26-35 | start followed by k drawn points is k + 1 points beginning with start |
| ArchimedeanSpirals.ArchimedeanSpiral.GetPoints | Converter/src/main/java/io/github/simplexdev/polarize/math/function/ArchimedeanSpiral.java:26-35 | getPoints yields start and then one point per angle origin, origin + step, ... below the zenith, in order |
| ArchimedeanSpirals.ArchimedeanSpiral.SpiralDrawn | Converter/src/main/java/io/github/simplexdev/polarize/math/function/ArchimedeanSpiral.java:26-35 | start followed by k corrected points is k + 1 points beginning with start |
| ArchimedeanSpirals.ArchimedeanSpiral.GetSpiralPoints | Converter/src/main/java/io/github/simplexdev/polarize/math/function/ArchimedeanSpiral.java:26-35 | the corrected getPoints visits the same angles, with the radius recomputed at each one |
| ArchimedeanSpirals.DrawnAt | Converter/src/main/java/io/github/simplexdev/polarize/math/function/ArchimedeanSpiral.java:29-32 | point n after start is drawn at the n-th angle |
| ArchimedeanSpirals.AnglesInRange | Converter/src/main/java/io/github/simplexdev/polarize/math/function/ArchimedeanSpiral.java:29 | every angle getPoints visits is at least origin and below the zenith |
| ArchimedeanSpirals.PointsOnCircle | Converter/src/main/java/io/github/simplexdev/polarize/math/function/ArchimedeanSpiral.java:30-32 | as written, every point after start lies at distance abs(radius) from it, whatever its angle |
| ArchimedeanSpirals.NoOutwardGrowth | Converter/src/main/java/io/github/simplexdev/polarize/math/function/ArchimedeanSpiral.java:26-35 | as written, any two points after start are equally far from it: the points trace a circle |
| ArchimedeanSpirals.SpiralRadius | Converter/src/main/java/io/github/simplexdev/polarize/math/function/ArchimedeanSpiral.java:30-32 | corrected, the point at angle a lies at distance abs(origin + step a) from start |
| ArchimedeanSpirals.SpiralDrawnAt | Converter/src/main/java/io/github/simplexdev/polarize/math/function/ArchimedeanSpiral.java:29-32 | corrected point n after start is drawn at the n-th angle |
| ArchimedeanSpirals.SpiralMovesOutward | Converter/src/main/java/io/github/simplexdev/polarize/math/function/ArchimedeanSpiral.java:26-35 | corrected, with a positive step and a non-negative starting radius each point lies strictly farther from start than the one before |
| ArchimedeanSpirals.CounterFromOrigin | Converter/src/main/java/io/github/simplexdev/polarize/math/function/ArchimedeanSpiral.java:29 | with a positive step the counter never falls below origin and each increment adds step |
| ArchimedeanSpirals.GrowingSquare | Converter/src/main/java/io/github/simplexdev/polarize/math/function/ArchimedeanSpiral.java:23 | the radius origin + step a is non-negative from origin on and grows strictly by step |
| CaravanPoints.Point.constructor | Caravan/src/main/java/io/github/simplexdev/caravan/spatial/Point.java:12-19 | Point(x, y, z) keeps the coordinates and starts all offsets at 0 |
| CaravanPoints.Point.WithOffsets | Caravan/src/main/java/io/github/simplexdev/caravan/spatial/Point.java:21-28 | the six-argument constructor keeps all six values |
| CaravanPoints.Point.SetXOffset | Caravan/src/main/java/io/github/simplexdev/caravan/spatial/Point.java:46-48 | setXOffset changes only the x offset |
| CaravanPoints.Point.SetYOffset | Caravan/src/main/java/io/github/simplexdev/caravan/spatial/Point.java:54-56 | setYOffset changes only the y offset |
| CaravanPoints.Point.SetZOffset | Caravan/src/main/java/io/github/simplexdev/caravan/spatial/Point.java:62-64 | setZOffset changes only the z offset |
| CaravanPoints.Point.GetX | Caravan/src/main/java/io/github/simplexdev/caravan/spatial/Point.java:30-32 | getX returns the final x coordinate the constructor stored |
| CaravanPoints.Point.GetY | Caravan/src/main/java/io/github/simplexdev/caravan/spatial/Point.java:34-36 | getY returns the final y coordinate the constructor stored |
| CaravanPoints.Point.GetZ | Caravan/src/main/java/io/github/simplexdev/caravan/spatial/Point.java:38-40 | getZ returns the final z coordinate the constructor stored |
| CaravanPoints.Point.GetXOffset | Caravan/src/main/java/io/github/simplexdev/caravan/spatial/Point.java:42-44 | getXOffset returns the x offset last set, 0 after construction (the constructor's and setters' ensures fix its value) |
| CaravanPoints.Point.GetYOffset | Caravan/src/main/java/io/github/simplexdev/caravan/spatial/Point.java:50-52 | getYOffset returns the y offset last set, 0 after construction |
| CaravanPoints.Point.GetZOffset | Caravan/src/main/java/io/github/simplexdev/caravan/spatial/Point.java:58-60 | getZOffset returns the z offset last set, 0 after construction |
| GenericCurves.MembersIn | Caravan/src/main/java/io/github/simplexdev/caravan/api/curve/GenericCurve.java:22-24 | membership in the ordered set and in its set of members agree |
| GenericCurves.MembersAppend | Caravan/src/main/java/io/github/simplexdev/caravan/api/curve/GenericCurve.java:10-12 | appending a point adds it to the members |
| GenericCurves.Added | Caravan/src/main/java/io/github/simplexdev/caravan/api/curve/GenericCurve.java:10-12 | add keeps the set duplicate-free and gains p: appended at the end when absent, otherwise nothing changes |
| GenericCurves.Removed | Caravan/src/main/java/io/github/simplexdev/caravan/api/curve/GenericCurve.java:14-16 | remove loses exactly p, stays duplicate-free and changes nothing when p is absent; on a duplicate-free set that holds p the result is the set with p's position cut out, every other point in its order |
| GenericCurves.AddedAll | Caravan/src/main/java/io/github/simplexdev/caravan/api/curve/GenericCurve.java:26-30 | adding several points gains exactly their members and keeps the existing ones first, in order |
| GenericCurves.RemoveUndoesAdd | Caravan/src/main/java/io/github/simplexdev/caravan/api/curve/GenericCurve.java:10-16 | removing a point just added to a set without it restores the set, order included |
| GenericCurves.AddAllIdempotent | Caravan/src/main/java/io/github/simplexdev/caravan/api/curve/GenericCurve.java:26-30 | adding the same points a second time changes nothing |
| GenericCurves.AlreadyMembers | Caravan/src/main/java/io/github/simplexdev/caravan/api/curve/GenericCurve.java:26-30 | adding points that are all members already changes nothing |
| GenericCurves.GenericCurve.AddPoint | Caravan/src/main/java/io/github/simplexdev/caravan/api/curve/GenericCurve.java:10-12 | addPoint makes the point a member and updates the set as Added |
| GenericCurves.GenericCurve.RemovePoint | Caravan/src/main/java/io/github/simplexdev/caravan/api/curve/GenericCurve.java:14-16 | removePoint leaves the point out and updates the set as Removed |
| GenericCurves.GenericCurve.ClearPoints | Caravan/src/main/java/io/github/simplexdev/caravan/api/curve/GenericCurve.java:18-20 | clearPoints empties the set |
| GenericCurves.GenericCurve.ContainsPoint | Caravan/src/main/java/io/github/simplexdev/caravan/api/curve/GenericCurve.java:22-24 | containsPoint answers whether the point is a member of the set |
| GenericCurves.RemoveLast | Caravan/src/main/java/io/github/simplexdev/caravan/api/curve/GenericCurve.java:14-16 | removing the last point of a duplicate-free set cuts out that position |
| GenericCurves.RemoveInner | Caravan/src/main/java/io/github/simplexdev/caravan/api/curve/GenericCurve.java:14-16 | removing p before a different last point and keeping that point cuts out p's position in the whole set |
| GenericCurves.GenericCurve.AddPoints | Caravan/src/main/java/io/github/simplexdev/caravan/api/curve/GenericCurve.java:26-30 | addPoints adds each point in turn: the set becomes AddedAll of the old set |
| Helices.Helix.GetZ | Caravan/src/main/java/io/github/simplexdev/caravan/api/curve/Helix.java:18-20 | the height at position 0 is 0 |
| Helices.Helix.ToPoint | Caravan/src/main/java/io/github/simplexdev/caravan/api/curve/Helix.java:22-24 | toPoint is a new point at (getX, getY, getZ) with zero offsets |
| Helices.OnCylinder | Caravan/src/main/java/io/github/simplexdev/caravan/api/curve/Helix.java:10-16 | every position lies on the cylinder of the helix's radius around the z axis |
| Helices.RiseIsLinear | Caravan/src/main/java/io/github/simplexdev/caravan/api/curve/Helix.java:18-20 | the height is linear in the position, so every turn rises equally |
| Helices.Helix.GetX | Caravan/src/main/java/io/github/simplexdev/caravan/api/curve/Helix.java:10-12 | getX at position 0 is the radius |
| Helices.Helix.GetY | Caravan/src/main/java/io/github/simplexdev/caravan/api/curve/Helix.java:14-16 | getY at position 0 is 0 |

## Left out

- Floating point: IEEE-754 rounding, NaN, infinities and signed zero are not modelled. Doubles are exact reals, so identities such as `normalize` giving magnitude exactly 1 hold in the model but only approximately in Java.
- Double loop counters are exact reals. A counter that stops advancing because of rounding, for example a tiny step added to a large value, is not modelled.
- `sin`, `cos`, `acos`, `atan2`, `sqrt` and `pow` are uninterpreted. Only the laws in `JavaMath` are known about them: sin^2 + cos^2 = 1, the values at 0, the square root of a non-negative number, acos as a right inverse of cos on [-1, 1] whose sine is non-negative there (acos lies in [0, pi]), acos as a left inverse of cos on [0, pi], atan2 as the angle of a point, and pow's documented results for an exponent of 0 or 1. Nothing else is known about `Math.pow`.
- The Theta, Phi and Radius suppliers are the values they supply. An IScalar argument contributes only its magnitude.
- Helix is an interface whose radius and distance come from the implementing class; the model makes it a value holding both. Its `GenericCurve` inheritance is not modelled, because the Helix formulas never touch the linked points.
- GenericCurves.GenericCurve: in Java `linkedPoints()` is an abstract accessor that every default method goes through, so an implementing class decides where the set lives. The model stores the set in one field of the class, so it does not capture an implementation that returns a different set on each call or shares one set between curves.
- The Converter `Vertex` and `IPoint3D.move`, the Torus curve, `Mapper`, the `Caravan` singleton, the Paper `DataConverter`, the logger calls in `drawLine`, and the test sources are not part of this model. None of them computes anything the modelled operations use.
- The Interpolator generators are not modelled for a step below 1. With an int counter such a loop never ends, so the generators require `step >= 1`; `Interpolator.SmallStepNeverExits` proves the stall. The loop bounds are at most 8 radians, so counters never reach the int limit.
- Interpolator.PolarSweep: requires a bound between 0 and 8, which covers the five RADIAN constants the generators use.
- Quaternions.Quaternion.Normalize: requires a non-zero magnitude. The interface documents an ArithmeticException, but the code divides without a guard and never throws.
- Quaternions.Quaternion.Inverse: requires a non-zero magnitude, for the same reason as `Normalize`.
- Spatial.Point.DivideValue: requires a non-zero divisor. Java would return an infinity or NaN.
- Spatial.Point3D.DrawLine: requires a non-zero numPoints, because 0 / 0 is NaN. A negative count yields no points, as in Java.
- Polarizer.ToSphericalUnit3: requires a non-zero magnitude, because y / radius is unguarded. The same holds for the CartesianUnit overload, and the vector overload requires a non-zero vector length.
- Polarizer.ToAxisAngle: requires -1 <= w <= 1. Outside that range `acos` and `sqrt` give NaN.
- Polarizer.ToQuaternion: in the Converter copy `toQuaternion` is an instance method of `Polarizer`, whose only constructor is private and throws `AssertionError` (Polarizer.java:23-25), so no caller can reach it. The model treats it, and `Polarizer.ToQuaternionAsWritten`, as static functions.
- Polarizer.AxisAngleRoundTrip: the near-identity branch does not give the axis back. For sin(a/2) below the threshold the code keeps the vector part, which is the axis scaled by sin(a/2), and the lemma states that instead. The exact angle needs the angle in [0, 2 pi] and the acos-of-cos law, as `Polarizer.AxisAngleRoundTripExact` states.
- Integrals.Integrate: requires a non-zero subIntervals, and so do `Integrals.Integrate3` and both `Point.integ` overloads, because the step divides by it.
- FibonacciLattices.Populate: requires a non-zero radius, because the acos argument divides by it. It also requires a positive step unless the radius is negative, since otherwise the loop never ends. It relies on `Math.sqrt(5)` being non-negative.
- ArchimedeanSpirals.ArchimedeanSpiral.GetPoints: requires a positive step unless origin is already at or past the zenith. Otherwise the loop never ends.
- Vectors.CartesianVector.GetAngle: requires both lengths to be non-zero, because the code divides by their product. Its value is an uninterpreted `acos`: its contract ties the cosine of the angle to the dot product, and `Vectors.AngleSymmetric` states its symmetry.

## Findings

| source | as written | input that shows it | evidently intended | confidence | as-written member | corrected member |
|---|---|---|---|---|---|---|
| Converter/src/main/java/io/github/simplexdev/polarize/util/Polarizer.java:270-275 | toSphericalUnit takes phi = atan2(x, z), but toCartesianUnit rebuilds x with cos(phi), so the round trip returns (z, y, x) | (1, 0, 0) converts to radius 1, theta pi/2, phi pi/2, and back to (0, 0, 1) | phi = atan2(z, x), as the documentation of toCartesianUnit describes, so the round trip returns (x, y, z) | not executed | Polarizer.SphericalRoundTripSwaps | Polarizer.SphericalRoundTrip |
| Converter/src/main/java/io/github/simplexdev/polarize/util/Polarizer.java:333-341 | toQuaternion passes (x sin(a/2), y sin(a/2), z sin(a/2), cos(a/2)) to the (w, x, y, z) constructor | axis (1, 0, 0) with angle 0 gives (0, 0, 0, 1), not the identity (1, 0, 0, 0) | w = cos(a/2) and (x, y, z) sin(a/2); the wrong order is in the text of an instance method of a class that cannot be instantiated, so no caller can reach it | not executed | Polarizer.ToQuaternionAsWrittenZeroAngle | Polarizer.ToQuaternionZeroAngle |
| Converter/src/main/java/io/github/simplexdev/polarize/math/function/FibonacciLattice.java:16-18 | the counter runs up to radius inclusive, but the acos argument divides by radius, so the last argument is -1 - 1/radius | radius 1 and step 1: at i = 1 the argument is -2, and Math.acos gives NaN | divide by radius + 1, the number of passes, so every argument lies inside (-1, 1) and every point is on the unit sphere | not executed | FibonacciLattices.LastHeightOutOfRange | FibonacciLattices.CorrectedPopulateOnSphere |
| Converter/src/main/java/io/github/simplexdev/polarize/math/function/ArchimedeanSpiral.java:23-32 | the radius is fixed once in the constructor, so every point getPoints adds lies at the same distance from start | origin 1, step 1, zenith 3: radius 4, and the points at angles 1 and 2 are both at distance 4 | an Archimedean spiral's radius origin + step * angle, recomputed at every angle, so the points move outward | not executed | ArchimedeanSpirals.NoOutwardGrowth | ArchimedeanSpirals.SpiralMovesOutward |
