/** The quaternion library of the motion-capture player: the Hamilton
    product, the conjugate, rotation of a vector quaternion by
    sandwiching, axis-angle construction and the composition of three
    axis rotations in a given rotation order. Scalars are real numbers. */
module QuaternionUtils {

  import RealIdentities

  /** A quaternion x*i + y*j + z*k + w, stored like Unity's Vector4. */
  datatype Quaternion = Quaternion(x: real, y: real, z: real, w: real)

  /** A 3-vector (Unity's Vector3). */
  datatype Vector3 = Vector3(x: real, y: real, z: real)

  /** An integer triple (Unity's Vector3Int). As a rotation order, entry x
      is the step at which the X rotation is folded in, and so on. */
  datatype Vector3Int = Vector3Int(x: int, y: int, z: int)

  /** Unity's own rotation order: the Z rotation is multiplied in first,
      then X, then Y, giving Z*X*Y, which rotates a vector about Y first,
      then X, then Z. */
  const UNITY_ROTATION_ORDER: Vector3Int := Vector3Int(1, 2, 0)

  /** The identity quaternion (0, 0, 0, 1). */
  const Identity: Quaternion := Quaternion(0.0, 0.0, 0.0, 1.0)

  /** The imaginary units i, j and k. */
  const UnitI: Quaternion := Quaternion(1.0, 0.0, 0.0, 0.0)
  const UnitJ: Quaternion := Quaternion(0.0, 1.0, 0.0, 0.0)
  const UnitK: Quaternion := Quaternion(0.0, 0.0, 1.0, 0.0)

  // ---------------------------------------------------------------------
  // The algebra

  /** Hamilton product q1 * q2. */
  function Multiply(q1: Quaternion, q2: Quaternion): Quaternion {
    Quaternion(
      q1.w*q2.x + q1.x*q2.w + q1.y*q2.z - q1.z*q2.y,
      q1.w*q2.y + q1.y*q2.w + q1.z*q2.x - q1.x*q2.z,
      q1.w*q2.z + q1.z*q2.w + q1.x*q2.y - q1.y*q2.x,
      q1.w*q2.w - q1.x*q2.x - q1.y*q2.y - q1.z*q2.z)
  }

  /** The conjugate: the vector part negated, w kept. */
  function Conjugate(q: Quaternion): Quaternion {
    Quaternion(-q.x, -q.y, -q.z, q.w)
  }

  /** q * v * conjugate(q): v rotated by q when q is a unit quaternion and
      v a vector (pure) quaternion. */
  function HamiltonProduct(q: Quaternion, v: Quaternion): Quaternion {
    Multiply(Multiply(q, v), Conjugate(q))
  }

  /** The squared norm x^2 + y^2 + z^2 + w^2. */
  function NormSquared(q: Quaternion): real {
    q.x*q.x + q.y*q.y + q.z*q.z + q.w*q.w
  }

  // ---------------------------------------------------------------------
  // Vectors, and the scalar-vector reading of a quaternion

  const Zero3: Vector3 := Vector3(0.0, 0.0, 0.0)

  function Dot(a: Vector3, b: Vector3): real {
    a.x*b.x + a.y*b.y + a.z*b.z
  }

  function Cross(a: Vector3, b: Vector3): Vector3 {
    Vector3(a.y*b.z - a.z*b.y, a.z*b.x - a.x*b.z, a.x*b.y - a.y*b.x)
  }

  function Add(a: Vector3, b: Vector3): Vector3 {
    Vector3(a.x + b.x, a.y + b.y, a.z + b.z)
  }

  function Scale(s: real, a: Vector3): Vector3 {
    Vector3(s*a.x, s*a.y, s*a.z)
  }

  function VectorPart(q: Quaternion): Vector3 {
    Vector3(q.x, q.y, q.z)
  }

  function FromParts(v: Vector3, s: real): Quaternion {
    Quaternion(v.x, v.y, v.z, s)
  }

  /** The textbook scalar-vector formula for a Hamilton product:
      (s1, v1) * (s2, v2) = (s1 s2 - v1.v2, s1 v2 + s2 v1 + v1 x v2). */
  function ScalarVectorProduct(q1: Quaternion, q2: Quaternion): Quaternion {
    var v1, v2 := VectorPart(q1), VectorPart(q2);
    FromParts(Add(Add(Scale(q1.w, v2), Scale(q2.w, v1)), Cross(v1, v2)),
              q1.w*q2.w - Dot(v1, v2))
  }

  /** The textbook rotation of the vector v by the quaternion q with
      vector part u: (w^2 - u.u) v + 2 (u.v) u + 2 w (u x v). */
  function RotatedVector(q: Quaternion, v: Vector3): Vector3 {
    var u := VectorPart(q);
    Add(Add(Scale(q.w*q.w - Dot(u, u), v), Scale(2.0*Dot(u, v), u)),
        Scale(2.0*q.w, Cross(u, v)))
  }

  // ---------------------------------------------------------------------
  // Lemmas about the algebra

  /** The accumulator's seed (0, 0, 0, 1) is neutral on both sides. */
  lemma MultiplyIdentity(q: Quaternion)
    ensures Multiply(Identity, q) == q
    ensures Multiply(q, Identity) == q
  {
  }

  /** Multiply agrees with the scalar-vector formula. */
  lemma MultiplyIsScalarVectorProduct(q1: Quaternion, q2: Quaternion)
    ensures Multiply(q1, q2) == ScalarVectorProduct(q1, q2)
  {
  }

  /** The product does not commute: i * j = k but j * i = -k. */
  lemma MultiplyNotCommutative()
    ensures Multiply(UnitI, UnitJ) == UnitK
    ensures Multiply(UnitJ, UnitI) == Quaternion(0.0, 0.0, -1.0, 0.0)
  {
    assert Multiply(UnitI, UnitJ) == UnitK;
  }

  // Associativity: each grouping expanded one component at a time, the
  // identity itself over plain reals.

  lemma LeftGroupingX(a: Quaternion, b: Quaternion, c: Quaternion)
    ensures Multiply(Multiply(a, b), c).x
         == (a.w*b.w - a.x*b.x - a.y*b.y - a.z*b.z)*c.x + (a.w*b.x + a.x*b.w + a.y*b.z - a.z*b.y)*c.w + (a.w*b.y + a.y*b.w + a.z*b.x - a.x*b.z)*c.z - (a.w*b.z + a.z*b.w + a.x*b.y - a.y*b.x)*c.y
  {
  }

  lemma LeftGroupingY(a: Quaternion, b: Quaternion, c: Quaternion)
    ensures Multiply(Multiply(a, b), c).y
         == (a.w*b.w - a.x*b.x - a.y*b.y - a.z*b.z)*c.y + (a.w*b.y + a.y*b.w + a.z*b.x - a.x*b.z)*c.w + (a.w*b.z + a.z*b.w + a.x*b.y - a.y*b.x)*c.x - (a.w*b.x + a.x*b.w + a.y*b.z - a.z*b.y)*c.z
  {
  }

  lemma LeftGroupingZ(a: Quaternion, b: Quaternion, c: Quaternion)
    ensures Multiply(Multiply(a, b), c).z
         == (a.w*b.w - a.x*b.x - a.y*b.y - a.z*b.z)*c.z + (a.w*b.z + a.z*b.w + a.x*b.y - a.y*b.x)*c.w + (a.w*b.x + a.x*b.w + a.y*b.z - a.z*b.y)*c.y - (a.w*b.y + a.y*b.w + a.z*b.x - a.x*b.z)*c.x
  {
  }

  lemma LeftGroupingW(a: Quaternion, b: Quaternion, c: Quaternion)
    ensures Multiply(Multiply(a, b), c).w
         == (a.w*b.w - a.x*b.x - a.y*b.y - a.z*b.z)*c.w - (a.w*b.x + a.x*b.w + a.y*b.z - a.z*b.y)*c.x - (a.w*b.y + a.y*b.w + a.z*b.x - a.x*b.z)*c.y - (a.w*b.z + a.z*b.w + a.x*b.y - a.y*b.x)*c.z
  {
  }

  lemma RightGroupingX(a: Quaternion, b: Quaternion, c: Quaternion)
    ensures Multiply(a, Multiply(b, c)).x
         == a.w*(b.w*c.x + b.x*c.w + b.y*c.z - b.z*c.y) + a.x*(b.w*c.w - b.x*c.x - b.y*c.y - b.z*c.z) + a.y*(b.w*c.z + b.z*c.w + b.x*c.y - b.y*c.x) - a.z*(b.w*c.y + b.y*c.w + b.z*c.x - b.x*c.z)
  {
  }

  lemma RightGroupingY(a: Quaternion, b: Quaternion, c: Quaternion)
    ensures Multiply(a, Multiply(b, c)).y
         == a.w*(b.w*c.y + b.y*c.w + b.z*c.x - b.x*c.z) + a.y*(b.w*c.w - b.x*c.x - b.y*c.y - b.z*c.z) + a.z*(b.w*c.x + b.x*c.w + b.y*c.z - b.z*c.y) - a.x*(b.w*c.z + b.z*c.w + b.x*c.y - b.y*c.x)
  {
  }

  lemma RightGroupingZ(a: Quaternion, b: Quaternion, c: Quaternion)
    ensures Multiply(a, Multiply(b, c)).z
         == a.w*(b.w*c.z + b.z*c.w + b.x*c.y - b.y*c.x) + a.z*(b.w*c.w - b.x*c.x - b.y*c.y - b.z*c.z) + a.x*(b.w*c.y + b.y*c.w + b.z*c.x - b.x*c.z) - a.y*(b.w*c.x + b.x*c.w + b.y*c.z - b.z*c.y)
  {
  }

  lemma RightGroupingW(a: Quaternion, b: Quaternion, c: Quaternion)
    ensures Multiply(a, Multiply(b, c)).w
         == a.w*(b.w*c.w - b.x*c.x - b.y*c.y - b.z*c.z) - a.x*(b.w*c.x + b.x*c.w + b.y*c.z - b.z*c.y) - a.y*(b.w*c.y + b.y*c.w + b.z*c.x - b.x*c.z) - a.z*(b.w*c.z + b.z*c.w + b.x*c.y - b.y*c.x)
  {
  }

  /** The Hamilton product is associative. */
  lemma MultiplyAssociative(a: Quaternion, b: Quaternion, c: Quaternion)
    ensures Multiply(Multiply(a, b), c) == Multiply(a, Multiply(b, c))
  {
    LeftGroupingX(a, b, c); LeftGroupingY(a, b, c);
    LeftGroupingZ(a, b, c); LeftGroupingW(a, b, c);
    RightGroupingX(a, b, c); RightGroupingY(a, b, c);
    RightGroupingZ(a, b, c); RightGroupingW(a, b, c);
    RealIdentities.AssociativeOverReals(a.x, a.y, a.z, a.w, b.x, b.y, b.z, b.w, c.x, c.y, c.z, c.w);
  }

  /** Conjugation is an involution that keeps w. */
  lemma ConjugateInvolution(q: Quaternion)
    ensures Conjugate(Conjugate(q)) == q
    ensures Conjugate(q).w == q.w
    ensures VectorPart(Conjugate(q)) == Scale(-1.0, VectorPart(q))
  {
  }

  // Conjugation reverses products, one component at a time.

  lemma ConjugateReversesProductX(a: Quaternion, b: Quaternion)
    ensures Conjugate(Multiply(a, b)).x == Multiply(Conjugate(b), Conjugate(a)).x
  {
    RealIdentities.ReversalOverRealsX(a.x, a.y, a.z, a.w, b.x, b.y, b.z, b.w);
  }

  lemma ConjugateReversesProductY(a: Quaternion, b: Quaternion)
    ensures Conjugate(Multiply(a, b)).y == Multiply(Conjugate(b), Conjugate(a)).y
  {
    RealIdentities.ReversalOverRealsY(a.x, a.y, a.z, a.w, b.x, b.y, b.z, b.w);
  }

  lemma ConjugateReversesProductZ(a: Quaternion, b: Quaternion)
    ensures Conjugate(Multiply(a, b)).z == Multiply(Conjugate(b), Conjugate(a)).z
  {
    RealIdentities.ReversalOverRealsZ(a.x, a.y, a.z, a.w, b.x, b.y, b.z, b.w);
  }

  lemma ConjugateReversesProductW(a: Quaternion, b: Quaternion)
    ensures Conjugate(Multiply(a, b)).w == Multiply(Conjugate(b), Conjugate(a)).w
  {
    RealIdentities.ReversalOverRealsW(a.x, a.y, a.z, a.w, b.x, b.y, b.z, b.w);
  }

  /** Conjugation reverses products. */
  lemma ConjugateReversesProduct(a: Quaternion, b: Quaternion)
    ensures Conjugate(Multiply(a, b)) == Multiply(Conjugate(b), Conjugate(a))
  {
    ConjugateReversesProductX(a, b);
    ConjugateReversesProductY(a, b);
    ConjugateReversesProductZ(a, b);
    ConjugateReversesProductW(a, b);
  }

  /** A quaternion times its conjugate (either way round) is the real number
      NormSquared(q). */
  lemma MultiplyByConjugate(q: Quaternion)
    ensures Multiply(q, Conjugate(q)) == Quaternion(0.0, 0.0, 0.0, NormSquared(q))
    ensures Multiply(Conjugate(q), q) == Quaternion(0.0, 0.0, 0.0, NormSquared(q))
  {
  }

  // The four-square identity, proved the same way.

  lemma NormOfProductExpanded(a: Quaternion, b: Quaternion)
    ensures NormSquared(Multiply(a, b))
         == (a.w*b.x + a.x*b.w + a.y*b.z - a.z*b.y)*(a.w*b.x + a.x*b.w + a.y*b.z - a.z*b.y) + (a.w*b.y + a.y*b.w + a.z*b.x - a.x*b.z)*(a.w*b.y + a.y*b.w + a.z*b.x - a.x*b.z) + (a.w*b.z + a.z*b.w + a.x*b.y - a.y*b.x)*(a.w*b.z + a.z*b.w + a.x*b.y - a.y*b.x) + (a.w*b.w - a.x*b.x - a.y*b.y - a.z*b.z)*(a.w*b.w - a.x*b.x - a.y*b.y - a.z*b.z)
  {
  }

  lemma ProductOfNormsExpanded(a: Quaternion, b: Quaternion)
    ensures NormSquared(a) * NormSquared(b)
         == (a.x*a.x + a.y*a.y + a.z*a.z + a.w*a.w) * (b.x*b.x + b.y*b.y + b.z*b.z + b.w*b.w)
  {
  }

  /** The norm is multiplicative (Euler's four-square identity), so a
      product of unit quaternions is a unit quaternion. */
  lemma NormSquaredMultiplicative(a: Quaternion, b: Quaternion)
    ensures NormSquared(Multiply(a, b)) == NormSquared(a) * NormSquared(b)
  {
    NormOfProductExpanded(a, b);
    ProductOfNormsExpanded(a, b);
    RealIdentities.FourSquareOverReals(a.x, a.y, a.z, a.w, b.x, b.y, b.z, b.w);
  }

  /** HamiltonProduct's left-to-right grouping equals the other grouping. */
  lemma HamiltonProductGrouping(q: Quaternion, v: Quaternion)
    ensures HamiltonProduct(q, v) == Multiply(q, Multiply(v, Conjugate(q)))
  {
    MultiplyAssociative(q, v, Conjugate(q));
  }

  lemma SandwichExpandedW(q: Quaternion, v: Quaternion)
    ensures HamiltonProduct(q, v).w
         == (q.w*v.w - q.x*v.x - q.y*v.y - q.z*v.z)*q.w - (q.w*v.x + q.x*v.w + q.y*v.z - q.z*v.y)*(-q.x) - (q.w*v.y + q.y*v.w + q.z*v.x - q.x*v.z)*(-q.y) - (q.w*v.z + q.z*v.w + q.x*v.y - q.y*v.x)*(-q.z)
  {
    var p, c := Multiply(q, v), Conjugate(q);
    assert p == Quaternion(q.w*v.x + q.x*v.w + q.y*v.z - q.z*v.y,
                           q.w*v.y + q.y*v.w + q.z*v.x - q.x*v.z,
                           q.w*v.z + q.z*v.w + q.x*v.y - q.y*v.x,
                           q.w*v.w - q.x*v.x - q.y*v.y - q.z*v.z);
    assert c == Quaternion(-q.x, -q.y, -q.z, q.w);
    assert HamiltonProduct(q, v) == Multiply(p, c);
  }

  lemma NormTimesExpanded(q: Quaternion, s: real)
    ensures NormSquared(q) * s == (q.x*q.x + q.y*q.y + q.z*q.z + q.w*q.w) * s
  {
  }

  /** The sandwich scales w by NormSquared(q), so a pure vector quaternion
      stays pure whatever q is. */
  lemma HamiltonProductKeepsPure(q: Quaternion, v: Quaternion)
    ensures HamiltonProduct(q, v).w == NormSquared(q) * v.w
    ensures v.w == 0.0 ==> HamiltonProduct(q, v).w == 0.0
  {
    SandwichExpandedW(q, v);
    NormTimesExpanded(q, v.w);
    RealIdentities.SandwichOverRealsW(q.x, q.y, q.z, q.w, v.x, v.y, v.z, v.w);
  }

  // The rotation formula, proved the same way.

  lemma SandwichExpandedX(q: Quaternion, v: Quaternion)
    ensures HamiltonProduct(q, v).x
         == (q.w*v.w - q.x*v.x - q.y*v.y - q.z*v.z)*(-q.x) + (q.w*v.x + q.x*v.w + q.y*v.z - q.z*v.y)*q.w + (q.w*v.y + q.y*v.w + q.z*v.x - q.x*v.z)*(-q.z) - (q.w*v.z + q.z*v.w + q.x*v.y - q.y*v.x)*(-q.y)
  {
    var p, c := Multiply(q, v), Conjugate(q);
    assert p == Quaternion(q.w*v.x + q.x*v.w + q.y*v.z - q.z*v.y,
                           q.w*v.y + q.y*v.w + q.z*v.x - q.x*v.z,
                           q.w*v.z + q.z*v.w + q.x*v.y - q.y*v.x,
                           q.w*v.w - q.x*v.x - q.y*v.y - q.z*v.z);
    assert c == Quaternion(-q.x, -q.y, -q.z, q.w);
    assert HamiltonProduct(q, v) == Multiply(p, c);
  }

  lemma SandwichExpandedY(q: Quaternion, v: Quaternion)
    ensures HamiltonProduct(q, v).y
         == (q.w*v.w - q.x*v.x - q.y*v.y - q.z*v.z)*(-q.y) + (q.w*v.y + q.y*v.w + q.z*v.x - q.x*v.z)*q.w + (q.w*v.z + q.z*v.w + q.x*v.y - q.y*v.x)*(-q.x) - (q.w*v.x + q.x*v.w + q.y*v.z - q.z*v.y)*(-q.z)
  {
    var p, c := Multiply(q, v), Conjugate(q);
    assert p == Quaternion(q.w*v.x + q.x*v.w + q.y*v.z - q.z*v.y,
                           q.w*v.y + q.y*v.w + q.z*v.x - q.x*v.z,
                           q.w*v.z + q.z*v.w + q.x*v.y - q.y*v.x,
                           q.w*v.w - q.x*v.x - q.y*v.y - q.z*v.z);
    assert c == Quaternion(-q.x, -q.y, -q.z, q.w);
    assert HamiltonProduct(q, v) == Multiply(p, c);
  }

  lemma SandwichExpandedZ(q: Quaternion, v: Quaternion)
    ensures HamiltonProduct(q, v).z
         == (q.w*v.w - q.x*v.x - q.y*v.y - q.z*v.z)*(-q.z) + (q.w*v.z + q.z*v.w + q.x*v.y - q.y*v.x)*q.w + (q.w*v.x + q.x*v.w + q.y*v.z - q.z*v.y)*(-q.y) - (q.w*v.y + q.y*v.w + q.z*v.x - q.x*v.z)*(-q.x)
  {
    var p, c := Multiply(q, v), Conjugate(q);
    assert p == Quaternion(q.w*v.x + q.x*v.w + q.y*v.z - q.z*v.y,
                           q.w*v.y + q.y*v.w + q.z*v.x - q.x*v.z,
                           q.w*v.z + q.z*v.w + q.x*v.y - q.y*v.x,
                           q.w*v.w - q.x*v.x - q.y*v.y - q.z*v.z);
    assert c == Quaternion(-q.x, -q.y, -q.z, q.w);
    assert HamiltonProduct(q, v) == Multiply(p, c);
  }

  lemma RotatedVectorExpandedX(q: Quaternion, v: Vector3)
    ensures RotatedVector(q, v).x
         == (q.w*q.w - (q.x*q.x + q.y*q.y + q.z*q.z))*v.x + (2.0*(q.x*v.x + q.y*v.y + q.z*v.z))*q.x + (2.0*q.w)*(q.y*v.z - q.z*v.y)
  {
  }

  lemma RotatedVectorExpandedY(q: Quaternion, v: Vector3)
    ensures RotatedVector(q, v).y
         == (q.w*q.w - (q.x*q.x + q.y*q.y + q.z*q.z))*v.y + (2.0*(q.x*v.x + q.y*v.y + q.z*v.z))*q.y + (2.0*q.w)*(q.z*v.x - q.x*v.z)
  {
  }

  lemma RotatedVectorExpandedZ(q: Quaternion, v: Vector3)
    ensures RotatedVector(q, v).z
         == (q.w*q.w - (q.x*q.x + q.y*q.y + q.z*q.z))*v.z + (2.0*(q.x*v.x + q.y*v.y + q.z*v.z))*q.z + (2.0*q.w)*(q.x*v.y - q.y*v.x)
  {
  }

  lemma HamiltonProductRotatesX(q: Quaternion, v: Quaternion)
    ensures HamiltonProduct(q, v).x == RotatedVector(q, VectorPart(v)).x
  {
    SandwichExpandedX(q, v);
    RotatedVectorExpandedX(q, VectorPart(v));
    RealIdentities.RotationOverRealsX(q.x, q.y, q.z, q.w, v.x, v.y, v.z, v.w);
  }

  lemma HamiltonProductRotatesY(q: Quaternion, v: Quaternion)
    ensures HamiltonProduct(q, v).y == RotatedVector(q, VectorPart(v)).y
  {
    SandwichExpandedY(q, v);
    RotatedVectorExpandedY(q, VectorPart(v));
    RealIdentities.RotationOverRealsY(q.x, q.y, q.z, q.w, v.x, v.y, v.z, v.w);
  }

  lemma HamiltonProductRotatesZ(q: Quaternion, v: Quaternion)
    ensures HamiltonProduct(q, v).z == RotatedVector(q, VectorPart(v)).z
  {
    SandwichExpandedZ(q, v);
    RotatedVectorExpandedZ(q, VectorPart(v));
    RealIdentities.RotationOverRealsZ(q.x, q.y, q.z, q.w, v.x, v.y, v.z, v.w);
  }

  /** The vector part of the sandwich is the textbook rotation formula. */
  lemma HamiltonProductRotates(q: Quaternion, v: Quaternion)
    ensures VectorPart(HamiltonProduct(q, v)) == RotatedVector(q, VectorPart(v))
  {
    HamiltonProductRotatesX(q, v);
    HamiltonProductRotatesY(q, v);
    HamiltonProductRotatesZ(q, v);
  }

  /** The identity rotation leaves every quaternion as it is. */
  lemma HamiltonProductIdentity(v: Quaternion)
    ensures HamiltonProduct(Identity, v) == v
  {
    var iv := Multiply(Identity, v);
    assert iv == v;
    assert Conjugate(Identity) == Identity;
    assert Multiply(iv, Identity) == iv;
  }

  /** Rotating by a product is rotating by the right factor, then by the
      left one. */
  lemma HamiltonProductComposes(a: Quaternion, b: Quaternion, v: Quaternion)
    ensures HamiltonProduct(Multiply(a, b), v) == HamiltonProduct(a, HamiltonProduct(b, v))
  {
    var ab, ca, cb := Multiply(a, b), Conjugate(a), Conjugate(b);
    ConjugateReversesProduct(a, b);
    calc {
      HamiltonProduct(ab, v);
      Multiply(Multiply(ab, v), Multiply(cb, ca));
      { MultiplyAssociative(a, b, v); }
      Multiply(Multiply(a, Multiply(b, v)), Multiply(cb, ca));
      { MultiplyAssociative(Multiply(a, Multiply(b, v)), cb, ca); }
      Multiply(Multiply(Multiply(a, Multiply(b, v)), cb), ca);
      { MultiplyAssociative(a, Multiply(b, v), cb); }
      Multiply(Multiply(a, Multiply(Multiply(b, v), cb)), ca);
      HamiltonProduct(a, HamiltonProduct(b, v));
    }
  }

  /** The sandwich scales the norm by NormSquared(q)^2, so a unit q keeps
      the length of the vector it rotates. */
  lemma HamiltonProductNorm(q: Quaternion, v: Quaternion)
    ensures NormSquared(HamiltonProduct(q, v))
            == NormSquared(q) * NormSquared(q) * NormSquared(v)
    ensures NormSquared(q) == 1.0 ==> NormSquared(HamiltonProduct(q, v)) == NormSquared(v)
  {
    NormSquaredMultiplicative(q, v);
    NormSquaredMultiplicative(Multiply(q, v), Conjugate(q));
    assert NormSquared(Conjugate(q)) == NormSquared(q);
  }

  // ---------------------------------------------------------------------
  // Axis-angle construction

  /** Unity's Vector3.right, Vector3.up and Vector3.forward. */
  const Right: Vector3 := Vector3(1.0, 0.0, 0.0)
  const Up: Vector3 := Vector3(0.0, 1.0, 0.0)
  const Forward: Vector3 := Vector3(0.0, 0.0, 1.0)

  /** Unity's Vector3.kEpsilon: Normalize sends a vector whose magnitude is
      at most this to the zero vector. */
  const NormalizeEpsilon: real := 0.00001

  /** Vector3.Normalize of v, given the magnitude of v (the square root
      itself is not computed here; the lemmas below take magnitude to be
      the non-negative root of Dot(v, v)). */
  function Normalized(v: Vector3, magnitude: real): Vector3 {
    if magnitude > NormalizeEpsilon then Scale(1.0 / magnitude, v) else Zero3
  }

  /** Normalize gives a unit vector in the direction of v, or the zero
      vector when v is too short. */
  lemma NormalizedIsUnit(v: Vector3, magnitude: real)
    requires 0.0 <= magnitude && magnitude * magnitude == Dot(v, v)
    ensures magnitude > NormalizeEpsilon ==>
              Dot(Normalized(v, magnitude), Normalized(v, magnitude)) == 1.0 &&
              Scale(magnitude, Normalized(v, magnitude)) == v
    ensures magnitude <= NormalizeEpsilon ==> Normalized(v, magnitude) == Zero3
  {
    if magnitude > NormalizeEpsilon {
      var n := Normalized(v, magnitude);
      assert Dot(n, n) * (magnitude * magnitude) == Dot(v, v);
    }
  }

  /** An angle theta, given by sin(theta/2) and cos(theta/2): the only two
      values AxisAngle takes from it. */
  datatype HalfAngle = HalfAngle(sin: real, cos: real)

  /** The angle 0. */
  const ZeroAngle: HalfAngle := HalfAngle(0.0, 1.0)

  /** The pair is the sine and cosine of one angle. */
  predicate IsAngle(h: HalfAngle) {
    h.sin*h.sin + h.cos*h.cos == 1.0
  }

  /** The rotation by theta about axis: (sin(theta/2) * axis, cos(theta/2))
      with axis normalized first. */
  function AxisAngle(axis: Vector3, magnitude: real, theta: HalfAngle): Quaternion {
    var n := Normalized(axis, magnitude);
    Quaternion(theta.sin * n.x, theta.sin * n.y, theta.sin * n.z, theta.cos)
  }

  /** The angle 0 gives the identity, whatever the axis. */
  lemma AxisAngleOfZero(axis: Vector3, magnitude: real)
    ensures AxisAngle(axis, magnitude, ZeroAngle) == Identity
  {
  }

  /** A genuine angle about a non-degenerate axis gives a unit quaternion
      whose vector part lies along the axis and whose w is cos(theta/2). */
  lemma AxisAngleIsUnit(axis: Vector3, magnitude: real, theta: HalfAngle)
    requires 0.0 <= magnitude && magnitude * magnitude == Dot(axis, axis)
    ensures AxisAngle(axis, magnitude, theta).w == theta.cos
    ensures Cross(VectorPart(AxisAngle(axis, magnitude, theta)), axis) == Zero3
    ensures IsAngle(theta) && magnitude > NormalizeEpsilon ==>
              NormSquared(AxisAngle(axis, magnitude, theta)) == 1.0
  {
    var n := Normalized(axis, magnitude);
    var q := AxisAngle(axis, magnitude, theta);
    NormalizedIsUnit(axis, magnitude);
    assert NormSquared(q) == theta.sin * theta.sin * Dot(n, n) + theta.cos * theta.cos;
  }

  /** The vector part is sin(theta/2) times the unit axis, in the axis's own
      direction (not its opposite); an axis no longer than Unity's epsilon
      gives no vector part at all. */
  lemma AxisAngleAlongAxis(axis: Vector3, magnitude: real, theta: HalfAngle)
    requires 0.0 <= magnitude && magnitude * magnitude == Dot(axis, axis)
    ensures magnitude > NormalizeEpsilon ==>
              Scale(magnitude, VectorPart(AxisAngle(axis, magnitude, theta))) == Scale(theta.sin, axis)
    ensures magnitude <= NormalizeEpsilon ==> VectorPart(AxisAngle(axis, magnitude, theta)) == Zero3
  {
    var n := Normalized(axis, magnitude);
    NormalizedIsUnit(axis, magnitude);
    assert VectorPart(AxisAngle(axis, magnitude, theta)) == Scale(theta.sin, n);
    if magnitude > NormalizeEpsilon {
      assert Scale(magnitude, n) == axis;
      assert magnitude * (theta.sin * n.x) == theta.sin * (magnitude * n.x);
      assert magnitude * (theta.sin * n.y) == theta.sin * (magnitude * n.y);
      assert magnitude * (theta.sin * n.z) == theta.sin * (magnitude * n.z);
    }
  }

  // ---------------------------------------------------------------------
  // Euler angles in a rotation order

  /** Euler angles, one per axis. */
  datatype EulerAngles = EulerAngles(x: HalfAngle, y: HalfAngle, z: HalfAngle)

  datatype Axis = X | Y | Z

  /** The step at which the rotation order folds in axis a. */
  function OrderEntry(order: Vector3Int, a: Axis): int {
    match a
    case X => order.x
    case Y => order.y
    case Z => order.z
  }

  /** The axis folded in at step i: X if its entry is i, else Y if its entry
      is i, else Z. */
  function AxisAtStep(order: Vector3Int, i: int): Axis {
    if order.x == i then X else if order.y == i then Y else Z
  }

  /** Each entry is 0, 1 or 2, and no two are equal. */
  predicate IsPermutation(order: Vector3Int) {
    0 <= order.x < 3 && 0 <= order.y < 3 && 0 <= order.z < 3 &&
    order.x != order.y && order.y != order.z && order.x != order.z
  }

  function AxisVector(a: Axis): Vector3 {
    match a
    case X => Right
    case Y => Up
    case Z => Forward
  }

  function AxisAngleOf(euler: EulerAngles, a: Axis): HalfAngle {
    match a
    case X => euler.x
    case Y => euler.y
    case Z => euler.z
  }

  /** The rotation about axis a by that axis's Euler angle. */
  function AxisQuaternion(euler: EulerAngles, a: Axis): Quaternion {
    AxisAngle(AxisVector(a), 1.0, AxisAngleOf(euler, a))
  }

  /** The accumulator after n steps of the fold: the identity multiplied on
      the right by the axis rotations of steps 0 .. n-1. */
  ghost function Folded(euler: EulerAngles, order: Vector3Int, n: nat): Quaternion
    requires n <= 3
  {
    if n == 0 then Identity
    else Multiply(Folded(euler, order, n - 1), AxisQuaternion(euler, AxisAtStep(order, n - 1)))
  }

  /** The rotation FromEuler builds, before normalization. */
  function EulerProduct(euler: EulerAngles, order: Vector3Int): Quaternion {
    Multiply(Multiply(Multiply(Identity, AxisQuaternion(euler, AxisAtStep(order, 0))),
                      AxisQuaternion(euler, AxisAtStep(order, 1))),
             AxisQuaternion(euler, AxisAtStep(order, 2)))
  }

  /** The rotation for the given Euler angles applied in the given rotation
      order: starting from the identity, the axis rotation of each step
      0, 1, 2 is multiplied in on the right. Returns the accumulator before
      normalization. */
  method FromEuler(euler: EulerAngles, rotationOrder: Vector3Int) returns (rotationVec: Quaternion)
    ensures rotationVec == EulerProduct(euler, rotationOrder)
  {
    var axisAngX := AxisAngle(Right, 1.0, euler.x);
    var axisAngY := AxisAngle(Up, 1.0, euler.y);
    var axisAngZ := AxisAngle(Forward, 1.0, euler.z);

    rotationVec := Identity;
    for i := 0 to 3
      invariant rotationVec == Folded(euler, rotationOrder, i)
    {
      var rotateAng := if rotationOrder.x == i then axisAngX
                       else if rotationOrder.y == i then axisAngY
                       else axisAngZ;
      assert rotateAng == AxisQuaternion(euler, AxisAtStep(rotationOrder, i));
      rotationVec := Multiply(rotationVec, rotateAng);
    }
    assert Folded(euler, rotationOrder, 1)
        == Multiply(Identity, AxisQuaternion(euler, AxisAtStep(rotationOrder, 0)));
    assert Folded(euler, rotationOrder, 3) == EulerProduct(euler, rotationOrder);
  }

  // ---------------------------------------------------------------------
  // Lemmas about the rotation order

  /** The dispatch of one step, with its fallback to Z. */
  lemma AxisAtStepDispatch(order: Vector3Int, i: int)
    ensures AxisAtStep(order, i) == X <==> order.x == i
    ensures AxisAtStep(order, i) == Y <==> order.x != i && order.y == i
    ensures AxisAtStep(order, i) == Z <==> order.x != i && order.y != i
  {
  }

  /** For a permutation, step k folds in exactly the axis whose entry is k. */
  lemma PermutationStep(order: Vector3Int, k: int, a: Axis)
    requires IsPermutation(order) && 0 <= k < 3
    ensures AxisAtStep(order, k) == a <==> OrderEntry(order, a) == k
  {
  }

  /** For a permutation, the three steps fold in three different axes, so
      each axis exactly once. */
  lemma PermutationFoldsEachAxisOnce(order: Vector3Int)
    requires IsPermutation(order)
    ensures AxisAtStep(order, 0) != AxisAtStep(order, 1)
    ensures AxisAtStep(order, 1) != AxisAtStep(order, 2)
    ensures AxisAtStep(order, 0) != AxisAtStep(order, 2)
  {
  }

  /** For a permutation, the fold multiplies the axis rotations in
      ascending order of their entries. */
  lemma {:induction false} EulerProductOfPermutation(euler: EulerAngles, order: Vector3Int, a0: Axis, a1: Axis, a2: Axis)
    requires IsPermutation(order)
    requires OrderEntry(order, a0) == 0 && OrderEntry(order, a1) == 1 && OrderEntry(order, a2) == 2
    ensures EulerProduct(euler, order)
            == Multiply(Multiply(AxisQuaternion(euler, a0), AxisQuaternion(euler, a1)),
                        AxisQuaternion(euler, a2))
  {
    PermutationStep(order, 0, a0);
    PermutationStep(order, 1, a1);
    PermutationStep(order, 2, a2);
    MultiplyIdentity(AxisQuaternion(euler, a0));
  }

  /** Unity's order folds in Z, then X, then Y. */
  lemma UnityRotationOrder(euler: EulerAngles)
    ensures IsPermutation(UNITY_ROTATION_ORDER)
    ensures AxisAtStep(UNITY_ROTATION_ORDER, 0) == Z
    ensures AxisAtStep(UNITY_ROTATION_ORDER, 1) == X
    ensures AxisAtStep(UNITY_ROTATION_ORDER, 2) == Y
    ensures EulerProduct(euler, UNITY_ROTATION_ORDER)
            == Multiply(AxisQuaternion(euler, Z),
                        Multiply(AxisQuaternion(euler, X), AxisQuaternion(euler, Y)))
  {
    var qx, qy, qz := AxisQuaternion(euler, X), AxisQuaternion(euler, Y), AxisQuaternion(euler, Z);
    MultiplyIdentity(qz);
    MultiplyAssociative(qz, qx, qy);
  }

  /** Rotating a vector by the quaternion Unity's order builds means
      rotating it about Y, then about X, then about Z. */
  lemma UnityRotationOrderApplies(euler: EulerAngles, v: Quaternion)
    ensures HamiltonProduct(EulerProduct(euler, UNITY_ROTATION_ORDER), v)
            == HamiltonProduct(AxisQuaternion(euler, Z),
                 HamiltonProduct(AxisQuaternion(euler, X),
                   HamiltonProduct(AxisQuaternion(euler, Y), v)))
  {
    var qx, qy, qz := AxisQuaternion(euler, X), AxisQuaternion(euler, Y), AxisQuaternion(euler, Z);
    UnityRotationOrder(euler);
    HamiltonProductComposes(qz, Multiply(qx, qy), v);
    HamiltonProductComposes(qx, qy, v);
  }

  /** Each axis rotation of FromEuler is the identity for the angle 0. */
  lemma AxisQuaternionOfZero(euler: EulerAngles, a: Axis)
    requires AxisAngleOf(euler, a) == ZeroAngle
    ensures AxisQuaternion(euler, a) == Identity
  {
    AxisAngleOfZero(AxisVector(a), 1.0);
  }

  /** Each axis rotation of FromEuler is a unit quaternion for a genuine
      angle. */
  lemma AxisQuaternionIsUnit(euler: EulerAngles, a: Axis)
    requires IsAngle(AxisAngleOf(euler, a))
    ensures NormSquared(AxisQuaternion(euler, a)) == 1.0
  {
    match a
    case X => AxisAngleIsUnit(Right, 1.0, euler.x);
    case Y => AxisAngleIsUnit(Up, 1.0, euler.y);
    case Z => AxisAngleIsUnit(Forward, 1.0, euler.z);
  }

  /** Zero angles give the identity, whatever the rotation order. */
  lemma EulerProductOfZeroAngles(order: Vector3Int)
    ensures EulerProduct(EulerAngles(ZeroAngle, ZeroAngle, ZeroAngle), order) == Identity
  {
    var zero := EulerAngles(ZeroAngle, ZeroAngle, ZeroAngle);
    var q0 := AxisQuaternion(zero, AxisAtStep(order, 0));
    var q1 := AxisQuaternion(zero, AxisAtStep(order, 1));
    var q2 := AxisQuaternion(zero, AxisAtStep(order, 2));
    AxisQuaternionOfZero(zero, AxisAtStep(order, 0));
    AxisQuaternionOfZero(zero, AxisAtStep(order, 1));
    AxisQuaternionOfZero(zero, AxisAtStep(order, 2));
    calc {
      EulerProduct(zero, order);
      Multiply(Multiply(Multiply(Identity, q0), q1), q2);
      { MultiplyIdentity(q0); }
      Multiply(Multiply(q0, q1), q2);
      { MultiplyIdentity(q1); }
      Multiply(q1, q2);
      { MultiplyIdentity(q2); }
      q2;
    }
  }

  /** For genuine angles the accumulator is already a unit quaternion, so
      the normalization FromEuler ends with leaves it unchanged in exact
      arithmetic. */
  lemma EulerProductIsUnit(euler: EulerAngles, order: Vector3Int)
    requires IsAngle(euler.x) && IsAngle(euler.y) && IsAngle(euler.z)
    ensures NormSquared(EulerProduct(euler, order)) == 1.0
  {
    var q0 := AxisQuaternion(euler, AxisAtStep(order, 0));
    var q1 := AxisQuaternion(euler, AxisAtStep(order, 1));
    var q2 := AxisQuaternion(euler, AxisAtStep(order, 2));
    AxisQuaternionIsUnit(euler, AxisAtStep(order, 0));
    AxisQuaternionIsUnit(euler, AxisAtStep(order, 1));
    AxisQuaternionIsUnit(euler, AxisAtStep(order, 2));
    var p1 := Multiply(Identity, q0);
    var p2 := Multiply(p1, q1);
    NormSquaredMultiplicative(Identity, q0);
    NormSquaredMultiplicative(p1, q1);
    NormSquaredMultiplicative(p2, q2);
  }
}
