/**
 * Three-dimensional vectors over exact reals. The renderer computes in `f32`;
 * this model computes in `real`, so every identity below holds exactly.
 */
module Vectors {

  datatype Vec3 = Vec3(x: real, y: real, z: real)

  const Zero: Vec3 := Vec3(0.0, 0.0, 0.0)

  function Add(a: Vec3, b: Vec3): Vec3 {
    Vec3(a.x + b.x, a.y + b.y, a.z + b.z)
  }

  function Sub(a: Vec3, b: Vec3): Vec3 {
    Vec3(a.x - b.x, a.y - b.y, a.z - b.z)
  }

  function Scale(v: Vec3, k: real): Vec3 {
    Vec3(v.x * k, v.y * k, v.z * k)
  }

  function Neg(v: Vec3): Vec3 {
    Vec3(-v.x, -v.y, -v.z)
  }

  function Dot(a: Vec3, b: Vec3): real {
    a.x * b.x + a.y * b.y + a.z * b.z
  }

  /** Squared length; the model never takes a square root. */
  function Norm2(v: Vec3): (r: real)
    ensures r >= 0.0
  {
    Dot(v, v)
  }

  /** The right-handed cross product: a vector at right angles to both arguments. */
  function Cross(a: Vec3, b: Vec3): (r: Vec3)
    ensures Dot(r, a) == 0.0 && Dot(r, b) == 0.0
  {
    Vec3(a.y * b.z - a.z * b.y, a.z * b.x - a.x * b.z, a.x * b.y - a.y * b.x)
  }

  /**
   * `|v| > s`, decided without a square root: a length is never negative,
   * and for `s >= 0` comparing lengths is comparing squared lengths.
   */
  predicate LongerThan(v: Vec3, s: real) {
    s < 0.0 || Norm2(v) > s * s
  }

  /** Whatever non-negative square root `m` of `|v|^2` a library returns, `LongerThan` agrees with `m > s`. */
  lemma LongerThanMatchesMagnitude(v: Vec3, s: real, m: real)
    requires 0.0 <= m && m * m == Norm2(v)
    ensures LongerThan(v, s) <==> m > s
  {
    if s >= 0.0 {
      SquaresOrdered(m, s);
    }
  }

  /** On non-negative reals, squaring keeps strict order in both directions. */
  lemma SquaresOrdered(m: real, s: real)
    requires 0.0 <= m && 0.0 <= s
    ensures m > s <==> m * m > s * s
  {
    if m > s {
      DifferenceOfSquares(m, s);
      PositiveProduct(m - s, m + s);
    } else {
      DifferenceOfSquares(s, m);
      NonNegativeProduct(s - m, s + m);
    }
  }

  lemma DifferenceOfSquares(a: real, b: real)
    ensures a * a - b * b == (a - b) * (a + b)
  {}

  lemma PositiveProduct(a: real, b: real)
    requires a > 0.0 && b > 0.0
    ensures a * b > 0.0
  {}

  lemma NonNegativeProduct(a: real, b: real)
    requires a >= 0.0 && b >= 0.0
    ensures a * b >= 0.0
  {}

  /** Scaling a vector by `k` scales its squared length by `k * k`. */
  lemma Norm2Scale(v: Vec3, k: real)
    ensures Norm2(Scale(v, k)) == k * k * Norm2(v)
  {
    SquareOfProduct(v.x, k);
    SquareOfProduct(v.y, k);
    SquareOfProduct(v.z, k);
  }

  lemma SquareOfProduct(a: real, k: real)
    ensures (a * k) * (a * k) == k * k * (a * a)
  {}

  /*
   * Small facts of vector algebra. Each is stated on its own so that the
   * proofs using them never need to reason about the products inside the
   * vectors they add.
   */

  lemma AddZero(v: Vec3)
    ensures Add(v, Zero) == v
  {}

  lemma AddAssoc(a: Vec3, b: Vec3, c: Vec3)
    ensures Add(Add(a, b), c) == Add(a, Add(b, c))
  {}

  lemma SubIsAddNeg(a: Vec3, b: Vec3)
    ensures Sub(a, b) == Add(a, Neg(b))
  {}

  lemma NegCancels(a: Vec3, s: Vec3)
    ensures Add(Add(a, Neg(s)), s) == a
  {}

  /** Moving two points by the same vector keeps the vector between them. */
  lemma SubOfShifted(a: Vec3, b: Vec3, d: Vec3)
    ensures Sub(Add(a, d), Add(b, d)) == Sub(a, b)
  {}

  lemma SubAfterAdd(e: Vec3, f: Vec3)
    ensures Sub(Add(e, f), e) == f
  {}

  lemma DotScale(v: Vec3, k: real, w: Vec3)
    ensures Dot(Scale(v, k), w) == k * Dot(v, w)
  {}

  /** Lagrange's identity: `|a x b|^2 = |a|^2 |b|^2 - (a . b)^2`. */
  lemma LagrangeIdentity(a: Vec3, b: Vec3)
    ensures Norm2(Cross(a, b)) == Norm2(a) * Norm2(b) - Dot(a, b) * Dot(a, b)
  {
  }
}
