/**
 * Homogeneous 4-vectors and 4x4 matrices stored column by column, the
 * layout of cgmath's `Matrix4` (`from_cols`). `Apply` is matrix-vector
 * product, `MatMul` is matrix product.
 */
module Matrices {

  datatype Vec4 = Vec4(x: real, y: real, z: real, w: real)

  /** A matrix given by its four columns. */
  datatype Mat4 = Mat4(c0: Vec4, c1: Vec4, c2: Vec4, c3: Vec4)

  function Add4(a: Vec4, b: Vec4): Vec4 {
    Vec4(a.x + b.x, a.y + b.y, a.z + b.z, a.w + b.w)
  }

  function Scale4(v: Vec4, k: real): Vec4 {
    Vec4(v.x * k, v.y * k, v.z * k, v.w * k)
  }

  /** `m * v`: the combination of the columns of `m` weighted by the components of `v`. */
  function Apply(m: Mat4, v: Vec4): Vec4 {
    Add4(Add4(Scale4(m.c0, v.x), Scale4(m.c1, v.y)), Add4(Scale4(m.c2, v.z), Scale4(m.c3, v.w)))
  }

  /** `a * b`: column `j` of the product is `a` applied to column `j` of `b`. */
  function MatMul(a: Mat4, b: Mat4): Mat4 {
    Mat4(Apply(a, b.c0), Apply(a, b.c1), Apply(a, b.c2), Apply(a, b.c3))
  }

  /** The identity matrix, cgmath's `Matrix4::identity()`. */
  const Identity: Mat4 :=
    Mat4(Vec4(1.0, 0.0, 0.0, 0.0), Vec4(0.0, 1.0, 0.0, 0.0),
         Vec4(0.0, 0.0, 1.0, 0.0), Vec4(0.0, 0.0, 0.0, 1.0))

  /** The identity maps every vector to itself. */
  lemma IdentityFixes(v: Vec4)
    ensures Apply(Identity, v) == v
  {}

  /**
   * The depth-range correction placed in front of an OpenGL-style
   * projection: clip-space depth in [-w, w] becomes depth in [0, w].
   */
  const OpenGlToWgpu: Mat4 :=
    Mat4(Vec4(1.0, 0.0, 0.0, 0.0),
         Vec4(0.0, 1.0, 0.0, 0.0),
         Vec4(0.0, 0.0, 0.5, 0.0),
         Vec4(0.0, 0.0, 0.5, 1.0))

  /** The undoing of `OpenGlToWgpu`: depth `z` becomes `2z - w`. */
  const WgpuToOpenGl: Mat4 :=
    Mat4(Vec4(1.0, 0.0, 0.0, 0.0),
         Vec4(0.0, 1.0, 0.0, 0.0),
         Vec4(0.0, 0.0, 2.0, 0.0),
         Vec4(0.0, 0.0, -1.0, 1.0))

  /** Applying a product is applying its factors, right factor first. */
  lemma ApplyMatMul(a: Mat4, b: Mat4, v: Vec4)
    ensures Apply(MatMul(a, b), v) == Apply(a, Apply(b, v))
  {
    ApplyMatMulX(a, b, v);
    ApplyMatMulY(a, b, v);
    ApplyMatMulZ(a, b, v);
    ApplyMatMulW(a, b, v);
  }

  /*
   * The proof goes one output component at a time, so that each step sees
   * only the handful of products it needs: `RegroupSums` is the identity
   * sum_j a_j (sum_l b_jl v_l) == sum_l (sum_j a_j b_jl) v_l for one row.
   */

  lemma RegroupSums(a0: real, a1: real, a2: real, a3: real, b0: Vec4, b1: Vec4, b2: Vec4, b3: Vec4,
                    v: Vec4, u: Vec4, w0: real, w1: real, w2: real, w3: real)
    requires u.x == (b0.x * v.x + b1.x * v.y) + (b2.x * v.z + b3.x * v.w)
    requires u.y == (b0.y * v.x + b1.y * v.y) + (b2.y * v.z + b3.y * v.w)
    requires u.z == (b0.z * v.x + b1.z * v.y) + (b2.z * v.z + b3.z * v.w)
    requires u.w == (b0.w * v.x + b1.w * v.y) + (b2.w * v.z + b3.w * v.w)
    requires w0 == (a0 * b0.x + a1 * b0.y) + (a2 * b0.z + a3 * b0.w)
    requires w1 == (a0 * b1.x + a1 * b1.y) + (a2 * b1.z + a3 * b1.w)
    requires w2 == (a0 * b2.x + a1 * b2.y) + (a2 * b2.z + a3 * b2.w)
    requires w3 == (a0 * b3.x + a1 * b3.y) + (a2 * b3.z + a3 * b3.w)
    ensures (a0 * u.x + a1 * u.y) + (a2 * u.z + a3 * u.w) == (w0 * v.x + w1 * v.y) + (w2 * v.z + w3 * v.w)
  {}

  lemma ApplyComponents(m: Mat4, v: Vec4)
    ensures Apply(m, v) == Vec4(
      (m.c0.x * v.x + m.c1.x * v.y) + (m.c2.x * v.z + m.c3.x * v.w),
      (m.c0.y * v.x + m.c1.y * v.y) + (m.c2.y * v.z + m.c3.y * v.w),
      (m.c0.z * v.x + m.c1.z * v.y) + (m.c2.z * v.z + m.c3.z * v.w),
      (m.c0.w * v.x + m.c1.w * v.y) + (m.c2.w * v.z + m.c3.w * v.w))
  {}

  lemma ApplyX(m: Mat4, v: Vec4)
    ensures Apply(m, v).x == (m.c0.x * v.x + m.c1.x * v.y) + (m.c2.x * v.z + m.c3.x * v.w)
  {}

  lemma ApplyMatMulX(a: Mat4, b: Mat4, v: Vec4)
    ensures Apply(MatMul(a, b), v).x == Apply(a, Apply(b, v)).x
  {
    var ab, u := MatMul(a, b), Apply(b, v);
    ApplyComponents(b, v);
    ApplyX(a, u);
    ApplyX(ab, v);
    ApplyX(a, b.c0);
    ApplyX(a, b.c1);
    ApplyX(a, b.c2);
    ApplyX(a, b.c3);
    RegroupSums(a.c0.x, a.c1.x, a.c2.x, a.c3.x, b.c0, b.c1, b.c2, b.c3, v, u,
                ab.c0.x, ab.c1.x, ab.c2.x, ab.c3.x);
  }

  lemma ApplyY(m: Mat4, v: Vec4)
    ensures Apply(m, v).y == (m.c0.y * v.x + m.c1.y * v.y) + (m.c2.y * v.z + m.c3.y * v.w)
  {}

  lemma ApplyMatMulY(a: Mat4, b: Mat4, v: Vec4)
    ensures Apply(MatMul(a, b), v).y == Apply(a, Apply(b, v)).y
  {
    var ab, u := MatMul(a, b), Apply(b, v);
    ApplyComponents(b, v);
    ApplyY(a, u);
    ApplyY(ab, v);
    ApplyY(a, b.c0);
    ApplyY(a, b.c1);
    ApplyY(a, b.c2);
    ApplyY(a, b.c3);
    RegroupSums(a.c0.y, a.c1.y, a.c2.y, a.c3.y, b.c0, b.c1, b.c2, b.c3, v, u,
                ab.c0.y, ab.c1.y, ab.c2.y, ab.c3.y);
  }

  lemma ApplyZ(m: Mat4, v: Vec4)
    ensures Apply(m, v).z == (m.c0.z * v.x + m.c1.z * v.y) + (m.c2.z * v.z + m.c3.z * v.w)
  {}

  lemma ApplyMatMulZ(a: Mat4, b: Mat4, v: Vec4)
    ensures Apply(MatMul(a, b), v).z == Apply(a, Apply(b, v)).z
  {
    var ab, u := MatMul(a, b), Apply(b, v);
    ApplyComponents(b, v);
    ApplyZ(a, u);
    ApplyZ(ab, v);
    ApplyZ(a, b.c0);
    ApplyZ(a, b.c1);
    ApplyZ(a, b.c2);
    ApplyZ(a, b.c3);
    RegroupSums(a.c0.z, a.c1.z, a.c2.z, a.c3.z, b.c0, b.c1, b.c2, b.c3, v, u,
                ab.c0.z, ab.c1.z, ab.c2.z, ab.c3.z);
  }

  lemma ApplyW(m: Mat4, v: Vec4)
    ensures Apply(m, v).w == (m.c0.w * v.x + m.c1.w * v.y) + (m.c2.w * v.z + m.c3.w * v.w)
  {}

  lemma ApplyMatMulW(a: Mat4, b: Mat4, v: Vec4)
    ensures Apply(MatMul(a, b), v).w == Apply(a, Apply(b, v)).w
  {
    var ab, u := MatMul(a, b), Apply(b, v);
    ApplyComponents(b, v);
    ApplyW(a, u);
    ApplyW(ab, v);
    ApplyW(a, b.c0);
    ApplyW(a, b.c1);
    ApplyW(a, b.c2);
    ApplyW(a, b.c3);
    RegroupSums(a.c0.w, a.c1.w, a.c2.w, a.c3.w, b.c0, b.c1, b.c2, b.c3, v, u,
                ab.c0.w, ab.c1.w, ab.c2.w, ab.c3.w);
  }

  /** What the correction does to a homogeneous vector `(x, y, z, w)`. */
  lemma CorrectionAction(v: Vec4)
    ensures Apply(OpenGlToWgpu, v) == Vec4(v.x, v.y, 0.5 * v.z + 0.5 * v.w, v.w)
  {}

  /** Depth in [-w, w] is carried into [0, w]. */
  lemma CorrectionDepthRange(v: Vec4)
    requires -v.w <= v.z <= v.w
    ensures var r := Apply(OpenGlToWgpu, v); 0.0 <= r.z <= r.w
  {
    CorrectionAction(v);
  }

  lemma UncorrectionAction(v: Vec4)
    ensures Apply(WgpuToOpenGl, v) == Vec4(v.x, v.y, 2.0 * v.z - v.w, v.w)
  {}

  /** The correction loses nothing: `WgpuToOpenGl` undoes it ... */
  lemma CorrectionUndone()
    ensures MatMul(WgpuToOpenGl, OpenGlToWgpu) == Identity
  {
    var c := OpenGlToWgpu;
    UncorrectionAction(c.c0); UncorrectionAction(c.c1); UncorrectionAction(c.c2); UncorrectionAction(c.c3);
  }

  /** ... and it undoes `WgpuToOpenGl`, so the two are each other's inverse. */
  lemma UncorrectionUndone()
    ensures MatMul(OpenGlToWgpu, WgpuToOpenGl) == Identity
  {
    var d := WgpuToOpenGl;
    CorrectionAction(d.c0); CorrectionAction(d.c1); CorrectionAction(d.c2); CorrectionAction(d.c3);
  }
}
