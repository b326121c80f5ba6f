/**
 * The camera and the uniform block that carries its combined matrix to the
 * shader. The camera's view and projection matrices come from the library;
 * what is modelled here is how they are combined: the projection is applied
 * after the view, and the OpenGL-to-wgpu depth correction after both.
 */
module Cameras {
  import opened Vectors
  import opened Matrices
  import opened Library

  class Camera {
    var eye: Vec3
    var target: Vec3
    var up: Vec3
    var aspect: real
    var fovy: real
    var znear: real
    var zfar: real

    constructor(eye: Vec3, target: Vec3, up: Vec3, aspect: real, fovy: real, znear: real, zfar: real)
      ensures this.eye == eye && this.target == target && this.up == up
      ensures this.aspect == aspect && this.fovy == fovy && this.znear == znear && this.zfar == zfar
    {
      this.eye, this.target, this.up := eye, target, up;
      this.aspect, this.fovy, this.znear, this.zfar := aspect, fovy, znear, zfar;
    }

    /** The right-handed view matrix looking from `eye` at `target`. */
    function View(lib: CgMath): Mat4
      reads this
    {
      lib.lookAtRh(eye, target, up)
    }

    /** The perspective projection with a vertical field of view of `fovy` degrees. */
    function Projection(lib: CgMath): Mat4
      reads this
    {
      lib.perspective(fovy, aspect, znear, zfar)
    }

    /** The correction times the projection times the view, multiplied left to right. */
    function BuildViewProjectionMatrix(lib: CgMath): Mat4
      reads this
    {
      MatMul(MatMul(OpenGlToWgpu, Projection(lib)), View(lib))
    }
  }

  /**
   * The combined matrix acts on a point by viewing it first, projecting the
   * result and then correcting the depth: the products are in the order the
   * shader needs.
   */
  lemma ViewThenProjectThenCorrect(camera: Camera, lib: CgMath, p: Vec4)
    ensures Apply(camera.BuildViewProjectionMatrix(lib), p) ==
      Apply(OpenGlToWgpu, Apply(camera.Projection(lib), Apply(camera.View(lib), p)))
  {
    var c, proj, view := OpenGlToWgpu, camera.Projection(lib), camera.View(lib);
    ApplyMatMul(MatMul(c, proj), view, p);
    ApplyMatMul(c, proj, Apply(view, p));
  }

  /**
   * A point whose projected depth lies in OpenGL's clip range `-w..w` ends
   * up, through the combined matrix, with depth in wgpu's range `0..w`.
   */
  lemma ClipDepthLandsInWgpuRange(camera: Camera, lib: CgMath, p: Vec4)
    requires var q := Apply(camera.Projection(lib), Apply(camera.View(lib), p)); -q.w <= q.z <= q.w
    ensures var r := Apply(camera.BuildViewProjectionMatrix(lib), p); 0.0 <= r.z <= r.w
  {
    ViewThenProjectThenCorrect(camera, lib, p);
    CorrectionDepthRange(Apply(camera.Projection(lib), Apply(camera.View(lib), p)));
  }

  /** The matrix block handed to the shader. */
  class CameraUniform {
    var viewProj: Mat4

    /** A fresh uniform holds the identity matrix. */
    constructor()
      ensures viewProj == Identity
    {
      viewProj := Identity;
    }

    /** Stores the camera's current combined matrix; the camera itself is only read. */
    method UpdateViewProj(camera: Camera, lib: CgMath)
      modifies this
      ensures viewProj == camera.BuildViewProjectionMatrix(lib)
    {
      viewProj := camera.BuildViewProjectionMatrix(lib);
    }
  }
}
