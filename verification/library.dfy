/**
 * The cgmath routines the camera calls but this model does not define,
 * because they rest on square roots, trigonometry and floating point. They
 * are passed in as function values; where a property needs something of
 * them, the lemma says so in its `requires`, using the predicates below.
 */
module Library {
  import opened Vectors
  import opened Matrices

  datatype CgMath = CgMath(
    /** `Vector3::normalize` */
    normalize: Vec3 -> Vec3,
    /** `Vector3::magnitude` */
    magnitude: Vec3 -> real,
    /** `Quaternion::from_axis_angle(axis, Deg(angle)).rotate_vector(v)`, as `rotate(axis, angle, v)` */
    rotate: (Vec3, real, Vec3) -> Vec3,
    /** `Matrix4::look_at_rh(eye, target, up)` */
    lookAtRh: (Vec3, Vec3, Vec3) -> Mat4,
    /** `perspective(Deg(fovy), aspect, znear, zfar)` */
    perspective: (real, real, real, real) -> Mat4)

  /**
   * What cgmath's `normalize` promises: a non-zero vector becomes one of
   * length 1. (Normalizing the zero vector yields NaN components.)
   */
  ghost predicate NormalizesToUnit(lib: CgMath) {
    forall v | v != Zero :: Norm2(lib.normalize(v)) == 1.0
  }

  /**
   * What cgmath's axis-angle quaternion promises: about an axis of length 1
   * it is a rotation, so it keeps lengths. About any other axis the
   * quaternion is not of unit length and the "rotation" scales.
   */
  ghost predicate RotatesAboutUnitAxes(lib: CgMath) {
    forall axis, angle, v | Norm2(axis) == 1.0 :: Norm2(lib.rotate(axis, angle, v)) == Norm2(v)
  }
}
