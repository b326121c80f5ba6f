/**
 * A concrete frame in which the camera's pitch changes the distance
 * between eye and target, and the same frame with the pitch axis
 * normalized, which keeps it.
 */
module Findings {
  import opened Options
  import opened Vectors
  import opened Matrices
  import opened Intents
  import opened Library
  import opened Motion

  /**
   * cgmath's `rotate_vector` for the quaternion `(c, s * axis)` that
   * `from_axis_angle` builds, `c` and `s` being the cosine and sine of half
   * the angle: `v + 2 (q.v x (q.v x v + c v))`.
   */
  function QuaternionRotate(axis: Vec3, c: real, s: real, v: Vec3): Vec3 {
    var qv := Scale(axis, s);
    var tmp := Add(Cross(qv, v), Scale(v, c));
    Add(Scale(Cross(qv, tmp), 2.0), v)
  }

  /**
   * A library that agrees with cgmath on the vectors the example below
   * uses: `normalize` and `magnitude` are exact for the two vectors that
   * occur, (0, -3, -4) of length 5 and (0.8, 0, 0) of length 0.8. `rotate`
   * is the quaternion rotation for the half-angle whose cosine is 0.8 and
   * sine 0.6 (the angle the controller's `speed` stands for here, about
   * 73.74 degrees).
   */
  const Example: CgMath := CgMath(
    (v: Vec3) =>
      if v == Vec3(0.0, -3.0, -4.0) then Vec3(0.0, -0.6, -0.8)
      else if v == Vec3(0.8, 0.0, 0.0) then Vec3(1.0, 0.0, 0.0)
      else v,
    (v: Vec3) =>
      if v == Vec3(0.0, -3.0, -4.0) then 5.0
      else if v == Vec3(0.8, 0.0, 0.0) then 0.8
      else 0.0,
    (axis: Vec3, angle: real, v: Vec3) => QuaternionRotate(axis, 0.8, 0.6, v),
    (eye: Vec3, target: Vec3, up: Vec3) => Identity,
    (fovy: real, aspect: real, znear: real, zfar: real) => Identity)

  /** The camera of the example: eye at (0, 3, 4) looking at the origin, up along y. */
  const ExamplePose: Pose := Pose(Vec3(0.0, 3.0, 4.0), Zero)
  const ExampleUp: Vec3 := Vec3(0.0, 1.0, 0.0)
  const ExampleSpeed: real := 1.0

  /**
   * The quaternion rotation about an axis `(a, 0, 0)` along x, applied to a
   * vector in the y-z plane, written out. For `a = 1` and `c^2 + s^2 = 1`
   * this is the turn by angle `2 atan2(s, c)` about x; for other `a` it is not.
   */
  function TurnAboutX(a: real, c: real, s: real, y: real, z: real): Vec3 {
    Vec3(0.0, y - 2.0 * (a * s) * (c * z + (a * s) * y), z + 2.0 * (a * s) * (c * y - (a * s) * z))
  }

  lemma QuaternionRotateAboutX(a: real, c: real, s: real, y: real, z: real)
    ensures QuaternionRotate(Vec3(a, 0.0, 0.0), c, s, Vec3(0.0, y, z)) == TurnAboutX(a, c, s, y, z)
  {}

  /** The example library's rotation of (0, -3, -4) about the two axes the example uses. */
  lemma ExampleRotations()
    ensures Example.rotate(Vec3(0.8, 0.0, 0.0), ExampleSpeed, Vec3(0.0, -3.0, -4.0)) == Vec3(0.0, 1.4544, -4.4608)
    ensures Example.rotate(Vec3(1.0, 0.0, 0.0), ExampleSpeed, Vec3(0.0, -3.0, -4.0)) == Vec3(0.0, 3.0, -4.0)
  {
    QuaternionRotateAboutX(0.8, 0.8, 0.6, -3.0, -4.0);
    QuaternionRotateAboutX(1.0, 0.8, 0.6, -3.0, -4.0);
    ExampleTurns();
  }

  lemma ExampleTurns()
    ensures TurnAboutX(0.8, 0.8, 0.6, -3.0, -4.0) == Vec3(0.0, 1.4544, -4.4608)
    ensures TurnAboutX(1.0, 0.8, 0.6, -3.0, -4.0) == Vec3(0.0, 3.0, -4.0)
  {}

  lemma ExampleLengths()
    ensures Norm2(Vec3(0.0, 1.4544, -4.4608)) == 22.014016
    ensures Norm2(Vec3(0.0, 3.0, -4.0)) == 25.0
    ensures Norm2(Vec3(0.0, -3.0, -4.0)) == 25.0
    ensures Norm2(Vec3(0.8, 0.0, 0.0)) == 0.64
  {}

  /** The example camera looks along (0, -3, -4), and the example library normalizes the two vectors it meets exactly. */
  lemma ExampleInputs()
    ensures Offset(ExamplePose) == Vec3(0.0, -3.0, -4.0)
    ensures Example.normalize(Vec3(0.0, -3.0, -4.0)) == Vec3(0.0, -0.6, -0.8)
    ensures Example.normalize(Vec3(0.8, 0.0, 0.0)) == Vec3(1.0, 0.0, 0.0)
    ensures Cross(Vec3(0.0, -0.6, -0.8), ExampleUp) == Vec3(0.8, 0.0, 0.0)
  {}

  /** What the example frame computes on entry: the forward vector and the unnormalized pitch axis. */
  lemma ExampleFrame()
    ensures FrameOf(Example, ExampleSpeed, ExampleUp, ExamplePose).forward == Vec3(0.0, -3.0, -4.0)
    ensures FrameOf(Example, ExampleSpeed, ExampleUp, ExamplePose).right == Vec3(0.8, 0.0, 0.0)
  {
    ExampleInputs();
    FrameAxes(Example, ExampleSpeed, ExampleUp, ExamplePose);
  }

  /** With the pitch axis normalized, the example frame pitches about (1, 0, 0). */
  lemma ExampleCorrectedFrame()
    ensures CorrectedFrameOf(Example, ExampleSpeed, ExampleUp, ExamplePose).forward == Vec3(0.0, -3.0, -4.0)
    ensures CorrectedFrameOf(Example, ExampleSpeed, ExampleUp, ExamplePose).right == Vec3(1.0, 0.0, 0.0)
  {
    ExampleInputs();
    ExampleFrame();
  }

  /** The eye-to-target vector after the example frame, as written. */
  lemma ExamplePitch()
    ensures Offset(Step(Example, ExampleSpeed, {PitchUp}, ExampleUp, ExamplePose)) == Vec3(0.0, 1.4544, -4.4608)
  {
    var f := FrameOf(Example, ExampleSpeed, ExampleUp, ExamplePose);
    ExampleFrame();
    AimOfPitchUp(Example, ExampleSpeed, ExampleUp, f.right, f.forward);
    ExampleRotations();
    OffsetAfterStep(Example, ExampleSpeed, {PitchUp}, ExampleUp, ExamplePose);
  }

  /**
   * As written, pitching up about `normalize(forward) x up` = (0.8, 0, 0),
   * an axis of length 0.8, turns the forward vector (0, -3, -4) into
   * (0, 1.4544, -4.4608): its squared length drops from 25 to 22.014016,
   * so the target moves closer to the eye.
   */
  lemma PitchShortensDistance()
    ensures Norm2(Offset(ExamplePose)) == 25.0
    ensures Norm2(FrameOf(Example, ExampleSpeed, ExampleUp, ExamplePose).right) == 0.64
    ensures Norm2(Offset(Step(Example, ExampleSpeed, {PitchUp}, ExampleUp, ExamplePose))) == 22.014016
  {
    ExampleFrame();
    ExamplePitch();
    ExampleLengths();
    ExampleInputs();
  }

  /** The eye-to-target vector after the example frame with the pitch axis normalized. */
  lemma ExampleCorrectedPitch()
    ensures Offset(CorrectedStep(Example, ExampleSpeed, {PitchUp}, ExampleUp, ExamplePose)) == Vec3(0.0, 3.0, -4.0)
  {
    ExampleCorrectedFrame();
    var f := CorrectedFrameOf(Example, ExampleSpeed, ExampleUp, ExamplePose);
    AimOfPitchUp(Example, ExampleSpeed, ExampleUp, f.right, f.forward);
    ExampleRotations();
    OffsetAfterAdvance(Example, ExampleSpeed, {PitchUp}, ExampleUp, ExamplePose, f);
  }

  /** With the pitch axis normalized to (1, 0, 0), the same frame keeps the distance. */
  lemma CorrectedPitchKeepsDistance()
    ensures Norm2(Offset(CorrectedStep(Example, ExampleSpeed, {PitchUp}, ExampleUp, ExamplePose))) == Norm2(Offset(ExamplePose))
  {
    ExampleCorrectedPitch();
    ExampleLengths();
    ExampleInputs();
  }
}
