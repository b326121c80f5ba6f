/**
 * What one call of `update_camera` does to the camera's eye and target,
 * stated as a closed form rather than as the sequence of guarded updates
 * the controller performs:
 *
 *   - every translation held before the rotation block (forward, backward,
 *     strafe left, strafe right) adds up to one vector, `Glide`;
 *   - of the rotation intents held, only the last in the order yaw-left,
 *     yaw-right, pitch-up, pitch-down has an effect (`Aim`): it re-aims the
 *     target from the already translated eye along a rotation of the
 *     forward vector captured on entry;
 *   - the vertical moves held (up, down) add up to one vector, `Lift`,
 *     applied last to both points.
 *
 * `Controllers.Controller.UpdateCamera` is proved to agree with `Step`; the
 * lemmas below are what the closed form implies.
 */
module Motion {
  import opened Options
  import opened Vectors
  import opened Intents
  import opened Library

  /** The two fields of the camera that a frame update writes. */
  datatype Pose = Pose(eye: Vec3, target: Vec3)

  /** The vector from the eye to the target, the camera's `forward`. */
  function Offset(p: Pose): Vec3 {
    Sub(p.target, p.eye)
  }

  /** Both points moved by the same vector. */
  function Translate(p: Pose, d: Vec3): Pose {
    Pose(Add(p.eye, d), Add(p.target, d))
  }

  /** The damping factor applied to every linear move, `speed_limit`. */
  const SpeedLimit: real := 0.05

  /** One linear move along `dir`: `dir * speed * speed_limit`. */
  function Stride(dir: Vec3, speed: real): Vec3 {
    Scale(Scale(dir, speed), SpeedLimit)
  }

  /** `v` when the intent is held, nothing otherwise. */
  function When(on: bool, v: Vec3): Vec3 {
    if on then v else Zero
  }

  /**
   * What a frame update computes from the pose on entry, before it moves
   * anything: `forward`, whether the forward move is allowed, the linear
   * strides along the view direction, the side direction and `up`, and the
   * pitch axis `normalize(forward) x up`.
   */
  datatype Frame = Frame(forward: Vec3, advance: bool, ahead: Vec3, side: Vec3, climb: Vec3, right: Vec3)

  function FrameOf(lib: CgMath, speed: real, up: Vec3, pose: Pose): Frame {
    var forward := Offset(pose);
    var n := lib.normalize(forward);
    var right := Cross(n, up);
    Frame(forward, lib.magnitude(forward) > speed, Stride(n, speed), Stride(right, speed), Stride(up, speed), right)
  }

  /** The rotation inputs of a frame: the captured forward and the pitch axis. */
  lemma FrameAxes(lib: CgMath, speed: real, up: Vec3, pose: Pose)
    ensures FrameOf(lib, speed, up, pose).forward == Offset(pose)
    ensures FrameOf(lib, speed, up, pose).right == Cross(lib.normalize(Offset(pose)), up)
  {}

  /** The moves along the view direction: forward (only when allowed), then backward. */
  function Along(held: set<Action>, f: Frame): Vec3 {
    Add(When(Forward in held && f.advance, f.ahead), When(Backward in held, Neg(f.ahead)))
  }

  /** The strafes: left, then right. */
  function Across(held: set<Action>, f: Frame): Vec3 {
    Add(When(Left in held, Neg(f.side)), When(Right in held, f.side))
  }

  /** The translation made before the rotation block. */
  function Glide(held: set<Action>, f: Frame): Vec3 {
    Add(Along(held, f), Across(held, f))
  }

  /** The translation made after the rotation block: up, then down. */
  function Lift(held: set<Action>, f: Frame): Vec3 {
    Add(When(Up in held, f.climb), When(Down in held, Neg(f.climb)))
  }

  /**
   * The new eye-to-target vector chosen by the rotation block, if any
   * rotation is held: the last held one in the order yaw-left, yaw-right,
   * pitch-up, pitch-down, applied to the forward vector captured on entry.
   * Yaw turns about `up`, pitch about the frame's `right`; angles are
   * `speed` degrees.
   */
  function Aim(lib: CgMath, speed: real, held: set<Action>, up: Vec3, right: Vec3, forward: Vec3): Option<Vec3> {
    if PitchDown in held then Some(lib.rotate(right, -speed, forward))
    else if PitchUp in held then Some(lib.rotate(right, speed, forward))
    else if YawRight in held then Some(lib.rotate(up, -speed, forward))
    else if YawLeft in held then Some(lib.rotate(up, speed, forward))
    else None
  }

  /** Translate by `glide`, re-aim from the moved eye if a rotation was chosen, then translate by `lift`. */
  function Compose(pose: Pose, glide: Vec3, aim: Option<Vec3>, lift: Vec3): Pose {
    var eye := Add(pose.eye, glide);
    var target :=
      match aim
      case None => Add(pose.target, glide)
      case Some(d) => Add(eye, d);
    Translate(Pose(eye, target), lift)
  }

  /** The pose after one frame with the intents `held`, for a camera whose up vector is `up`. */
  function Step(lib: CgMath, speed: real, held: set<Action>, up: Vec3, pose: Pose): Pose {
    Advance(lib, speed, held, up, pose, FrameOf(lib, speed, up, pose))
  }

  /** The pose after one frame computed from the values `f`. */
  function Advance(lib: CgMath, speed: real, held: set<Action>, up: Vec3, pose: Pose, f: Frame): Pose {
    Compose(pose, Glide(held, f), Aim(lib, speed, held, up, f.right, f.forward), Lift(held, f))
  }

  /** Two guarded moves in a row add up to the sum of the moves made. */
  lemma TwoGuardedMoves(p: Vec3, on1: bool, d1: Vec3, on2: bool, d2: Vec3)
    ensures (var p1 := if on1 then Add(p, d1) else p; if on2 then Add(p1, d2) else p1)
      == Add(p, Add(When(on1, d1), When(on2, d2)))
  {
  }

  /**
   * A frame in four blocks: moves along the view, strafes, rotations,
   * vertical moves, each written as the source computes it from the
   * normalized forward `n` and its magnitude `m` taken on entry. Whatever
   * performs them in this order arrives at `Step`.
   */
  lemma StepInBlocks(lib: CgMath, speed: real, held: set<Action>, up: Vec3, pose: Pose, n: Vec3, m: real,
                     p1: Pose, p2: Pose, p3: Pose, p4: Pose)
    requires n == lib.normalize(Offset(pose)) && m == lib.magnitude(Offset(pose))
    requires p1 == Translate(pose, Add(When(Forward in held && m > speed, Stride(n, speed)),
                                       When(Backward in held, Neg(Stride(n, speed)))))
    requires p2 == Translate(p1, Add(When(Left in held, Neg(Stride(Cross(n, up), speed))),
                                     When(Right in held, Stride(Cross(n, up), speed))))
    requires p3.eye == p2.eye
    requires p3.target ==
      match Aim(lib, speed, held, up, Cross(n, up), Offset(pose))
      case None => p2.target
      case Some(d) => Add(p2.eye, d)
    requires p4 == Translate(p3, Add(When(Up in held, Stride(up, speed)), When(Down in held, Neg(Stride(up, speed)))))
    ensures p4 == Step(lib, speed, held, up, pose)
  {
    var f := Frame(Offset(pose), m > speed, Stride(n, speed), Stride(Cross(n, up), speed), Stride(up, speed), Cross(n, up));
    FrameParts(lib, speed, up, pose, n, m);
    BlocksCompose(pose, Along(held, f), Across(held, f), Aim(lib, speed, held, up, f.right, f.forward), Lift(held, f),
                  p1, p2, p3, p4);
  }

  /** The frame's values, as the source computes them from `n` and `m`. */
  lemma FrameParts(lib: CgMath, speed: real, up: Vec3, pose: Pose, n: Vec3, m: real)
    requires n == lib.normalize(Offset(pose)) && m == lib.magnitude(Offset(pose))
    ensures FrameOf(lib, speed, up, pose) ==
      Frame(Offset(pose), m > speed, Stride(n, speed), Stride(Cross(n, up), speed), Stride(up, speed), Cross(n, up))
  {}

  /** Two translations, a re-aim from the moved eye and a third translation make one `Compose`. */
  lemma BlocksCompose(pose: Pose, along: Vec3, across: Vec3, aim: Option<Vec3>, lift: Vec3,
                      p1: Pose, p2: Pose, p3: Pose, p4: Pose)
    requires p1 == Translate(pose, along) && p2 == Translate(p1, across) && p3.eye == p2.eye
    requires p3.target ==
      match aim
      case None => p2.target
      case Some(d) => Add(p2.eye, d)
    requires p4 == Translate(p3, lift)
    ensures p4 == Compose(pose, Add(along, across), aim, lift)
  {
    AddAssoc(pose.eye, along, across);
    AddAssoc(pose.target, along, across);
  }

  /** Adding an optional vector is adding it or leaving the point alone. */
  lemma AddWhen(p: Vec3, on: bool, v: Vec3)
    ensures Add(p, When(on, v)) == if on then Add(p, v) else p
  {
    AddZero(p);
  }

  /** The translations of a frame without translation intents are zero. */
  lemma StillFrame(held: set<Action>, f: Frame)
    requires held !! {Forward, Backward, Left, Right, Up, Down}
    ensures Glide(held, f) == Zero && Lift(held, f) == Zero
  {
    AddZero(Zero);
  }

  /** With nothing held, a frame leaves the camera where it is. */
  lemma IdleIsFixedPoint(lib: CgMath, speed: real, up: Vec3, pose: Pose)
    ensures Step(lib, speed, {}, up, pose) == pose
  {
    StillFrame({}, FrameOf(lib, speed, up, pose));
    AddZero(pose.eye);
    AddZero(pose.target);
  }

  /** Without a rotation intent, a frame moves eye and target by one and the same vector. */
  lemma TranslationsAreRigid(lib: CgMath, speed: real, held: set<Action>, up: Vec3, pose: Pose)
    requires held !! Rotations
    ensures var f := FrameOf(lib, speed, up, pose);
      Step(lib, speed, held, up, pose) == Translate(pose, Add(Glide(held, f), Lift(held, f)))
    ensures Offset(Step(lib, speed, held, up, pose)) == Offset(pose)
  {
    var f := FrameOf(lib, speed, up, pose);
    var g, l := Glide(held, f), Lift(held, f);
    AddAssoc(pose.eye, g, l);
    AddAssoc(pose.target, g, l);
    SubOfShifted(pose.target, pose.eye, Add(g, l));
  }

  /**
   * After a frame the eye-to-target vector is the one the last held
   * rotation produced, or unchanged when no rotation is held: translations
   * never change it, and rotations do not compound.
   */
  lemma OffsetAfterStep(lib: CgMath, speed: real, held: set<Action>, up: Vec3, pose: Pose)
    ensures Offset(Step(lib, speed, held, up, pose)) ==
      match Aim(lib, speed, held, up, FrameOf(lib, speed, up, pose).right, Offset(pose))
      case None => Offset(pose)
      case Some(d) => d
  {
    OffsetAfterAdvance(lib, speed, held, up, pose, FrameOf(lib, speed, up, pose));
  }

  lemma OffsetAfterAdvance(lib: CgMath, speed: real, held: set<Action>, up: Vec3, pose: Pose, f: Frame)
    ensures Offset(Advance(lib, speed, held, up, pose, f)) ==
      match Aim(lib, speed, held, up, f.right, f.forward)
      case None => Offset(pose)
      case Some(d) => d
  {
    var g, l := Glide(held, f), Lift(held, f);
    var eye := Add(pose.eye, g);
    match Aim(lib, speed, held, up, f.right, f.forward)
    case None =>
      SubOfShifted(Add(pose.target, g), eye, l);
      SubOfShifted(pose.target, pose.eye, g);
    case Some(d) =>
      SubOfShifted(Add(eye, d), eye, l);
      SubAfterAdd(eye, d);
  }

  /** Pitching up alone turns the captured forward about the pitch axis by `speed` degrees. */
  lemma AimOfPitchUp(lib: CgMath, speed: real, up: Vec3, right: Vec3, forward: Vec3)
    ensures Aim(lib, speed, {PitchUp}, up, right, forward) == Some(lib.rotate(right, speed, forward))
  {}

  /** Whatever rotation a frame applies is a single rotation of the forward vector captured on entry. */
  lemma AimRotatesCapturedForward(lib: CgMath, speed: real, held: set<Action>, up: Vec3, pose: Pose)
    ensures var f := FrameOf(lib, speed, up, pose);
      var right := Cross(lib.normalize(Offset(pose)), up);
      match Aim(lib, speed, held, up, f.right, f.forward)
      case None => held !! Rotations
      case Some(d) =>
        d in {lib.rotate(up, speed, Offset(pose)), lib.rotate(up, -speed, Offset(pose)),
              lib.rotate(right, speed, Offset(pose)), lib.rotate(right, -speed, Offset(pose))}
  {}

  /** Rotation intents never move the eye. */
  lemma RotationsKeepEye(lib: CgMath, speed: real, held: set<Action>, up: Vec3, pose: Pose)
    ensures Step(lib, speed, held, up, pose).eye == Step(lib, speed, held - Rotations, up, pose).eye
  {
    var f := FrameOf(lib, speed, up, pose);
    assert Glide(held, f) == Glide(held - Rotations, f);
    assert Lift(held, f) == Lift(held - Rotations, f);
  }

  /** With only rotation intents held, the camera pivots about its eye. */
  lemma RotationPivotsOnEye(lib: CgMath, speed: real, held: set<Action>, up: Vec3, pose: Pose)
    requires held <= Rotations && held != {}
    ensures Aim(lib, speed, held, up, FrameOf(lib, speed, up, pose).right, Offset(pose)).Some?
    ensures Step(lib, speed, held, up, pose) ==
      Pose(pose.eye, Add(pose.eye, Aim(lib, speed, held, up, FrameOf(lib, speed, up, pose).right, Offset(pose)).value))
  {
    var f := FrameOf(lib, speed, up, pose);
    StillFrame(held, f);
    AddZero(pose.eye);
    AddZero(Add(pose.eye, Aim(lib, speed, held, up, f.right, f.forward).value));
  }

  /** Strafing left and right together cancel: both use the same side vector. */
  lemma StrafesCancel(lib: CgMath, speed: real, held: set<Action>, up: Vec3, pose: Pose)
    requires Left in held && Right in held
    ensures Step(lib, speed, held, up, pose) == Step(lib, speed, held - {Left, Right}, up, pose)
  {
    var f := FrameOf(lib, speed, up, pose);
    var rest := held - {Left, Right};
    GlideStrafesCancel(held, f);
    assert Lift(held, f) == Lift(rest, f);
    assert Aim(lib, speed, held, up, f.right, f.forward) == Aim(lib, speed, rest, up, f.right, f.forward);
  }

  lemma GlideStrafesCancel(held: set<Action>, f: Frame)
    requires Left in held && Right in held
    ensures Glide(held, f) == Glide(held - {Left, Right}, f)
  {
    var rest := held - {Left, Right};
    assert Along(held, f) == Along(rest, f);
    assert Across(held, f) == Zero by { NegCancels(Zero, f.side); AddZero(Neg(f.side)); }
    assert Across(rest, f) == Zero by { AddZero(Zero); }
  }

  /** Forward alone moves both points one stride toward the target, but only while the target is farther than `speed`. */
  lemma ForwardIsGuarded(lib: CgMath, speed: real, up: Vec3, pose: Pose)
    ensures Step(lib, speed, {Forward}, up, pose) ==
      if lib.magnitude(Offset(pose)) > speed then Translate(pose, Stride(lib.normalize(Offset(pose)), speed)) else pose
  {
    var f := FrameOf(lib, speed, up, pose);
    var s := When(f.advance, f.ahead);
    AddZero(s);
    AddZero(Add(s, Zero));
    AddZero(Add(Add(s, Zero), Zero));
    AddZero(Zero);
    assert Glide({Forward}, f) == s;
    assert Lift({Forward}, f) == Zero;
    AddZero(Add(pose.eye, s));
    AddZero(Add(pose.target, s));
    AddWhen(pose.eye, f.advance, f.ahead);
    AddWhen(pose.target, f.advance, f.ahead);
  }

  /**
   * When `magnitude` is the Euclidean length, the forward guard holds
   * exactly when the target is farther from the eye than `speed`.
   */
  lemma ForwardGuardIsDistance(lib: CgMath, speed: real, up: Vec3, pose: Pose)
    requires var m := lib.magnitude(Offset(pose)); 0.0 <= m && m * m == Norm2(Offset(pose))
    ensures FrameOf(lib, speed, up, pose).advance <==> LongerThan(Offset(pose), speed)
  {
    LongerThanMatchesMagnitude(Offset(pose), speed, lib.magnitude(Offset(pose)));
  }

  /** Backward alone always moves both points one stride away from the target: it has no guard. */
  lemma BackwardIsUnguarded(lib: CgMath, speed: real, up: Vec3, pose: Pose)
    ensures Step(lib, speed, {Backward}, up, pose) ==
      Translate(pose, Neg(Stride(lib.normalize(Offset(pose)), speed)))
  {
    var f := FrameOf(lib, speed, up, pose);
    var s := Neg(f.ahead);
    AddZero(Zero);
    AddZero(Add(Zero, s));
    AddZero(Add(Add(Zero, s), Zero));
    assert Add(Zero, s) == s;
    assert Glide({Backward}, f) == s;
    assert Lift({Backward}, f) == Zero;
    AddZero(Add(pose.eye, s));
    AddZero(Add(pose.target, s));
  }

  /** A linear step along a unit direction has length `speed * speed_limit`. */
  lemma StrideLength(dir: Vec3, speed: real)
    requires Norm2(dir) == 1.0
    ensures Norm2(Stride(dir, speed)) == (speed * SpeedLimit) * (speed * SpeedLimit)
  {
    Norm2Scale(dir, speed);
    Norm2Scale(Scale(dir, speed), SpeedLimit);
  }

  /** A strafe moves at right angles both to the view direction and to `up`. */
  lemma StrafeIsSideways(lib: CgMath, speed: real, up: Vec3, pose: Pose, side: Action)
    requires side == Left || side == Right
    ensures var d := Sub(Step(lib, speed, {side}, up, pose).eye, pose.eye);
      Dot(d, up) == 0.0 && Dot(d, lib.normalize(Offset(pose))) == 0.0
  {
    var f := FrameOf(lib, speed, up, pose);
    var d := if side == Left then Neg(f.side) else f.side;
    StrafeGlide(side, f);
    assert Lift({side}, f) == Zero by { AddZero(Zero); }
    AddZero(Add(pose.eye, d));
    SubAfterAdd(pose.eye, d);
    SideIsSideways(lib.normalize(Offset(pose)), up, speed);
  }

  lemma StrafeGlide(side: Action, f: Frame)
    requires side == Left || side == Right
    ensures Glide({side}, f) == if side == Left then Neg(f.side) else f.side
  {
    var d := if side == Left then Neg(f.side) else f.side;
    AddZero(Zero);
    AddZero(Add(Zero, d));
    assert Add(Zero, d) == d;
  }

  /** The side stride `(n x up) * speed * speed_limit` is at right angles to `n` and to `up`, and so is its opposite. */
  lemma SideIsSideways(n: Vec3, up: Vec3, speed: real)
    ensures var s := Stride(Cross(n, up), speed);
      Dot(s, up) == 0.0 && Dot(s, n) == 0.0 && Dot(Neg(s), up) == 0.0 && Dot(Neg(s), n) == 0.0
  {
    var right := Cross(n, up);
    DotScale(right, speed, up);
    DotScale(Scale(right, speed), SpeedLimit, up);
    DotScale(right, speed, n);
    DotScale(Scale(right, speed), SpeedLimit, n);
  }

  /**
   * Distance between eye and target after a frame, as the source computes
   * it: translations keep the offset, and a rotation replaces it by a
   * rotated copy of the captured forward. With a unit `up`, yaw keeps the
   * distance; pitch keeps it only when the pitch axis
   * `normalize(forward) x up` happens to have length 1, which the source
   * does not ensure (see `Findings.PitchShortensDistance`).
   */
  lemma DistanceIsKept(lib: CgMath, speed: real, held: set<Action>, up: Vec3, pose: Pose)
    requires RotatesAboutUnitAxes(lib) && Norm2(up) == 1.0
    requires PitchUp in held || PitchDown in held ==> Norm2(FrameOf(lib, speed, up, pose).right) == 1.0
    ensures Norm2(Offset(Step(lib, speed, held, up, pose))) == Norm2(Offset(pose))
  {
    DistanceKeptByFrame(lib, speed, held, up, pose, FrameOf(lib, speed, up, pose));
  }

  lemma DistanceKeptByFrame(lib: CgMath, speed: real, held: set<Action>, up: Vec3, pose: Pose, f: Frame)
    requires RotatesAboutUnitAxes(lib) && Norm2(up) == 1.0 && f.forward == Offset(pose)
    requires PitchUp in held || PitchDown in held ==> Norm2(f.right) == 1.0
    ensures Norm2(Offset(Advance(lib, speed, held, up, pose, f))) == Norm2(Offset(pose))
  {
    OffsetAfterAdvance(lib, speed, held, up, pose, f);
  }

  /**
   * The pitch axis has length 1 when the view direction is a unit vector
   * at right angles to a unit `up`, that is when the camera looks level.
   */
  lemma LevelPitchAxisIsUnit(n: Vec3, up: Vec3)
    requires Norm2(n) == 1.0 && Norm2(up) == 1.0 && Dot(n, up) == 0.0
    ensures Norm2(Cross(n, up)) == 1.0
  {
    LagrangeIdentity(n, up);
  }

  /** The frame with the pitch axis normalized, as cgmath's axis-angle rotation expects. */
  function CorrectedFrameOf(lib: CgMath, speed: real, up: Vec3, pose: Pose): Frame {
    var f := FrameOf(lib, speed, up, pose);
    f.(right := lib.normalize(f.right))
  }

  /** One frame with the pitch axis normalized; everything else as in `Step`. */
  function CorrectedStep(lib: CgMath, speed: real, held: set<Action>, up: Vec3, pose: Pose): Pose {
    Advance(lib, speed, held, up, pose, CorrectedFrameOf(lib, speed, up, pose))
  }

  /**
   * With the pitch axis normalized, every frame keeps the distance between
   * eye and target, unless a pitch is asked for while the camera looks
   * along `up`: then the axis is zero and cgmath's normalization yields NaN.
   */
  lemma CorrectedStepKeepsDistance(lib: CgMath, speed: real, held: set<Action>, up: Vec3, pose: Pose)
    requires RotatesAboutUnitAxes(lib) && NormalizesToUnit(lib) && Norm2(up) == 1.0
    requires PitchUp in held || PitchDown in held ==> FrameOf(lib, speed, up, pose).right != Zero
    ensures Norm2(Offset(CorrectedStep(lib, speed, held, up, pose))) == Norm2(Offset(pose))
  {
    var f := CorrectedFrameOf(lib, speed, up, pose);
    if PitchUp in held || PitchDown in held {
      assert Norm2(f.right) == 1.0;
    }
    DistanceKeptByFrame(lib, speed, held, up, pose, f);
  }

  /** The correction changes nothing in a frame without pitch intents. */
  lemma CorrectionOnlyTouchesPitch(lib: CgMath, speed: real, held: set<Action>, up: Vec3, pose: Pose)
    requires PitchUp !in held && PitchDown !in held
    ensures CorrectedStep(lib, speed, held, up, pose) == Step(lib, speed, held, up, pose)
  {
    var f := FrameOf(lib, speed, up, pose);
    PitchAxisUnusedWithoutPitch(lib, speed, held, up, pose, f, lib.normalize(f.right));
  }

  lemma PitchAxisUnusedWithoutPitch(lib: CgMath, speed: real, held: set<Action>, up: Vec3, pose: Pose, f: Frame, r: Vec3)
    requires PitchUp !in held && PitchDown !in held
    ensures Advance(lib, speed, held, up, pose, f.(right := r)) == Advance(lib, speed, held, up, pose, f)
  {
    var g := f.(right := r);
    assert g.forward == f.forward && g.advance == f.advance && g.ahead == f.ahead;
    assert g.side == f.side && g.climb == f.climb;
    assert Along(held, g) == Along(held, f);
    assert Across(held, g) == Across(held, f);
    assert Glide(held, g) == Glide(held, f);
    assert Lift(held, g) == Lift(held, f);
    assert Aim(lib, speed, held, up, g.right, g.forward) == Aim(lib, speed, held, up, f.right, f.forward);
  }
}
