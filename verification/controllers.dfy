/**
 * The camera controller: ten flags set by key events, and a per-frame
 * update that moves the camera according to the flags.
 */
module Controllers {
  import opened Options
  import opened Vectors
  import opened Intents
  import opened Library
  import opened Motion
  import opened Cameras

  class Controller {
    var speed: real
    var isForwardPressed: bool
    var isBackwardPressed: bool
    var isLeftPressed: bool
    var isRightPressed: bool
    var isLeftRotatePressed: bool
    var isRightRotatePressed: bool
    var isUpRotatePressed: bool
    var isDownRotatePressed: bool
    var isUpPressed: bool
    var isDownPressed: bool

    /** The flag that records whether intent `a` is held. */
    function Flag(a: Action): bool
      reads this
    {
      match a
      case Forward => isForwardPressed
      case Backward => isBackwardPressed
      case Left => isLeftPressed
      case Right => isRightPressed
      case YawLeft => isLeftRotatePressed
      case YawRight => isRightRotatePressed
      case PitchUp => isUpRotatePressed
      case PitchDown => isDownRotatePressed
      case Up => isUpPressed
      case Down => isDownPressed
    }

    /** The intents currently held, one per raised flag. */
    function Held(): (s: set<Action>)
      reads this
      ensures forall a :: a in s <==> Flag(a)
    {
      set a | a in AllActions && Flag(a)
    }

    /** A controller with the given speed and no intent held. */
    constructor(speed: real)
      ensures this.speed == speed
      ensures Held() == {}
    {
      this.speed := speed;
      isForwardPressed, isBackwardPressed, isLeftPressed, isRightPressed := false, false, false, false;
      isLeftRotatePressed, isRightRotatePressed, isUpRotatePressed, isDownRotatePressed := false, false, false, false;
      isUpPressed, isDownPressed := false, false;
    }

    /**
     * Records a key event. A recognised key sets its own flag to
     * `isPressed` and reports the event as handled; any other key changes
     * nothing and is reported as not handled.
     */
    method HandleKey(code: KeyCode, isPressed: bool) returns (handled: bool)
      modifies this
      ensures handled <==> !code.Other?
      ensures speed == old(speed)
      ensures forall a :: Flag(a) == if Binding(code) == Some(a) then isPressed else old(Flag(a))
      ensures Held() == Press(old(Held()), code, isPressed)
    {
      match code
      case KeyW => isForwardPressed := isPressed; handled := true;
      case KeyS => isBackwardPressed := isPressed; handled := true;
      case KeyA => isLeftPressed := isPressed; handled := true;
      case KeyD => isRightPressed := isPressed; handled := true;
      case ArrowLeft => isLeftRotatePressed := isPressed; handled := true;
      case ArrowRight => isRightRotatePressed := isPressed; handled := true;
      case ArrowUp => isUpRotatePressed := isPressed; handled := true;
      case ArrowDown => isDownRotatePressed := isPressed; handled := true;
      case KeyE => isUpPressed := isPressed; handled := true;
      case KeyQ => isDownPressed := isPressed; handled := true;
      case Other(_) => handled := false;
    }

    /**
     * Moves the camera for one frame. Only `eye` and `target` change, and
     * they change as `Motion.Step` describes. The four blocks of the update
     * (moves along the view, strafes, rotations, vertical moves) are the
     * methods below, called in the same order on the same values.
     */
    method UpdateCamera(camera: Camera, lib: CgMath)
      modifies camera
      ensures camera.up == old(camera.up) && camera.aspect == old(camera.aspect) && camera.fovy == old(camera.fovy)
      ensures camera.znear == old(camera.znear) && camera.zfar == old(camera.zfar)
      ensures Pose(camera.eye, camera.target) == Step(lib, speed, Held(), camera.up, old(Pose(camera.eye, camera.target)))
    {
      ghost var pose := Pose(camera.eye, camera.target);
      ghost var held := Held();

      var forward := Sub(camera.target, camera.eye);
      var forwardNorm := lib.normalize(forward);
      var forwardMag := lib.magnitude(forward);

      MoveAlongView(camera, forwardNorm, forwardMag);
      ghost var p1 := Pose(camera.eye, camera.target);
      assert p1 == Translate(pose, Add(When(Forward in held && forwardMag > speed, Stride(forwardNorm, speed)),
                                       When(Backward in held, Neg(Stride(forwardNorm, speed))))) by {
        assert Forward in held <==> isForwardPressed;
        assert Backward in held <==> isBackwardPressed;
      }
      Strafe(camera, forwardNorm);
      ghost var p2 := Pose(camera.eye, camera.target);
      assert p2 == Translate(p1, Add(When(Left in held, Neg(Stride(Cross(forwardNorm, camera.up), speed))),
                                     When(Right in held, Stride(Cross(forwardNorm, camera.up), speed)))) by {
        assert Left in held <==> isLeftPressed;
        assert Right in held <==> isRightPressed;
      }
      Turn(camera, lib, forward, forwardNorm);
      ghost var p3 := Pose(camera.eye, camera.target);
      MoveVertically(camera);
      assert Pose(camera.eye, camera.target) ==
        Translate(p3, Add(When(Up in held, Stride(camera.up, speed)), When(Down in held, Neg(Stride(camera.up, speed))))) by {
        assert Up in held <==> isUpPressed;
        assert Down in held <==> isDownPressed;
      }
      StepInBlocks(lib, speed, held, camera.up, pose, forwardNorm, forwardMag, p1, p2, p3, Pose(camera.eye, camera.target));
    }

    /** Forward, when held and the target is farther than `speed`, then backward, when held. */
    method MoveAlongView(camera: Camera, forwardNorm: Vec3, forwardMag: real)
      modifies camera
      ensures camera.up == old(camera.up) && camera.aspect == old(camera.aspect) && camera.fovy == old(camera.fovy)
      ensures camera.znear == old(camera.znear) && camera.zfar == old(camera.zfar)
      ensures var d := Add(When(isForwardPressed && forwardMag > speed, Stride(forwardNorm, speed)),
                           When(isBackwardPressed, Neg(Stride(forwardNorm, speed))));
        camera.eye == Add(old(camera.eye), d) && camera.target == Add(old(camera.target), d)
    {
      ghost var eye0, target0 := camera.eye, camera.target;
      if isForwardPressed && forwardMag > speed {
        camera.eye := Add(camera.eye, Stride(forwardNorm, speed));
        camera.target := Add(camera.target, Stride(forwardNorm, speed));
      }
      ghost var eye1, target1 := camera.eye, camera.target;
      if isBackwardPressed {
        camera.eye := Sub(camera.eye, Stride(forwardNorm, speed));
        camera.target := Sub(camera.target, Stride(forwardNorm, speed));
        SubIsAddNeg(eye1, Stride(forwardNorm, speed));
        SubIsAddNeg(target1, Stride(forwardNorm, speed));
      }
      TwoGuardedMoves(eye0, isForwardPressed && forwardMag > speed, Stride(forwardNorm, speed),
                      isBackwardPressed, Neg(Stride(forwardNorm, speed)));
      TwoGuardedMoves(target0, isForwardPressed && forwardMag > speed, Stride(forwardNorm, speed),
                      isBackwardPressed, Neg(Stride(forwardNorm, speed)));
    }

    /** Strafe left, when held, then right, when held, along `forwardNorm x up`. */
    method Strafe(camera: Camera, forwardNorm: Vec3)
      modifies camera
      ensures camera.up == old(camera.up) && camera.aspect == old(camera.aspect) && camera.fovy == old(camera.fovy)
      ensures camera.znear == old(camera.znear) && camera.zfar == old(camera.zfar)
      ensures var side := Stride(Cross(forwardNorm, camera.up), speed);
        var d := Add(When(isLeftPressed, Neg(side)), When(isRightPressed, side));
        camera.eye == Add(old(camera.eye), d) && camera.target == Add(old(camera.target), d)
    {
      ghost var eye0, target0 := camera.eye, camera.target;
      ghost var side := Stride(Cross(forwardNorm, camera.up), speed);
      if isLeftPressed {
        var right := Cross(forwardNorm, camera.up);
        camera.eye := Sub(camera.eye, Stride(right, speed));
        camera.target := Sub(camera.target, Stride(right, speed));
        SubIsAddNeg(eye0, side);
        SubIsAddNeg(target0, side);
      }
      if isRightPressed {
        var right := Cross(forwardNorm, camera.up);
        camera.eye := Add(camera.eye, Stride(right, speed));
        camera.target := Add(camera.target, Stride(right, speed));
      }
      TwoGuardedMoves(eye0, isLeftPressed, Neg(side), isRightPressed, side);
      TwoGuardedMoves(target0, isLeftPressed, Neg(side), isRightPressed, side);
    }

    /**
     * Yaw left, yaw right, pitch up, pitch down, each when held: each one
     * re-aims the target from the eye along a rotation of the `forward`
     * captured on entry, so the last one held decides.
     */
    method Turn(camera: Camera, lib: CgMath, forward: Vec3, forwardNorm: Vec3)
      modifies camera
      ensures camera.up == old(camera.up) && camera.aspect == old(camera.aspect) && camera.fovy == old(camera.fovy)
      ensures camera.znear == old(camera.znear) && camera.zfar == old(camera.zfar)
      ensures camera.eye == old(camera.eye)
      ensures camera.target ==
        match Aim(lib, speed, Held(), camera.up, Cross(forwardNorm, camera.up), forward)
        case None => old(camera.target)
        case Some(d) => Add(camera.eye, d)
    {
      if isLeftRotatePressed {
        var newForward := lib.rotate(camera.up, speed, forward);
        camera.target := Add(camera.eye, newForward);
      }
      if isRightRotatePressed {
        var newForward := lib.rotate(camera.up, -speed, forward);
        camera.target := Add(camera.eye, newForward);
      }
      var right := Cross(forwardNorm, camera.up);
      if isUpRotatePressed {
        var newForward := lib.rotate(right, speed, forward);
        camera.target := Add(camera.eye, newForward);
      }
      if isDownRotatePressed {
        var newForward := lib.rotate(right, -speed, forward);
        camera.target := Add(camera.eye, newForward);
      }
    }

    /** Up, when held, then down, when held, along the camera's `up`. */
    method MoveVertically(camera: Camera)
      modifies camera
      ensures camera.up == old(camera.up) && camera.aspect == old(camera.aspect) && camera.fovy == old(camera.fovy)
      ensures camera.znear == old(camera.znear) && camera.zfar == old(camera.zfar)
      ensures var climb := Stride(camera.up, speed);
        var d := Add(When(isUpPressed, climb), When(isDownPressed, Neg(climb)));
        camera.eye == Add(old(camera.eye), d) && camera.target == Add(old(camera.target), d)
    {
      ghost var eye0, target0 := camera.eye, camera.target;
      ghost var climb := Stride(camera.up, speed);
      if isUpPressed {
        camera.eye := Add(camera.eye, Stride(camera.up, speed));
        camera.target := Add(camera.target, Stride(camera.up, speed));
      }
      ghost var eye1, target1 := camera.eye, camera.target;
      if isDownPressed {
        camera.eye := Sub(camera.eye, Stride(camera.up, speed));
        camera.target := Sub(camera.target, Stride(camera.up, speed));
        SubIsAddNeg(eye1, climb);
        SubIsAddNeg(target1, climb);
      }
      TwoGuardedMoves(eye0, isUpPressed, climb, isDownPressed, Neg(climb));
      TwoGuardedMoves(target0, isUpPressed, climb, isDownPressed, Neg(climb));
    }
  }
}
