# A verified model of the wgpu_test camera

This project models the camera core of `wgpu_test`, a small real-time
renderer. The core has three parts:

- **`CameraController`** holds a speed and ten boolean intent flags: forward,
  backward, strafe left, strafe right, yaw left, yaw right, pitch up, pitch
  down, up and down.
  - `handle_key` sets the flag bound to a key code to the key's pressed
    state. It reports whether the code was one of the ten recognised keys.
  - `update_camera` moves the camera's `eye` and `target` once per frame
    according to the flags.
- **`Camera::build_view_projection_matrix`** combines the library's view and
  projection matrices. It puts the OpenGL-to-wgpu depth correction
  (`OPENGL_TO_WGPU_MATRIX`) in front of them.
- **`CameraUniform`** holds the combined matrix for the shader. It starts out
  as the identity.

The Dafny modules follow that structure:

- `Vectors` holds 3-vectors over the reals: sum, difference, scaling, dot
  product and the right-handed cross product. `LongerThan` decides `|v| > s`
  without a square root.
- `Matrices` holds column-major 4x4 matrices, matrix-vector and
  matrix-matrix products, the identity, the depth correction and its
  inverse.
- `Library` is the `CgMath` record. It holds the cgmath routines the camera
  calls but this model does not define: `normalize`, `magnitude`,
  quaternion rotation, `look_at_rh` and `perspective`. Every operation and
  lemma that uses those routines takes the record as a parameter. Where a
  lemma needs a property of them, it says so in its `requires`, using two
  predicates. `NormalizesToUnit` says that a non-zero vector normalizes to
  length 1. `RotatesAboutUnitAxes` says that rotation about an axis of length
  1 keeps lengths. cgmath promises no more than that: its axis-angle
  quaternion has unit length only when the axis does.
- `Intents` holds the key codes and the ten intents. `Binding` says which key
  drives which intent. `Press` gives the effect of one key event on the set of
  held intents.
- `Motion` gives the closed form of one frame, `Step`:
  - The moves along the view and the strafes add up to one translation
    (`Glide`).
  - The last held rotation, in source order, re-aims the target from the
    moved eye. It rotates the forward vector captured on entry (`Aim`).
  - The vertical moves add up to one translation (`Lift`), applied last.
- `Cameras` holds the `Camera` and `CameraUniform` classes.
- `Controllers` holds the `Controller` class. Its ten flags are fields, and
  `HandleKey` and `UpdateCamera` update them or the camera in place.
  `UpdateCamera` runs the four blocks of the source in order: moves along the
  view, strafes, rotations, vertical moves. Each block is one method.
  `UpdateCamera` is proved to produce exactly `Motion.Step`.
- `Findings` works through one frame in which the source's pitch changes the
  distance between eye and target. The pitch axis `forward_norm x up` is not
  normalized before it is handed to `from_axis_angle`. `Motion.CorrectedStep`
  is the same frame with that axis normalized.
  `Controllers.Controller.UpdateCamera` and `Motion.Step` model the code as
  written.

## Model

| member | source | states |
|---|---|---|
| Matrices.CorrectionAction | src/camera.rs:4-10 | The correction keeps x, y and w and replaces depth z by (z + w) / 2. |
| Matrices.CorrectionDepthRange | src/camera.rs:4-10 | A clip-space depth in OpenGL's range -w..w lands in wgpu's range 0..w. |
| Matrices.UncorrectionAction | src/camera.rs:4-10 | The inverse correction keeps x, y and w and replaces depth z by 2z - w. |
| Matrices.CorrectionUndone | src/camera.rs:4-10 | The inverse correction times the correction is the identity, so the correction loses no information. |
| Matrices.UncorrectionUndone | src/camera.rs:4-10 | The correction times its inverse is the identity, so the two are inverses on both sides. |
| Matrices.ApplyMatMul | src/camera.rs:31 | Applying a matrix product means applying the right factor first. This is what gives `C * proj * view` its meaning. |
| Matrices.IdentityFixes | src/camera.rs:42-47 | The identity matrix stored by `CameraUniform::new` maps every vector to itself. |
| Cameras.ViewThenProjectThenCorrect | src/camera.rs:23-32 | The combined matrix acts on a point by applying the view, then the projection, then the depth correction. |
| Cameras.ClipDepthLandsInWgpuRange | src/camera.rs:23-32 | If the projected depth of a point lies in -w..w, the combined matrix gives it a depth in 0..w. |
| Cameras.CameraUniform.constructor | src/camera.rs:42-47 | A new uniform holds the identity matrix. |
| Cameras.CameraUniform.UpdateViewProj | src/camera.rs:49-51 | The uniform then holds the camera's combined matrix. Only the uniform changes. |
| Cameras.Camera.constructor | src/camera.rs:12-20 | A camera holds the eye, target, up, aspect, fovy, znear and zfar it is given. |
| Intents.Binding | src/camera.rs:85-128 | A key code drives an intent exactly when it is one of the ten recognised keys. |
| Intents.KeyFor | src/camera.rs:85-128 | Every one of the ten intents has a key that drives it. |
| Intents.BindingIsOneToOne | src/camera.rs:85-128 | Exactly one key drives each intent. |
| Intents.PressSetsOnlyItsIntent | src/camera.rs:86-126 | A recognised key event sets the key's own intent to the pressed state. It leaves every other intent as it was. |
| Intents.PressIgnoresOtherKeys | src/camera.rs:127 | An unrecognised key event changes no intent. |
| Intents.PressLastWins | src/camera.rs:85-128 | Of two events for the same key, only the second matters. |
| Intents.PressIdempotent | src/camera.rs:85-128 | Repeating an event changes nothing. |
| Intents.PressCommutes | src/camera.rs:85-128 | Events for two different keys can come in either order with the same result. |
| Controllers.Controller.Held | src/camera.rs:54-66 | An intent is held exactly when its flag is set. |
| Controllers.Controller.constructor | src/camera.rs:69-83 | A new controller has the given speed and no flag set. |
| Controllers.Controller.HandleKey | src/camera.rs:85-129 | The result is true exactly for the ten recognised keys, and speed is unchanged. The key's own flag becomes `is_pressed` and every other flag keeps its value. The set of held intents becomes `Press` of the old set. |
| Controllers.Controller.UpdateCamera | src/camera.rs:131-192 | Only eye and target change (up, aspect, fovy, znear and zfar keep their values). The new eye and target are `Motion.Step` of the old ones, with the controller's speed and held intents. |
| Controllers.Controller.MoveAlongView | src/camera.rs:140-147 | Both points move by the forward stride if forward is held and the magnitude exceeds speed. They then move by the backward stride if backward is held. Other camera fields are unchanged. |
| Controllers.Controller.Strafe | src/camera.rs:149-158 | Both points move by minus the side stride along `forward_norm x up` if left is held, then by plus the side stride if right is held. |
| Controllers.Controller.Turn | src/camera.rs:160-182 | The eye is unchanged. The target becomes the eye plus the rotation `Motion.Aim` chooses, or stays where it is when no rotation is held. |
| Controllers.Controller.MoveVertically | src/camera.rs:184-191 | Both points move by plus the climb stride along `up` if up is held, then by minus it if down is held. |
| Motion.StepInBlocks | src/camera.rs:131-192 | Performing the four blocks of the update in order, each computed from the normalized forward and its magnitude taken on entry, arrives at `Step`. |
| Motion.IdleIsFixedPoint | src/camera.rs:131-192 | With no intent held, which is the state right after `new`, a frame leaves eye and target unchanged. |
| Motion.TranslationsAreRigid | src/camera.rs:140-191 | Without rotation intents, eye and target move by one and the same vector, so target - eye is preserved. |
| Motion.OffsetAfterStep | src/camera.rs:160-182 | After a frame, target - eye is the vector the last held rotation produced, or is unchanged when no rotation is held. |
| Motion.AimRotatesCapturedForward | src/camera.rs:160-182 | A rotation applied is one of the four rotations (yaw ±speed about up, pitch ±speed about `forward_norm x up`) of the forward vector captured on entry. No rotation means no rotation intent is held. |
| Motion.RotationsKeepEye | src/camera.rs:160-182 | The eye after a frame does not depend on the rotation intents. |
| Motion.RotationPivotsOnEye | src/camera.rs:160-182 | With only rotation intents held, the eye stays put and the target becomes eye plus the chosen rotated forward. |
| Motion.StrafesCancel | src/camera.rs:149-158 | Holding left and right together has the same effect as holding neither. |
| Motion.ForwardIsGuarded | src/camera.rs:140-143 | Forward alone moves both points one stride along the normalized forward when the magnitude exceeds speed. Otherwise it does nothing. |
| Motion.ForwardGuardIsDistance | src/camera.rs:134-140 | When `magnitude` is the Euclidean length, the forward guard holds exactly when `LongerThan(target - eye, speed)`. |
| Motion.BackwardIsUnguarded | src/camera.rs:144-147 | Backward alone always moves both points one stride against the normalized forward. There is no distance guard. |
| Motion.StrideLength | src/camera.rs:138-142 | A stride along a unit direction has length `speed * 0.05`. |
| Motion.StrafeIsSideways | src/camera.rs:149-158 | A strafe moves the eye at right angles to both `up` and the normalized forward. |
| Motion.DistanceIsKept | src/camera.rs:160-182 | Suppose `up` has length 1 and rotation keeps lengths about unit axes. Then a frame keeps the distance between eye and target, unless it pitches about an axis `forward_norm x up` that is not of unit length. |
| Motion.LevelPitchAxisIsUnit | src/camera.rs:171 | The axis `forward_norm x up` has length 1 when the unit view direction is at right angles to a unit `up`, that is, when the camera looks level. |
| Motion.AimOfPitchUp | src/camera.rs:173-177 | With only pitch-up held, the rotation block turns the captured forward by `speed` about the pitch axis. |
| Motion.OffsetAfterAdvance | src/camera.rs:160-182 | For any frame values, the new target - eye is the chosen rotation of the captured forward, or is unchanged when no rotation is held. |
| Motion.CorrectedStepKeepsDistance | src/camera.rs:171-181 | With the pitch axis normalized, every frame keeps the distance between eye and target. This needs `up` of length 1, unit normalization, and rotation that keeps lengths about unit axes. A pitch is excluded only when its axis is zero, where cgmath yields NaN. |
| Motion.CorrectionOnlyTouchesPitch | src/camera.rs:160-182 | Normalizing the pitch axis changes nothing in a frame without pitch intents. |
| Findings.PitchShortensDistance | src/camera.rs:171-177 | Take eye (0, 3, 4), target at the origin, up (0, 1, 0), pitch up held, and a half-angle with cosine 0.8 and sine 0.6. The pitch axis has squared length 0.64. The squared eye-target distance drops from 25 to 22.014016. |
| Findings.CorrectedPitchKeepsDistance | src/camera.rs:171-177 | In the same frame with the axis normalized to (1, 0, 0), the squared distance stays 25. |
| Vectors.Cross | src/camera.rs:150 | The cross product is orthogonal to both of its arguments. |
| Vectors.LagrangeIdentity | src/camera.rs:171 | The squared length of `a x b` is the product of the squared lengths of `a` and `b`, minus the square of their dot product. |
| Vectors.LongerThanMatchesMagnitude | src/camera.rs:136-140 | For any non-negative square root `m` of the squared length, `LongerThan(v, s)` holds exactly when `m > s`. |

## Left out

- Floating point: all arithmetic is over the reals. `f32` rounding is not modelled. Neither are NaN from normalizing a zero vector or infinities.
- Library routines: cgmath's `normalize`, `magnitude`, `Quaternion::from_axis_angle(..).rotate_vector(..)`, `Matrix4::look_at_rh` and `perspective` are parameters (`Library.CgMath`), not definitions. They rest on square roots and trigonometry. Lemmas that need a property of them state it as a `requires`. They use a unit-length result for non-zero vectors, an exact magnitude, or rotation that keeps lengths about unit axes. cgmath's rotation about an axis of any other length scales as well as turns; `Findings.QuaternionRotate` writes it out for the example.
- Motion.DistanceIsKept: the source does not keep the eye-target distance when it pitches about an axis whose length is not 1. So this lemma requires a unit pitch axis whenever a pitch is held. `Findings.PitchShortensDistance` shows a frame without one. `Motion.CorrectedStepKeepsDistance` drops the requirement for the corrected pitch.
- Degree angles: `cgmath::Deg` is kept as the angle argument of `rotate` and `perspective`. Conversion to radians is part of those routines.
- Uniform layout: `CameraUniform` stores a `Mat4`, not `[[f32; 4]; 4]`. The `.into()` conversion, `#[repr(C)]` and the `bytemuck` derivations only change the memory layout. That layout is column by column, as in `Mat4`.
- Key codes: winit's `KeyCode` has many more variants. They are all represented by `Intents.KeyCode.Other`, which the controller treats alike.
- Concurrency and event loops: the window, event loop and GPU buffer upload that call this core are not part of this model.

## Findings

| source | as written | input that shows it | evidently intended | confidence | as-written member | corrected member |
|---|---|---|---|---|---|---|
| src/camera.rs:171-181 | Pitch rotates about `forward_norm.cross(camera.up)`, which has length 1 only when the camera looks level. `Quaternion::from_axis_angle` expects a unit axis; about any other axis the quaternion scales as well as turns. | eye (0, 3, 4), target (0, 0, 0), up (0, 1, 0), ArrowUp held, half-angle cosine 0.8 and sine 0.6: the axis is (0.8, 0, 0), and the squared distance from eye to target drops from 25 to 22.014016 | Pitch about the normalized axis, which keeps the distance from eye to target | medium, not executed | Findings.PitchShortensDistance | Motion.CorrectedStepKeepsDistance |
