/**
 * The controller's input vocabulary: the key codes it is given, the ten
 * movement intents it tracks, which key drives which intent, and what one
 * key event does to the set of intents being held.
 */
module Intents {
  import opened Options

  /** The ten key codes the controller recognises; `Other` stands for every other code. */
  datatype KeyCode =
    | KeyW | KeyS | KeyA | KeyD
    | ArrowLeft | ArrowRight | ArrowUp | ArrowDown
    | KeyE | KeyQ
    | Other(id: nat)

  /** One intent per boolean flag of the controller. */
  datatype Action =
    | Forward | Backward | Left | Right
    | YawLeft | YawRight | PitchUp | PitchDown
    | Up | Down

  const AllActions: set<Action> :=
    {Forward, Backward, Left, Right, YawLeft, YawRight, PitchUp, PitchDown, Up, Down}

  /** The four intents that re-aim the camera rather than move it. */
  const Rotations: set<Action> := {YawLeft, YawRight, PitchUp, PitchDown}

  /** Which intent a key code drives, if any. */
  function Binding(code: KeyCode): (r: Option<Action>)
    ensures r.None? <==> code.Other?
  {
    match code
    case KeyW => Some(Forward)
    case KeyS => Some(Backward)
    case KeyA => Some(Left)
    case KeyD => Some(Right)
    case ArrowLeft => Some(YawLeft)
    case ArrowRight => Some(YawRight)
    case ArrowUp => Some(PitchUp)
    case ArrowDown => Some(PitchDown)
    case KeyE => Some(Up)
    case KeyQ => Some(Down)
    case Other(_) => None
  }

  /** The key that drives an intent: every intent has one. */
  function KeyFor(a: Action): (code: KeyCode)
    ensures Binding(code) == Some(a)
  {
    match a
    case Forward => KeyW
    case Backward => KeyS
    case Left => KeyA
    case Right => KeyD
    case YawLeft => ArrowLeft
    case YawRight => ArrowRight
    case PitchUp => ArrowUp
    case PitchDown => ArrowDown
    case Up => KeyE
    case Down => KeyQ
  }

  /** Each intent has exactly one key: `KeyFor` is the only code bound to it. */
  lemma BindingIsOneToOne(code: KeyCode, a: Action)
    ensures Binding(code) == Some(a) <==> code == KeyFor(a)
  {
    if Binding(code) == Some(a) {
      match code
      case KeyW => case KeyS => case KeyA => case KeyD =>
      case ArrowLeft => case ArrowRight => case ArrowUp => case ArrowDown =>
      case KeyE => case KeyQ =>
      case Other(_) =>
    }
  }

  /** The set of held intents after one key event: the bound intent is held exactly when the key is down. */
  function Press(held: set<Action>, code: KeyCode, pressed: bool): set<Action> {
    match Binding(code)
    case None => held
    case Some(a) => if pressed then held + {a} else held - {a}
  }

  /** A recognised key sets its own intent to `pressed` and leaves the nine others as they were. */
  lemma PressSetsOnlyItsIntent(held: set<Action>, code: KeyCode, pressed: bool, b: Action)
    requires !code.Other?
    ensures b in Press(held, code, pressed) <==> (if b == Binding(code).value then pressed else b in held)
  {}

  /** An unrecognised key changes nothing. */
  lemma PressIgnoresOtherKeys(held: set<Action>, code: KeyCode, pressed: bool)
    requires code.Other?
    ensures Press(held, code, pressed) == held
  {}

  /** Of two events for the same key, the second decides: in particular repeating an event changes nothing. */
  lemma PressLastWins(held: set<Action>, code: KeyCode, p: bool, q: bool)
    ensures Press(Press(held, code, p), code, q) == Press(held, code, q)
  {}

  /** Repeating the same event is harmless. */
  lemma PressIdempotent(held: set<Action>, code: KeyCode, pressed: bool)
    ensures Press(Press(held, code, pressed), code, pressed) == Press(held, code, pressed)
  {
    PressLastWins(held, code, pressed, pressed);
  }

  /** Events for different keys act on different flags, so their order does not matter. */
  lemma PressCommutes(held: set<Action>, c1: KeyCode, p1: bool, c2: KeyCode, p2: bool)
    requires c1 != c2
    ensures Press(Press(held, c1, p1), c2, p2) == Press(Press(held, c2, p2), c1, p1)
  {
    if !c1.Other? && !c2.Other? {
      var a1, a2 := Binding(c1).value, Binding(c2).value;
      BindingIsOneToOne(c1, a1);
      BindingIsOneToOne(c2, a2);
      assert a1 != a2;
    }
  }
}
