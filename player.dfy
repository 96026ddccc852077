/**
 * The keyboard half of the first-person controller
 * (src/renderer/src/utils/player.svelte.ts): key-down and key-up events set
 * and clear six movement flags and toggle sprinting, and each frame turns the
 * flags into an integer heading and picks the forward acceleration.
 *
 * Key codes are the `KeyboardEvent.code` strings the controller switches on.
 */
module Player {
  import opened Wrappers

  const FORWARD_KEYS: set<string> := {"ArrowUp", "KeyW"}
  const LEFT_KEYS: set<string> := {"ArrowLeft", "KeyA"}
  const BACKWARD_KEYS: set<string> := {"ArrowDown", "KeyS"}
  const RIGHT_KEYS: set<string> := {"ArrowRight", "KeyD"}
  const UP_KEYS: set<string> := {"Space"}
  const DOWN_KEYS: set<string> := {"ShiftLeft", "ShiftRight"}
  const SPRINT_KEY: string := "ControlLeft"

  /** The codes that drive one of the six movement flags. */
  const MOVEMENT_KEYS: set<string> :=
    FORWARD_KEYS + LEFT_KEYS + BACKWARD_KEYS + RIGHT_KEYS + UP_KEYS + DOWN_KEYS

  /** Initial movement speed, in units per second. */
  const DEFAULT_MOVE_SPEED: real := 10.0

  /** The controller's discrete input state. */
  datatype Flags = Flags(
    forward: bool, backward: bool, left: bool, right: bool,
    up: bool, down: bool, sprinting: bool)

  /** Nothing held, not sprinting: the state a new controller starts in. */
  const Idle: Flags := Flags(false, false, false, false, false, false, false)

  /** Sprinting is only ever on while forward is held. */
  predicate SprintNeedsForward(f: Flags) {
    f.sprinting ==> f.forward
  }

  /**
   * The state after a key-down: a movement key sets its own flag; the sprint
   * key flips sprinting, but only while forward is held; nothing else changes.
   */
  function KeyDown(f: Flags, code: string): (g: Flags)
    ensures g.forward == (f.forward || code in FORWARD_KEYS)
    ensures g.backward == (f.backward || code in BACKWARD_KEYS)
    ensures g.left == (f.left || code in LEFT_KEYS)
    ensures g.right == (f.right || code in RIGHT_KEYS)
    ensures g.up == (f.up || code in UP_KEYS)
    ensures g.down == (f.down || code in DOWN_KEYS)
    ensures g.sprinting != f.sprinting <==> code == SPRINT_KEY && f.forward
    ensures code !in MOVEMENT_KEYS && code != SPRINT_KEY ==> g == f
  {
    match code
    case "ArrowUp" | "KeyW" => f.(forward := true)
    case "ArrowLeft" | "KeyA" => f.(left := true)
    case "ArrowDown" | "KeyS" => f.(backward := true)
    case "ArrowRight" | "KeyD" => f.(right := true)
    case "Space" => f.(up := true)
    case "ShiftLeft" | "ShiftRight" => f.(down := true)
    case "ControlLeft" => if f.forward then f.(sprinting := !f.sprinting) else f
    case _ => f
  }

  /**
   * The state after a key-up: a movement key clears its own flag, and
   * releasing forward also ends sprinting; the sprint key and unknown codes
   * change nothing.
   */
  function KeyUp(f: Flags, code: string): (g: Flags)
    ensures g.forward == (f.forward && code !in FORWARD_KEYS)
    ensures g.backward == (f.backward && code !in BACKWARD_KEYS)
    ensures g.left == (f.left && code !in LEFT_KEYS)
    ensures g.right == (f.right && code !in RIGHT_KEYS)
    ensures g.up == (f.up && code !in UP_KEYS)
    ensures g.down == (f.down && code !in DOWN_KEYS)
    ensures g.sprinting == (f.sprinting && code !in FORWARD_KEYS)
    ensures code !in MOVEMENT_KEYS ==> g == f
  {
    match code
    case "ArrowUp" | "KeyW" => f.(forward := false, sprinting := false)
    case "ArrowLeft" | "KeyA" => f.(left := false)
    case "ArrowDown" | "KeyS" => f.(backward := false)
    case "ArrowRight" | "KeyD" => f.(right := false)
    case "Space" => f.(up := false)
    case "ShiftLeft" | "ShiftRight" => f.(down := false)
    case _ => f
  }

  /** A keyboard event, by its code. */
  datatype Event = Down(code: string) | Up(code: string)

  function Apply(f: Flags, e: Event): Flags {
    match e
    case Down(code) => KeyDown(f, code)
    case Up(code) => KeyUp(f, code)
  }

  /** The state after handling `events` in order. */
  function Replay(f: Flags, events: seq<Event>): Flags
    decreases |events|
  {
    if |events| == 0 then f else Replay(Apply(f, events[0]), events[1..])
  }

  /** A single event keeps sprinting tied to forward. */
  lemma ApplyKeepsSprintNeedsForward(f: Flags, e: Event)
    requires SprintNeedsForward(f)
    ensures SprintNeedsForward(Apply(f, e))
  {
  }

  /** No sequence of events can leave the player sprinting without moving forward. */
  lemma {:induction false} ReplayKeepsSprintNeedsForward(f: Flags, events: seq<Event>)
    requires SprintNeedsForward(f)
    ensures SprintNeedsForward(Replay(f, events))
    decreases |events|
  {
    if |events| > 0 {
      ApplyKeepsSprintNeedsForward(f, events[0]);
      ReplayKeepsSprintNeedsForward(Apply(f, events[0]), events[1..]);
    }
  }

  /** Replaying a concatenation is replaying its halves one after the other. */
  lemma {:induction false} ReplayAppend(f: Flags, first: seq<Event>, second: seq<Event>)
    ensures Replay(f, first + second) == Replay(Replay(f, first), second)
    decreases |first|
  {
    if |first| == 0 {
      assert first + second == second;
    } else {
      assert (first + second)[0] == first[0];
      assert (first + second)[1..] == first[1..] + second;
      ReplayAppend(Apply(f, first[0]), first[1..], second);
    }
  }

  /**
   * Releasing a movement key undoes pressing it: a press followed by the
   * matching release ends in the same state as the release alone.
   */
  lemma ReleaseUndoesPress(f: Flags, code: string)
    requires code in MOVEMENT_KEYS
    ensures KeyUp(KeyDown(f, code), code) == KeyUp(f, code)
  {
  }

  /** Releasing a key twice is the same as releasing it once. */
  lemma KeyUpIdempotent(f: Flags, code: string)
    ensures KeyUp(KeyUp(f, code), code) == KeyUp(f, code)
  {
  }

  /** Pressing the sprint key twice restores the state. */
  lemma SprintToggleTwice(f: Flags)
    ensures KeyDown(KeyDown(f, SPRINT_KEY), SPRINT_KEY) == f
  {
  }

  /** Releasing forward always leaves the player walking, whatever came before. */
  lemma ReleaseForwardStopsSprint(f: Flags, events: seq<Event>, code: string)
    requires code in FORWARD_KEYS
    ensures !Replay(f, events + [Up(code)]).sprinting
    ensures !Replay(f, events + [Up(code)]).forward
  {
    ReplayAppend(f, events, [Up(code)]);
  }

  /** A heading component: +1, -1 or 0 from a pair of opposing flags. */
  function Axis(positive: bool, negative: bool): (a: int)
    ensures -1 <= a <= 1
    ensures a == 1 <==> positive && !negative
    ensures a == -1 <==> negative && !positive
    ensures a == 0 <==> positive == negative
  {
    (if positive then 1 else 0) - (if negative then 1 else 0)
  }

  /** The heading before normalisation, one integer per axis. */
  datatype Heading = Heading(x: int, y: int, z: int)

  /** Right minus left, up minus down, forward minus backward. */
  function HeadingOf(f: Flags): (h: Heading)
    ensures -1 <= h.x <= 1 && -1 <= h.y <= 1 && -1 <= h.z <= 1
    ensures h.x > 0 <==> f.right && !f.left
    ensures h.y > 0 <==> f.up && !f.down
    ensures h.z > 0 <==> f.forward && !f.backward
    ensures h.x < 0 <==> f.left && !f.right
    ensures h.y < 0 <==> f.down && !f.up
    ensures h.z < 0 <==> f.backward && !f.forward
    ensures h == Heading(0, 0, 0) <==>
      f.right == f.left && f.up == f.down && f.forward == f.backward
  {
    Heading(Axis(f.right, f.left), Axis(f.up, f.down), Axis(f.forward, f.backward))
  }

  /** The base acceleration derived from the movement speed. */
  function BaseAcceleration(moveSpeed: real): real {
    moveSpeed * 60.0
  }

  /**
   * The acceleration applied along the forward axis: doubled exactly when
   * sprinting while forward is held.
   */
  function ForwardAcceleration(f: Flags, base: real): (a: real)
    ensures f.sprinting && f.forward ==> a == 2.0 * base
    ensures !(f.sprinting && f.forward) ==> a == base
  {
    if f.sprinting && f.forward then 2.0 * base else base
  }

  /**
   * Under the controller's own invariant the forward check is redundant:
   * the acceleration is doubled exactly when sprinting.
   */
  lemma SprintDoublesAcceleration(f: Flags, base: real)
    requires SprintNeedsForward(f)
    requires base != 0.0
    ensures ForwardAcceleration(f, base) == 2.0 * base <==> f.sprinting
  {
  }

  /** The controller; `locked` stands for the pointer-lock state it reads each frame. */
  class PlayerController {
    var moveForward: bool
    var moveBackward: bool
    var moveLeft: bool
    var moveRight: bool
    var moveUp: bool
    var moveDown: bool
    var isSprinting: bool
    var moveSpeed: real
    var locked: bool
    var direction: Heading

    function State(): Flags
      reads this
    {
      Flags(moveForward, moveBackward, moveLeft, moveRight, moveUp, moveDown, isSprinting)
    }

    constructor()
      ensures State() == Idle && SprintNeedsForward(State())
      ensures moveSpeed == DEFAULT_MOVE_SPEED && !locked && direction == Heading(0, 0, 0)
    {
      moveForward, moveBackward, moveLeft, moveRight := false, false, false, false;
      moveUp, moveDown, isSprinting := false, false, false;
      moveSpeed := DEFAULT_MOVE_SPEED;
      locked := false;
      direction := Heading(0, 0, 0);
    }

    method OnKeyDown(code: string)
      modifies this
      ensures State() == KeyDown(old(State()), code)
      ensures moveSpeed == old(moveSpeed) && locked == old(locked) && direction == old(direction)
    {
      match code
      case "ArrowUp" | "KeyW" => moveForward := true;
      case "ArrowLeft" | "KeyA" => moveLeft := true;
      case "ArrowDown" | "KeyS" => moveBackward := true;
      case "ArrowRight" | "KeyD" => moveRight := true;
      case "Space" => moveUp := true;
      case "ShiftLeft" | "ShiftRight" => moveDown := true;
      case "ControlLeft" =>
        if moveForward {
          isSprinting := !isSprinting;
        }
      case _ =>
    }

    method OnKeyUp(code: string)
      modifies this
      ensures State() == KeyUp(old(State()), code)
      ensures moveSpeed == old(moveSpeed) && locked == old(locked) && direction == old(direction)
    {
      match code
      case "ArrowUp" | "KeyW" =>
        moveForward := false;
        isSprinting := false;
      case "ArrowLeft" | "KeyA" => moveLeft := false;
      case "ArrowDown" | "KeyS" => moveBackward := false;
      case "ArrowRight" | "KeyD" => moveRight := false;
      case "Space" => moveUp := false;
      case "ShiftLeft" | "ShiftRight" => moveDown := false;
      case _ =>
    }

    /**
     * The discrete part of a frame: nothing happens unless the pointer is
     * locked; otherwise the heading is recomputed from the flags and the
     * forward acceleration for this frame is chosen and returned.
     */
    method Update() returns (forwardAcceleration: Option<real>)
      modifies this
      ensures !old(locked) ==> unchanged(this) && forwardAcceleration == None
      ensures old(locked) ==>
        (direction == HeadingOf(State()) &&
         forwardAcceleration == Some(ForwardAcceleration(State(), BaseAcceleration(moveSpeed))))
      ensures State() == old(State()) && moveSpeed == old(moveSpeed) && locked == old(locked)
    {
      if !locked {
        return None;
      }
      var dz := (if moveForward then 1 else 0) - (if moveBackward then 1 else 0);
      var dx := (if moveRight then 1 else 0) - (if moveLeft then 1 else 0);
      var dy := (if moveUp then 1 else 0) - (if moveDown then 1 else 0);
      direction := Heading(dx, dy, dz);
      var base := BaseAcceleration(moveSpeed);
      var current := if isSprinting && moveForward then base * 2.0 else base;
      forwardAcceleration := Some(current);
    }
  }
}
