/** The keyboard state machine of the character demo: four direction flags,
    a pending-jump flag and the vertical velocity, updated by key-down and
    key-up events identified by their `KeyboardEvent.code` string. */
module Input {
  import opened Options

  /** The movement record the key handlers update. Only the vertical
      component of the velocity vector is ever used. */
  datatype Controls = Controls(
    moveForward: bool,
    moveBackward: bool,
    moveLeft: bool,
    moveRight: bool,
    jump: bool,
    vy: real)

  /** The record as first created: nothing held, no jump, at rest. */
  const Initial := Controls(false, false, false, false, false, 0.0)

  /** Velocity given by a jump key press. */
  const JumpVelocity: real := 10.0

  datatype Direction = Forward | Backward | Left | Right

  /** The direction a key code is bound to: arrow keys and WASD. */
  function DirectionOf(code: string): (d: Option<Direction>)
    ensures d == Some(Forward) <==> code in {"ArrowUp", "KeyW"}
    ensures d == Some(Backward) <==> code in {"ArrowDown", "KeyS"}
    ensures d == Some(Left) <==> code in {"ArrowLeft", "KeyA"}
    ensures d == Some(Right) <==> code in {"ArrowRight", "KeyD"}
  {
    if code == "ArrowUp" || code == "KeyW" then Some(Forward)
    else if code == "ArrowLeft" || code == "KeyA" then Some(Left)
    else if code == "ArrowDown" || code == "KeyS" then Some(Backward)
    else if code == "ArrowRight" || code == "KeyD" then Some(Right)
    else None
  }

  /** The flag of `c` that belongs to direction `d`. */
  function Flag(c: Controls, d: Direction): bool {
    match d
    case Forward => c.moveForward
    case Backward => c.moveBackward
    case Left => c.moveLeft
    case Right => c.moveRight
  }

  /** `c` with the flag of direction `d` set to `v` and every other field kept. */
  function WithFlag(c: Controls, d: Direction, v: bool): (r: Controls)
    ensures Flag(r, d) == v
    ensures forall e :: e != d ==> Flag(r, e) == Flag(c, e)
    ensures r.jump == c.jump && r.vy == c.vy
  {
    match d
    case Forward => c.(moveForward := v)
    case Backward => c.(moveBackward := v)
    case Left => c.(moveLeft := v)
    case Right => c.(moveRight := v)
  }

  /** The effect of a key-down event. A direction key sets exactly its own
      flag; Space starts a jump only while the vertical velocity is exactly
      zero; every other code changes nothing. */
  function KeyDown(c: Controls, code: string): (r: Controls)
    ensures DirectionOf(code).Some? ==> r == WithFlag(c, DirectionOf(code).value, true)
    ensures code == "Space" && c.vy == 0.0 ==> r == c.(jump := true, vy := JumpVelocity)
    ensures code == "Space" && c.vy != 0.0 ==> r == c
    ensures DirectionOf(code).None? && code != "Space" ==> r == c
  {
    if code == "ArrowUp" || code == "KeyW" then c.(moveForward := true)
    else if code == "ArrowLeft" || code == "KeyA" then c.(moveLeft := true)
    else if code == "ArrowDown" || code == "KeyS" then c.(moveBackward := true)
    else if code == "ArrowRight" || code == "KeyD" then c.(moveRight := true)
    else if code == "Space" then
      if c.vy == 0.0 then c.(jump := true, vy := JumpVelocity) else c
    else c
  }

  /** The effect of a key-up event: a direction key clears exactly its own
      flag; no code, Space included, touches the jump flag or the velocity. */
  function KeyUp(c: Controls, code: string): (r: Controls)
    ensures DirectionOf(code).Some? ==> r == WithFlag(c, DirectionOf(code).value, false)
    ensures DirectionOf(code).None? ==> r == c
    ensures r.jump == c.jump && r.vy == c.vy
  {
    if code == "ArrowUp" || code == "KeyW" then c.(moveForward := false)
    else if code == "ArrowLeft" || code == "KeyA" then c.(moveLeft := false)
    else if code == "ArrowDown" || code == "KeyS" then c.(moveBackward := false)
    else if code == "ArrowRight" || code == "KeyD" then c.(moveRight := false)
    else c
  }

  /** Releasing a direction key after pressing it leaves that flag clear
      and the rest of the record as it was before the press. */
  lemma KeyUpUndoesKeyDown(c: Controls, code: string)
    requires DirectionOf(code).Some?
    ensures KeyUp(KeyDown(c, code), code) == WithFlag(c, DirectionOf(code).value, false)
  {
  }

  /** Auto-repeated key-down events are harmless: a second press of the same
      key changes nothing, Space included, since the first press made the
      velocity non-zero. */
  lemma KeyDownIdempotent(c: Controls, code: string)
    ensures KeyDown(KeyDown(c, code), code) == KeyDown(c, code)
  {
  }

  /** The jump guard: Space can only raise the jump flag from a state that
      is at rest vertically, and a raised flag always comes with the jump
      velocity. */
  lemma JumpOnlyFromRest(c: Controls, code: string)
    requires !c.jump
    ensures KeyDown(c, code).jump ==> code == "Space" && c.vy == 0.0 && KeyDown(c, code).vy == JumpVelocity
  {
  }
}
