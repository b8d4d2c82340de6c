/** The movement part of one animation frame, before collisions:
    horizontal movement from the direction flags, consumption of a pending
    jump, gravity and the ground clamp. */
module Motion {
  import opened Geometry
  import opened Input

  /** What a frame moves: the character's position and vertical velocity. */
  datatype Body = Body(pos: Vec3, vy: real)

  /** Horizontal speed, per second. */
  const MoveSpeed: real := 100.0
  /** Gravity, per second. */
  const Gravity: real := 30.0
  /** Velocity a pending jump is given at the start of a frame, per second. */
  const JumpSpeed: real := 10.0

  function Bit(b: bool): real {
    if b then 1.0 else 0.0
  }

  /** Horizontal movement: each held direction key moves `MoveSpeed * delta`
      along its own axis, so opposite keys cancel and diagonal keys combine. */
  function Walk(pos: Vec3, c: Controls, delta: real): (p: Vec3)
    ensures p.x == pos.x + (Bit(c.moveRight) - Bit(c.moveLeft)) * MoveSpeed * delta
    ensures p.y == pos.y
    ensures p.z == pos.z + (Bit(c.moveBackward) - Bit(c.moveForward)) * MoveSpeed * delta
  {
    var step := MoveSpeed * delta;
    var p1 := if c.moveForward then pos.(z := pos.z - step) else pos;
    var p2 := if c.moveBackward then p1.(z := p1.z + step) else p1;
    var p3 := if c.moveLeft then p2.(x := p2.x - step) else p2;
    if c.moveRight then p3.(x := p3.x + step) else p3
  }

  /** The velocity the frame integrates: a pending jump overwrites whatever
      velocity the key press left with `JumpSpeed * delta`. */
  function Launch(vy: real, jump: bool, delta: real): real {
    if jump then JumpSpeed * delta else vy
  }

  /** Gravity: the velocity is added to the height as a per-frame
      displacement, and only then reduced by `Gravity * delta`. */
  function Integrate(b: Body, delta: real): Body {
    var p := b.pos.(y := b.pos.y + b.vy);
    Body(p, b.vy - Gravity * delta)
  }

  /** Ground clamp: a body below height 0 is put back on the ground at rest;
      any other body is left alone. */
  function Clamp(b: Body): (r: Body)
    ensures r.pos.y >= 0.0
    ensures r.pos.x == b.pos.x && r.pos.z == b.pos.z
    ensures b.pos.y < 0.0 ==> r.pos.y == 0.0 && r.vy == 0.0
    ensures b.pos.y >= 0.0 ==> r == b
  {
    if b.pos.y < 0.0 then Body(b.pos.(y := 0.0), 0.0) else b
  }

  /** Everything a frame does before collisions, in the source's order. */
  function Move(b: Body, c: Controls, delta: real): Body {
    Clamp(Integrate(Body(Walk(b.pos, c, delta), Launch(b.vy, c.jump, delta)), delta))
  }

  /** The movement step in one statement: the horizontal coordinates follow
      the flags, the height is the integrated one clamped at the ground, and
      the velocity is the launched one less gravity, or 0 when clamped. */
  lemma MoveSummary(b: Body, c: Controls, delta: real)
    ensures var v := Launch(b.vy, c.jump, delta);
            var m := Move(b, c, delta);
            m.pos.x == b.pos.x + (Bit(c.moveRight) - Bit(c.moveLeft)) * MoveSpeed * delta &&
            m.pos.z == b.pos.z + (Bit(c.moveBackward) - Bit(c.moveForward)) * MoveSpeed * delta &&
            m.pos.y >= 0.0 &&
            (b.pos.y + v < 0.0 ==> m.pos.y == 0.0 && m.vy == 0.0) &&
            (b.pos.y + v >= 0.0 ==> m.pos.y == b.pos.y + v && m.vy == v - Gravity * delta)
  {
  }

  /** The velocity a key press gives never reaches the position: with a jump
      pending, the movement step does not depend on the velocity it starts
      from. */
  lemma PendingJumpOverwritesVelocity(pos: Vec3, v1: real, v2: real, c: Controls, delta: real)
    requires c.jump
    ensures Move(Body(pos, v1), c, delta) == Move(Body(pos, v2), c, delta)
  {
  }
}
