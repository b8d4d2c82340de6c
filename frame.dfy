/** One whole animation frame as a function of the state before it: the
    movement step, then the collision sweep with the character's box taken
    right after the movement step. Properties that span key events and
    several frames are stated here. */
module Frame {
  import opened Geometry
  import opened Input
  import opened Motion
  import opened Collision

  /** The character's state between frames: the key handlers' record and
      the position of the loaded character. */
  datatype Player = Player(controls: Controls, pos: Vec3)

  /** A frame of duration `delta` for a character with box offsets `lo` and
      `hi` among obstacles `boxes`. */
  function Step(p: Player, delta: real, lo: Vec3, hi: Vec3, boxes: seq<Box>): (r: Player)
    ensures r.controls.moveForward == p.controls.moveForward && r.controls.moveBackward == p.controls.moveBackward
    ensures r.controls.moveLeft == p.controls.moveLeft && r.controls.moveRight == p.controls.moveRight
    ensures !r.controls.jump
  {
    var m := Move(Body(p.pos, p.controls.vy), p.controls, delta);
    var f := Sweep(m, PlayerBox(m.pos, lo, hi), boxes);
    Player(p.controls.(jump := false, vy := f.vy), f.pos)
  }

  /** The body after the movement step of a frame, before collisions. */
  function Moved(p: Player, delta: real): Body {
    Move(Body(p.pos, p.controls.vy), p.controls, delta)
  }

  /** No obstacle overlaps the character after it has moved. */
  predicate Clear(p: Player, delta: real, lo: Vec3, hi: Vec3, boxes: seq<Box>) {
    forall i :: 0 <= i < |boxes| ==> !Intersects(PlayerBox(Moved(p, delta).pos, lo, hi), boxes[i])
  }

  /** Among obstacles that do not overlap, a frame is the movement step
      alone, and in particular it leaves the character at or above the
      ground. */
  lemma StepWhenClear(p: Player, delta: real, lo: Vec3, hi: Vec3, boxes: seq<Box>)
    requires Clear(p, delta, lo, hi, boxes)
    ensures var r := Step(p, delta, lo, hi, boxes);
            r.pos == Moved(p, delta).pos && r.controls.vy == Moved(p, delta).vy && r.pos.y >= 0.0
  {
    var m := Moved(p, delta);
    SweepNoOverlap(m, PlayerBox(m.pos, lo, hi), boxes);
  }

  /** A character standing still on the ground at rest. */
  predicate Idle(p: Player) {
    !p.controls.moveForward && !p.controls.moveBackward && !p.controls.moveLeft && !p.controls.moveRight &&
    !p.controls.jump
  }

  /** Standing still on the ground does not keep the character at rest:
      the clamp only fires below the ground, so an idle frame from rest
      leaves the position alone but the velocity at `-Gravity * delta`. */
  lemma IdleGroundedFrame(p: Player, delta: real, lo: Vec3, hi: Vec3, boxes: seq<Box>)
    requires Idle(p) && p.pos.y == 0.0 && p.controls.vy == 0.0
    requires forall i :: 0 <= i < |boxes| ==> !Intersects(PlayerBox(p.pos, lo, hi), boxes[i])
    ensures var r := Step(p, delta, lo, hi, boxes);
            r.pos == p.pos && r.controls.vy == -Gravity * delta && Idle(r)
  {
    assert Moved(p, delta).pos == p.pos;
    StepWhenClear(p, delta, lo, hi, boxes);
  }

  /** The velocity therefore flickers on the ground: after an idle frame of
      positive duration Space is ignored, and the next idle frame puts the
      character back at rest, where Space works again. */
  lemma GroundedFlicker(p: Player, d1: real, d2: real, lo: Vec3, hi: Vec3, boxes: seq<Box>)
    requires Idle(p) && p.pos.y == 0.0 && p.controls.vy == 0.0
    requires d1 > 0.0 && d2 >= 0.0
    requires forall i :: 0 <= i < |boxes| ==> !Intersects(PlayerBox(p.pos, lo, hi), boxes[i])
    ensures var r1 := Step(p, d1, lo, hi, boxes);
            var r2 := Step(r1, d2, lo, hi, boxes);
            KeyDown(r1.controls, "Space") == r1.controls &&
            r2.pos == p.pos && r2.controls.vy == 0.0 &&
            KeyDown(r2.controls, "Space").jump
  {
    IdleGroundedFrame(p, d1, lo, hi, boxes);
    var r1 := Step(p, d1, lo, hi, boxes);
    assert Moved(r1, d2).pos == p.pos;
    StepWhenClear(r1, d2, lo, hi, boxes);
  }

  /** A jump from rest on the ground: the key press sets the velocity to
      `JumpVelocity`, but the frame overwrites it, so the first frame lifts
      the character by `JumpSpeed * delta` only and leaves the velocity at
      `(JumpSpeed - Gravity) * delta`. */
  lemma JumpFromGround(p: Player, delta: real, lo: Vec3, hi: Vec3, boxes: seq<Box>)
    requires Idle(p) && p.pos.y == 0.0 && p.controls.vy == 0.0 && delta >= 0.0
    requires Clear(p.(controls := KeyDown(p.controls, "Space")), delta, lo, hi, boxes)
    ensures var q := p.(controls := KeyDown(p.controls, "Space"));
            var r := Step(q, delta, lo, hi, boxes);
            q.controls.jump && q.controls.vy == JumpVelocity &&
            r.pos == p.pos.(y := JumpSpeed * delta) &&
            r.controls.vy == (JumpSpeed - Gravity) * delta && Idle(r)
  {
    var q := p.(controls := KeyDown(p.controls, "Space"));
    StepWhenClear(q, delta, lo, hi, boxes);
  }

  /** The ground invariant holds after the clamp but not after the sweep: an
      obstacle resolved downwards whose lower face is closer to the ground
      than the character's height leaves the character below the ground at
      the end of the frame. */
  lemma DownwardPushSinksBelowGround(p: Player, delta: real, lo: Vec3, hi: Vec3, box: Box)
    requires var pb := PlayerBox(Moved(p, delta).pos, lo, hi);
             Intersects(pb, box) && PushAxis(pb, box) == Y && Normal(pb, box).y <= 0.0 &&
             box.min.y < hi.y - lo.y
    ensures Step(p, delta, lo, hi, [box]).pos.y < 0.0
  {
    var m := Moved(p, delta);
    SweepPair(m, PlayerBox(m.pos, lo, hi), box, box);
  }

  /** The frame does end at or above the ground when every vertical push is
      upwards onto an obstacle whose top face is not below the ground. */
  lemma StepAboveGround(p: Player, delta: real, lo: Vec3, hi: Vec3, boxes: seq<Box>)
    requires var pb := PlayerBox(Moved(p, delta).pos, lo, hi);
             forall i :: 0 <= i < |boxes| && Intersects(pb, boxes[i]) && PushAxis(pb, boxes[i]) == Y ==>
               Normal(pb, boxes[i]).y > 0.0 && boxes[i].max.y >= 0.0
    ensures Step(p, delta, lo, hi, boxes).pos.y >= 0.0
  {
    var m := Moved(p, delta);
    SweepCoordinate(m, PlayerBox(m.pos, lo, hi), boxes, Y);
  }

  /** Landing on an obstacle, or being pushed down from one, stops the
      character, so the next Space press starts a jump. */
  lemma VerticalPushAllowsJump(p: Player, delta: real, lo: Vec3, hi: Vec3, boxes: seq<Box>, i: int)
    requires 0 <= i < |boxes|
    requires var pb := PlayerBox(Moved(p, delta).pos, lo, hi);
             Intersects(pb, boxes[i]) && PushAxis(pb, boxes[i]) == Y
    ensures var r := Step(p, delta, lo, hi, boxes);
            r.controls.vy == 0.0 && KeyDown(r.controls, "Space").jump
  {
    var m := Moved(p, delta);
    SweepVelocity(m, PlayerBox(m.pos, lo, hi), boxes);
  }
}
