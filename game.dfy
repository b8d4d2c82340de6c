/** The demo's mutable controller state and its three entry points: the
    key-down and key-up handlers and the per-frame update. Each method
    updates the fields in place, in the order the handlers do, and is
    proved to agree with the value-level definitions of `Input` and
    `Frame`. */
module Game {
  import opened Geometry
  import opened Input
  import opened Motion
  import opened Collision
  import opened Frame

  class World {
    /** The key handlers' record. */
    var moveForward: bool
    var moveBackward: bool
    var moveLeft: bool
    var moveRight: bool
    var jump: bool
    var vy: real

    /** The loaded character's position. */
    var pos: Vec3

    /** The obstacle meshes and their bounding boxes, index-aligned. */
    const collisionObjects: seq<Mesh>
    var collisionBoxes: seq<Box>

    /** The character's box offsets around its position. */
    const lo: Vec3
    const hi: Vec3

    /** Whether the character model has been loaded; until then a frame
        moves nothing. */
    const loaded: bool

    /** Each box is the bounding box of the mesh at the same index. */
    ghost predicate Valid()
      reads this
    {
      collisionBoxes == BoxesOf(collisionObjects)
    }

    /** The state as a value. */
    function State(): Player
      reads this
    {
      Player(Controls(moveForward, moveBackward, moveLeft, moveRight, jump, vy), pos)
    }

    /** A world with the given obstacles, before any key event or frame:
        nothing held, no jump, at rest, at the origin. */
    constructor (objects: seq<Mesh>, lo: Vec3, hi: Vec3, loaded: bool)
      ensures Valid()
      ensures State() == Player(Initial, Vec3(0.0, 0.0, 0.0))
      ensures collisionObjects == objects && this.lo == lo && this.hi == hi && this.loaded == loaded
    {
      moveForward := false;
      moveBackward := false;
      moveLeft := false;
      moveRight := false;
      jump := false;
      vy := 0.0;
      pos := Vec3(0.0, 0.0, 0.0);
      collisionObjects := objects;
      collisionBoxes := BoxesOf(objects);
      this.lo := lo;
      this.hi := hi;
      this.loaded := loaded;
    }

    /** The key-down handler. */
    method OnKeyDown(code: string)
      modifies this
      ensures State() == Player(KeyDown(old(State()).controls, code), old(pos))
      ensures collisionBoxes == old(collisionBoxes)
    {
      if code == "ArrowUp" || code == "KeyW" {
        moveForward := true;
      } else if code == "ArrowLeft" || code == "KeyA" {
        moveLeft := true;
      } else if code == "ArrowDown" || code == "KeyS" {
        moveBackward := true;
      } else if code == "ArrowRight" || code == "KeyD" {
        moveRight := true;
      } else if code == "Space" {
        if vy == 0.0 {
          jump := true;
          vy := JumpVelocity;
        }
      }
    }

    /** The key-up handler. */
    method OnKeyUp(code: string)
      modifies this
      ensures State() == Player(KeyUp(old(State()).controls, code), old(pos))
      ensures collisionBoxes == old(collisionBoxes)
    {
      if code == "ArrowUp" || code == "KeyW" {
        moveForward := false;
      } else if code == "ArrowLeft" || code == "KeyA" {
        moveLeft := false;
      } else if code == "ArrowDown" || code == "KeyS" {
        moveBackward := false;
      } else if code == "ArrowRight" || code == "KeyD" {
        moveRight := false;
      }
    }

    /** One frame of duration `delta`: once the character is loaded, the
        movement step followed by the sweep over the obstacles, each box
        being refreshed from its mesh before it is tested against the
        character's box taken once, right after the movement step. */
    method Animate(delta: real)
      requires Valid() && delta >= 0.0
      modifies this
      ensures Valid() && collisionBoxes == old(collisionBoxes)
      ensures loaded ==> State() == Step(old(State()), delta, lo, hi, collisionBoxes)
      ensures !loaded ==> State() == old(State())
    {
      if loaded {
        MoveStep(delta);
        ghost var start := Body(pos, vy);
        ghost var moved := State();
        var playerBox := PlayerBox(pos, lo, hi);

        var i := 0;
        while i < |collisionBoxes|
          invariant 0 <= i <= |collisionBoxes|
          invariant Valid() && collisionBoxes == old(collisionBoxes)
          invariant Body(pos, vy) == Sweep(start, playerBox, collisionBoxes[..i])
          invariant State() == Player(moved.controls.(vy := vy), pos)
        {
          ResolveAt(i, playerBox);
          assert collisionBoxes[..i + 1][..i] == collisionBoxes[..i];
          i := i + 1;
        }
        assert collisionBoxes[..i] == collisionBoxes;
      }
    }

    /** The movement part of a frame, up to and including the ground clamp. */
    method MoveStep(delta: real)
      modifies this
      ensures Body(pos, vy) == Moved(old(State()), delta)
      ensures State() == Player(old(State()).controls.(jump := false, vy := vy), pos)
      ensures collisionBoxes == old(collisionBoxes)
    {
      var moveSpeed := MoveSpeed * delta;
      var gravity := Gravity * delta;
      var jumpSpeed := JumpSpeed * delta;

      if moveForward { pos := pos.(z := pos.z - moveSpeed); }
      if moveBackward { pos := pos.(z := pos.z + moveSpeed); }
      if moveLeft { pos := pos.(x := pos.x - moveSpeed); }
      if moveRight { pos := pos.(x := pos.x + moveSpeed); }

      if jump {
        vy := jumpSpeed;
        jump := false;
      }

      pos := pos.(y := pos.y + vy);
      vy := vy - gravity;

      if pos.y < 0.0 {
        pos := pos.(y := 0.0);
        vy := 0.0;
      }
    }

    /** The sweep's visit of the obstacle at index `i`: its box is refreshed
        from its mesh and then resolved against the character's box
        `playerBox`. */
    method ResolveAt(i: int, playerBox: Box)
      requires Valid() && 0 <= i < |collisionBoxes|
      modifies this
      ensures Valid() && collisionBoxes == old(collisionBoxes)
      ensures Body(pos, vy) == ResolveOne(old(Body(pos, vy)), playerBox, collisionBoxes[i])
      ensures State() == Player(old(State()).controls.(vy := vy), pos)
    {
      collisionBoxes := collisionBoxes[i := BoxOfMesh(collisionObjects[i])];
      Push(playerBox, collisionBoxes[i]);
    }

    /** An obstacle box that overlaps the character's box `playerBox` sets
        one coordinate, to its upper face or to its lower face less the
        character's size; one that does not changes nothing. */
    method Push(playerBox: Box, box: Box)
      modifies this
      ensures Body(pos, vy) == ResolveOne(old(Body(pos, vy)), playerBox, box)
      ensures State() == Player(old(State()).controls.(vy := vy), pos)
      ensures collisionBoxes == old(collisionBoxes)
    {
      if Intersects(playerBox, box) {
        var boxCenter := Center(box);
        var playerCenter := Center(playerBox);
        var n := Sub(playerCenter, boxCenter);
        if Abs(n.y) > Abs(n.x) && Abs(n.y) > Abs(n.z) {
          if n.y > 0.0 {
            pos := pos.(y := box.max.y);
            vy := 0.0;
          } else {
            pos := pos.(y := box.min.y - Size(playerBox).y);
            vy := 0.0;
          }
        } else if Abs(n.x) > Abs(n.z) {
          if n.x > 0.0 {
            pos := pos.(x := box.max.x);
          } else {
            pos := pos.(x := box.min.x - Size(playerBox).x);
          }
        } else {
          if n.z > 0.0 {
            pos := pos.(z := box.max.z);
          } else {
            pos := pos.(z := box.min.z - Size(playerBox).z);
          }
        }
      }
    }
  }
}
