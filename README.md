# Keyboard character controller of a three.js demo, in Dafny

This project models the character controller of the demo's `js/main.js`
and proves properties of it. The controller has two parts:

- **Key handlers.** The key-down and key-up handlers keep a record of four
  direction flags, a pending-jump flag and the vertical velocity. A key is
  identified by its `KeyboardEvent.code` string. Space starts a jump only
  while the vertical velocity is exactly zero.
- **The frame update.** Once the character model is loaded, each frame does
  the following, in this order:
  1. moves the character horizontally by `100 * delta` per held direction
     key;
  2. consumes a pending jump;
  3. adds the velocity to the height and then subtracts `30 * delta` from
     the velocity;
  4. clamps the character to the ground;
  5. sweeps the obstacles in list order. Each obstacle's box is refreshed
     from its mesh and tested against the character's box, which was taken
     once before the sweep. Each overlapping obstacle sets exactly one
     coordinate of the position. That coordinate is chosen by the dominant
     axis of the difference between the two box centres. It is set to the
     obstacle's upper face when the character's centre is on the positive
     side, and otherwise to the lower face less the character's size.

Modules:

- `Geometry`: vectors, axes, boxes and obstacle meshes. It holds the
  closed-interval overlap test and the dominant-axis choice.
- `Input`: the key handlers' record as a value, with `KeyDown` and `KeyUp`.
- `Motion`: the movement part of a frame, up to and including the ground
  clamp.
- `Collision`: resolution against one obstacle (`ResolveOne`) and the sweep
  (`Sweep`). The sweep's "last push wins" behaviour is captured by the
  overwrite `Effect`.
- `Frame`: a whole frame as a function of the state before it (`Step`), and
  properties that span key events and several frames.
- `Game`: the mutable state as a class `World`. Its fields are the handlers'
  record, the position and the obstacle lists. Its methods `OnKeyDown`,
  `OnKeyUp` and `Animate` update the fields in place, and each is proved
  equal to the value-level definition.

Modelling choices:

- **Arithmetic.** All arithmetic is exact `real` arithmetic. The frame
  duration `delta` is a parameter with `delta >= 0`.
- **The character's box.** It is its position plus fixed offsets `lo` and
  `hi`.
- **Obstacle boxes.** An obstacle is a box mesh that is never rotated or
  scaled. Its box is its position plus or minus half its size.
- **The push direction.** The difference of the box centres is used
  without normalization. `Geometry.DominantAxisScaleInvariant` proves that
  positive scaling changes neither the chosen axis nor any sign. When the
  centres coincide, no strict comparison holds and the push goes to the
  negative z face, as in the code.
- **The character model.** Whether the model is loaded is the constant
  `World.loaded`.

Three consequences of the code as written are proved rather than assumed
away:

- **The ground clamp is strict.** It only fires below the ground, so an
  idle frame on the ground leaves the velocity at `-30 * delta`. Space is
  then ignored until the next idle frame brings the velocity back to zero
  (`Frame.GroundedFlicker`).
- **The ground invariant can break after the clamp.** It holds right after
  the clamp. A downward push in the sweep can still leave the character
  below the ground at the end of the frame
  (`Frame.DownwardPushSinksBelowGround`).
- **Pushes do not guarantee separation.**
  - A push places the position, not the box. Whether the box ends up clear
    of the obstacle therefore depends on the sign of the box's lower offset
    on the pushed axis (`Collision.PushSeparation`,
    `Collision.PushClearsOverlap`). The overlap test counts touching boxes
    as overlapping. So a character whose feet are at its position is still
    overlapping after every vertical push, and a box that extends on both
    sides of its position still overlaps after a push to an upper face.
  - The box used in the tests is stale. A later push can move the
    character back into an obstacle resolved earlier in the same frame
    (`Collision.StaleBoxReintroducesOverlap`).

## Model

| member | source | states |
|---|---|---|
| Input.DirectionOf | js/main.js:240-255 | each direction is bound to exactly its arrow key and its WASD key, in both directions of the equivalence |
| Input.KeyDown | js/main.js:239-264 | a direction key sets exactly its own flag and keeps every other field; Space with zero velocity raises the jump flag and sets the velocity to 10; Space with non-zero velocity and every unmapped code change nothing |
| Input.KeyUp | js/main.js:266-285 | a direction key clears exactly its own flag; every other code, Space included, changes nothing; jump flag and velocity are never touched |
| Input.WithFlag | js/main.js:243-255 | the flag of the given direction gets the new value, the other three flags, the jump flag and the velocity are kept |
| Input.KeyUpUndoesKeyDown | js/main.js:239-285 | releasing a direction key after pressing it gives the original record with that flag clear |
| Input.KeyDownIdempotent | js/main.js:239-264 | a repeated key-down event, Space included, changes nothing more |
| Input.JumpOnlyFromRest | js/main.js:257-262 | the jump flag can only be raised by Space from zero velocity, and then comes with velocity 10 |
| Motion.Walk | js/main.js:295-302 | x changes by (right - left) * 100 * delta, z by (backward - forward) * 100 * delta, y is unchanged, so opposite keys cancel |
| Motion.Launch | js/main.js:304-307 | a pending jump replaces the velocity by `10 * delta`; stated by `Motion.MoveSummary` and `Motion.PendingJumpOverwritesVelocity` |
| Motion.Integrate | js/main.js:309-310 | the velocity is added to the height before gravity reduces it; stated by `Motion.MoveSummary` |
| Motion.Clamp | js/main.js:312-315 | afterwards the height is at least 0; a negative height becomes exactly 0 with velocity 0; otherwise nothing changes; x and z are kept |
| Motion.Move | js/main.js:294-315 | the movement step in the source's order: walk, jump, integration, clamp; its properties are stated by `Motion.MoveSummary` |
| Motion.MoveSummary | js/main.js:294-315 | the movement step: horizontal movement from the flags, the launched velocity added to the height, then gravity, with the clamp to 0 and velocity 0 exactly when the height would be negative |
| Motion.PendingJumpOverwritesVelocity | js/main.js:304-310 | with a jump pending, the movement step does not depend on the velocity the key press set |
| Geometry.DominantAxis | js/main.js:329-356 | the chosen axis has the largest magnitude, and on a tie it is z over x over y, so y wins only when strictly largest and x only when strictly larger than z |
| Geometry.DominantAxisScaleInvariant | js/main.js:324-332 | scaling the centre difference by a positive factor, as normalization does, changes neither the chosen axis nor the sign of any coordinate |
| Geometry.SameShapeSamePush | js/main.js:329-356 | vectors agreeing on the compared magnitudes and signs select the same axis and direction |
| Geometry.Intersects | js/main.js:323 | the closed overlap test; its meaning is stated by `Geometry.CommonPointIntersects`, `Geometry.IntersectsHasCommonPoint` and `Geometry.IntersectsByAxis` |
| Geometry.IntersectsByAxis | js/main.js:323 | two boxes overlap exactly when they overlap on each of the three axes |
| Geometry.CommonPointIntersects | js/main.js:323 | boxes sharing a point, faces included, overlap |
| Geometry.IntersectsHasCommonPoint | js/main.js:323 | valid overlapping boxes share a point, so the test is closed-interval overlap |
| Geometry.BoxOfMesh | js/main.js:161-175 | an obstacle's box is centred on the mesh position and has the mesh's size, and is valid for a non-negative size |
| Geometry.BoxesOf | js/main.js:172-176 | the box list has one box per mesh, at the same index |
| Geometry.PlayerBox | js/main.js:318 | the character's box is its position plus the offsets, with size hi - lo |
| Collision.Normal | js/main.js:324-327 | the character's box centre less the obstacle's box centre, unnormalized; `Geometry.DominantAxisScaleInvariant` shows normalizing would change no decision |
| Collision.PushTarget | js/main.js:333-354 | the value the pushed coordinate gets: the upper face on the positive side, else the lower face less the character's size; stated by `Collision.ResolveOne` |
| Collision.ResolveOne | js/main.js:323-356 | a non-overlapping obstacle changes nothing; an overlapping one assigns the dominant-axis coordinate its upper face when the centre difference is positive there and otherwise the lower face minus the character's size, keeps the other two coordinates, and zeroes the velocity exactly for a vertical push |
| Collision.Sweep | js/main.js:320-359 | the obstacles resolved one after another in list order against the same box; stated by `Collision.SweepIsEffect`, `Collision.SweepCoordinate`, `Collision.SweepLastPusher` and `Collision.SweepVelocity` |
| Collision.SweepNoOverlap | js/main.js:318-323 | a sweep over obstacles none of which overlaps the stale character box leaves position and velocity unchanged |
| Collision.SweepAppend | js/main.js:320-359 | sweeping a concatenation is sweeping the parts one after the other |
| Collision.SweepSkipsNonOverlapping | js/main.js:318-323 | a non-overlapping obstacle can be dropped from anywhere in the list |
| Collision.SweepVelocity | js/main.js:333-340 | the velocity after the sweep is 0 if some overlapping obstacle is resolved vertically and unchanged if none is |
| Collision.SweepCoordinate | js/main.js:320-359 | a coordinate on which no overlapping obstacle pushes keeps its start value, and every coordinate after the sweep is its start value or the push target of some overlapping obstacle pushing on that axis |
| Collision.SweepLastPusher | js/main.js:320-359 | the last overlapping obstacle in list order that pushes on an axis decides that coordinate: it ends at that obstacle's push target |
| Collision.ApplyThen | js/main.js:320-359 | composing two overwrites applies them in order |
| Collision.ResolveOneIsEffect | js/main.js:323-356 | one obstacle's resolution is an overwrite that does not depend on the position it acts on |
| Collision.SweepIsEffect | js/main.js:320-359 | the whole sweep is one overwrite determined by the stale box and the obstacles; the last push on each coordinate wins |
| Collision.SweepIdempotent | js/main.js:320-359 | repeating a sweep with the same character box changes nothing more |
| Collision.PushSeparation | js/main.js:333-355 | after a push the character's box lies at or beyond the upper face exactly when its lower offset is non-negative, and at or beyond the lower face exactly when that offset is non-positive; at offset 0 it touches the face |
| Collision.PushClearsOverlap | js/main.js:333-355 | in terms of the closed overlap test: after a push to the upper face the boxes still overlap exactly when the lower offset is not positive, and after a push to the lower face exactly when it is not negative, provided the box still reaches the obstacle on the far side |
| Collision.LandsOnTop | js/main.js:333-335 | with feet at the position, an upward vertical push puts the feet on the obstacle's top and stops the character |
| Collision.CoincidentCentres | js/main.js:350-354 | coincident centres push the character below the obstacle's lower z face and keep the velocity |
| Collision.SweepPair | js/main.js:320-359 | sweeping two obstacles resolves the first and then the second against the same box |
| Collision.StaleBoxReintroducesOverlap | js/main.js:318-359 | a push to a lower x face clears an obstacle or leaves the box touching it, yet a later push from another obstacle tested against the stale box can leave the character overlapping it again |
| Frame.Step | js/main.js:293-359 | a frame keeps the four direction flags and always clears the jump flag |
| Frame.StepWhenClear | js/main.js:294-359 | among non-overlapping obstacles a frame is the movement step alone and ends at or above the ground |
| Frame.IdleGroundedFrame | js/main.js:309-315 | an idle frame on the ground at rest keeps the position but leaves the velocity at -30 * delta |
| Frame.GroundedFlicker | js/main.js:257-262 | after such a frame Space is ignored; the next idle frame restores velocity 0 and Space starts a jump again |
| Frame.JumpFromGround | js/main.js:257-262 | a jump from rest raises the jump flag and velocity 10, then the frame lifts the character by 10 * delta only and leaves velocity -20 * delta |
| Frame.DownwardPushSinksBelowGround | js/main.js:337-339 | a downward push under an obstacle whose lower face is lower than the character's height ends the frame below the ground |
| Frame.StepAboveGround | js/main.js:312-357 | a frame ends at or above the ground when every vertical push is upwards onto an obstacle whose top is not below the ground |
| Frame.VerticalPushAllowsJump | js/main.js:333-340 | a vertical push in the frame leaves velocity 0, so the next Space starts a jump |
| Game.World.constructor | js/main.js:38-48 | the record starts with nothing held, no jump and velocity 0, and the box list is index-aligned with the meshes |
| Game.World.OnKeyDown | js/main.js:239-264 | the in-place handler leaves the record equal to `Input.KeyDown` of the old one and keeps position and boxes |
| Game.World.OnKeyUp | js/main.js:266-285 | the in-place handler leaves the record equal to `Input.KeyUp` of the old one and keeps position and boxes |
| Game.World.MoveStep | js/main.js:295-315 | the in-place movement step leaves position and velocity equal to `Motion.Move` of the old state, clears the jump flag and keeps the other flags |
| Game.World.Push | js/main.js:323-356 | the in-place resolution against one box leaves position and velocity equal to `Collision.ResolveOne` |
| Game.World.ResolveAt | js/main.js:321-356 | refreshing a box from its mesh keeps the list index-aligned, and the resolution against it is `Collision.ResolveOne` |
| Game.World.Animate | js/main.js:293-359 | a frame on a loaded character leaves the state equal to `Frame.Step` of the old one and keeps the box list index-aligned and unchanged; before loading it changes nothing |

## Left out

- Rendering and scene setup are not modelled. This covers the renderer, the camera, lights, fog, the ground plane and grid, the window resize handler, the orbit camera controls, and the frame statistics. None of it has decision logic.
- The GUI controls are not modelled. They are thin setters on library objects.
- Loading and swapping the character model (`loadAsset`) is not modelled. It relies on asynchronous file loading, GPU resource disposal, the animation mixer and GUI rebuilding. The model only keeps whether a model is loaded (`World.loaded`), and the character's box offsets are constants of the world.
- The animation mixer update at the start of a frame is not modelled. It does not touch the controller's state.
- Obstacle generation is not modelled, because it uses random positions and colours. The meshes are given to the constructor, and the box list starts index-aligned with them.
- The library internals are not modelled. The box of an object is its position plus fixed offsets, the overlap test is closed-interval overlap, centres and sizes are exact, and normalization is dropped. Normalization changes nothing the code compares, as `Geometry.DominantAxisScaleInvariant` proves. Its result for a zero vector is not needed, since every strict comparison then fails either way.
- The clock is a parameter: `delta` is passed to `Animate`.
- IEEE-754 rounding is not modelled. Arithmetic is exact, and the model makes no claim about floating-point results, including the exact comparison `velocity.y === 0`.
- Only the vertical component of the velocity vector is modelled. The code never reads or writes the other two.
- Game.World.Animate: its contract is stated under the invariant that every box equals the box of its mesh. Under that invariant the per-index refresh changes nothing, so the model does not capture a refresh after a mesh has moved. No code path moves an obstacle mesh.
