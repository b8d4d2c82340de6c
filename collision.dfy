/** Collision resolution of one frame: every obstacle, in list order, is
    tested against the character's box computed once before the sweep, and
    each overlapping obstacle sets exactly one coordinate of the position,
    to its upper face or to its lower face less the character's size. */
module Collision {
  import opened Options
  import opened Geometry
  import opened Motion

  /** The difference between the two box centres that selects the push. The
      source normalizes it first; every test made on it compares absolute
      values or signs, and positive scaling changes neither. */
  function Normal(pb: Box, box: Box): Vec3 {
    Sub(Center(pb), Center(box))
  }

  function PushAxis(pb: Box, box: Box): Axis {
    DominantAxis(Normal(pb, box))
  }

  /** Where a push on axis `a` puts the position: onto the obstacle's upper
      face when the character's centre is on the positive side, otherwise the
      character's size below the lower face. */
  function PushTarget(pb: Box, box: Box, a: Axis): real {
    if Get(Normal(pb, box), a) > 0.0 then Get(box.max, a)
    else Get(box.min, a) - Get(Size(pb), a)
  }

  /** Resolution against one obstacle, `pb` being the character's box taken
      before the sweep. A non-overlapping obstacle changes nothing; an
      overlapping one assigns exactly the coordinate of the dominant axis,
      and a vertical push also stops the character. */
  function ResolveOne(b: Body, pb: Box, box: Box): (r: Body)
    ensures !Intersects(pb, box) ==> r == b
    ensures Intersects(pb, box) ==>
      var a := PushAxis(pb, box);
      Get(r.pos, a) == PushTarget(pb, box, a) &&
      (forall c :: c != a ==> Get(r.pos, c) == Get(b.pos, c)) &&
      r.vy == (if a == Y then 0.0 else b.vy)
  {
    if !Intersects(pb, box) then b
    else
      var n := Normal(pb, box);
      if Abs(n.y) > Abs(n.x) && Abs(n.y) > Abs(n.z) then
        if n.y > 0.0 then Body(b.pos.(y := box.max.y), 0.0)
        else Body(b.pos.(y := box.min.y - Size(pb).y), 0.0)
      else if Abs(n.x) > Abs(n.z) then
        if n.x > 0.0 then Body(b.pos.(x := box.max.x), b.vy)
        else Body(b.pos.(x := box.min.x - Size(pb).x), b.vy)
      else
        if n.z > 0.0 then Body(b.pos.(z := box.max.z), b.vy)
        else Body(b.pos.(z := box.min.z - Size(pb).z), b.vy)
  }

  /** The sweep over the obstacle boxes in list order, every test using the
      same character box `pb`. */
  function Sweep(b: Body, pb: Box, boxes: seq<Box>): Body
    decreases |boxes|
  {
    if |boxes| == 0 then b
    else ResolveOne(Sweep(b, pb, boxes[..|boxes| - 1]), pb, boxes[|boxes| - 1])
  }

  /** A sweep over obstacles none of which overlaps the character's box is
      a no-op. */
  lemma {:induction false} SweepNoOverlap(b: Body, pb: Box, boxes: seq<Box>)
    requires forall i :: 0 <= i < |boxes| ==> !Intersects(pb, boxes[i])
    ensures Sweep(b, pb, boxes) == b
    decreases |boxes|
  {
    if |boxes| > 0 {
      SweepNoOverlap(b, pb, boxes[..|boxes| - 1]);
    }
  }

  /** Sweeping a concatenation is sweeping the two parts one after the other. */
  lemma {:induction false} SweepAppend(b: Body, pb: Box, xs: seq<Box>, ys: seq<Box>)
    ensures Sweep(b, pb, xs + ys) == Sweep(Sweep(b, pb, xs), pb, ys)
    decreases |ys|
  {
    if |ys| == 0 {
      assert xs + ys == xs;
    } else {
      var zs := xs + ys;
      assert zs[..|zs| - 1] == xs + ys[..|ys| - 1];
      assert zs[|zs| - 1] == ys[|ys| - 1];
      SweepAppend(b, pb, xs, ys[..|ys| - 1]);
    }
  }

  /** Because the character's box is never refreshed during the sweep, an
      obstacle that does not overlap it can be dropped from anywhere in the
      list without changing the outcome. */
  lemma SweepSkipsNonOverlapping(b: Body, pb: Box, xs: seq<Box>, box: Box, ys: seq<Box>)
    requires !Intersects(pb, box)
    ensures Sweep(b, pb, xs + [box] + ys) == Sweep(b, pb, xs + ys)
  {
    SweepAppend(b, pb, xs + [box], ys);
    SweepAppend(b, pb, xs, [box]);
    assert [box][..0] == [];
    SweepAppend(b, pb, xs, ys);
  }

  /** The velocity after a sweep is 0 if some overlapping obstacle was
      resolved vertically, and unchanged otherwise. */
  lemma {:induction false} SweepVelocity(b: Body, pb: Box, boxes: seq<Box>)
    ensures (exists i :: 0 <= i < |boxes| && Intersects(pb, boxes[i]) && PushAxis(pb, boxes[i]) == Y) ==>
              Sweep(b, pb, boxes).vy == 0.0
    ensures (forall i :: 0 <= i < |boxes| ==> !Intersects(pb, boxes[i]) || PushAxis(pb, boxes[i]) != Y) ==>
              Sweep(b, pb, boxes).vy == b.vy
    decreases |boxes|
  {
    if |boxes| > 0 {
      var init := boxes[..|boxes| - 1];
      SweepVelocity(b, pb, init);
      forall i | 0 <= i < |init| ensures init[i] == boxes[i] { }
    }
  }

  /** Each coordinate of the position after a sweep is either the one it
      started with, when no overlapping obstacle pushes on that axis, or the
      push target of some overlapping obstacle that does. */
  lemma {:induction false} SweepCoordinate(b: Body, pb: Box, boxes: seq<Box>, a: Axis)
    ensures (forall i :: 0 <= i < |boxes| ==> !Intersects(pb, boxes[i]) || PushAxis(pb, boxes[i]) != a) ==>
              Get(Sweep(b, pb, boxes).pos, a) == Get(b.pos, a)
    ensures Get(Sweep(b, pb, boxes).pos, a) == Get(b.pos, a) ||
            exists i :: 0 <= i < |boxes| && Intersects(pb, boxes[i]) && PushAxis(pb, boxes[i]) == a &&
                        Get(Sweep(b, pb, boxes).pos, a) == PushTarget(pb, boxes[i], a)
    decreases |boxes|
  {
    if |boxes| > 0 {
      var init := boxes[..|boxes| - 1];
      SweepCoordinate(b, pb, init, a);
      forall i | 0 <= i < |init| ensures init[i] == boxes[i] { }
    }
  }

  /** The last overlapping obstacle that pushes on axis `a` decides that
      coordinate: it ends at that obstacle's push target, whatever the
      obstacles before it did. */
  lemma {:induction false} SweepLastPusher(b: Body, pb: Box, boxes: seq<Box>, a: Axis, i: int)
    requires 0 <= i < |boxes| && Intersects(pb, boxes[i]) && PushAxis(pb, boxes[i]) == a
    requires forall j :: i < j < |boxes| ==> !Intersects(pb, boxes[j]) || PushAxis(pb, boxes[j]) != a
    ensures Get(Sweep(b, pb, boxes).pos, a) == PushTarget(pb, boxes[i], a)
    decreases |boxes|
  {
    var init := boxes[..|boxes| - 1];
    if i < |boxes| - 1 {
      forall j | i < j < |init| ensures init[j] == boxes[j] { }
      SweepLastPusher(b, pb, init, a, i);
    }
  }

  /** The effect of a sweep as a partial overwrite of the body: each field
      is either overwritten with a value or kept. */
  datatype Effect = Effect(x: Option<real>, y: Option<real>, z: Option<real>, vy: Option<real>)

  const Keep := Effect(None, None, None, None)

  function Pick(o: Option<real>, v: real): real {
    if o.Some? then o.value else v
  }

  function Apply(e: Effect, b: Body): Body {
    Body(Vec3(Pick(e.x, b.pos.x), Pick(e.y, b.pos.y), Pick(e.z, b.pos.z)), Pick(e.vy, b.vy))
  }

  function Later(o1: Option<real>, o2: Option<real>): Option<real> {
    if o2.Some? then o2 else o1
  }

  /** `e1` followed by `e2`: the later write wins, field by field. */
  function Then(e1: Effect, e2: Effect): Effect {
    Effect(Later(e1.x, e2.x), Later(e1.y, e2.y), Later(e1.z, e2.z), Later(e1.vy, e2.vy))
  }

  lemma ApplyThen(e1: Effect, e2: Effect, b: Body)
    ensures Apply(Then(e1, e2), b) == Apply(e2, Apply(e1, b))
  {
  }

  /** Applying an overwrite twice is applying it once. */
  lemma ApplyIdempotent(e: Effect, b: Body)
    ensures Apply(e, Apply(e, b)) == Apply(e, b)
  {
  }

  /** The overwrite one obstacle performs, independent of the body it acts on. */
  function EffectOf(pb: Box, box: Box): Effect {
    if !Intersects(pb, box) then Keep
    else
      var a := PushAxis(pb, box);
      var t := Some(PushTarget(pb, box, a));
      match a
      case X => Effect(t, None, None, None)
      case Y => Effect(None, t, None, Some(0.0))
      case Z => Effect(None, None, t, None)
  }

  function SweepEffect(pb: Box, boxes: seq<Box>): Effect
    decreases |boxes|
  {
    if |boxes| == 0 then Keep
    else Then(SweepEffect(pb, boxes[..|boxes| - 1]), EffectOf(pb, boxes[|boxes| - 1]))
  }

  lemma ResolveOneIsEffect(b: Body, pb: Box, box: Box)
    ensures ResolveOne(b, pb, box) == Apply(EffectOf(pb, box), b)
  {
  }

  /** A sweep is a fixed overwrite of the body, determined by the character's
      box and the obstacles alone: the sweep acts as "last push wins" on each
      coordinate. */
  lemma {:induction false} SweepIsEffect(b: Body, pb: Box, boxes: seq<Box>)
    ensures Sweep(b, pb, boxes) == Apply(SweepEffect(pb, boxes), b)
    decreases |boxes|
  {
    if |boxes| > 0 {
      var init := boxes[..|boxes| - 1];
      SweepIsEffect(b, pb, init);
      ApplyThen(SweepEffect(pb, init), EffectOf(pb, boxes[|boxes| - 1]), b);
      ResolveOneIsEffect(Sweep(b, pb, init), pb, boxes[|boxes| - 1]);
    }
  }

  /** Re-running a sweep with the same character box changes nothing more. */
  lemma SweepIdempotent(b: Body, pb: Box, boxes: seq<Box>)
    ensures Sweep(Sweep(b, pb, boxes), pb, boxes) == Sweep(b, pb, boxes)
  {
    SweepIsEffect(b, pb, boxes);
    SweepIsEffect(Sweep(b, pb, boxes), pb, boxes);
    ApplyIdempotent(SweepEffect(pb, boxes), b);
  }

  /** Where a push leaves the character's box on the pushed axis. The push
      formulas place the position, not the box: on the positive side the
      position goes to the upper face, on the other side to the lower face
      less the character's size. The box then lies at or beyond the upper
      face exactly when its lower offset is not negative, and at or beyond
      the lower face exactly when that offset is not positive. */
  lemma PushSeparation(b: Body, lo: Vec3, hi: Vec3, box: Box)
    requires Intersects(PlayerBox(b.pos, lo, hi), box)
    ensures var pb := PlayerBox(b.pos, lo, hi);
            var a := PushAxis(pb, box);
            var after := PlayerBox(ResolveOne(b, pb, box).pos, lo, hi);
            (Get(Normal(pb, box), a) > 0.0 ==> (Get(after.min, a) >= Get(box.max, a) <==> Get(lo, a) >= 0.0)) &&
            (Get(Normal(pb, box), a) <= 0.0 ==> (Get(after.max, a) <= Get(box.min, a) <==> Get(lo, a) <= 0.0))
  {
    var pb := PlayerBox(b.pos, lo, hi);
    var a := PushAxis(pb, box);
    var r := ResolveOne(b, pb, box);
    var after := PlayerBox(r.pos, lo, hi);
    assert Get(after.min, a) == PushTarget(pb, box, a) + Get(lo, a);
    assert Get(after.max, a) == PushTarget(pb, box, a) + Get(hi, a);
    assert Get(Size(pb), a) == Get(hi, a) - Get(lo, a);
  }

  /** Whether a push ends the overlap, in terms of the overlap test itself,
      which counts touching boxes as overlapping. The two axes not pushed
      overlap as before, so everything depends on the pushed one. A push to
      the upper face ends the overlap exactly when the lower offset is
      positive, and a push to the lower face exactly when it is negative.
      So a character box that extends on both sides of its position still
      overlaps after a push to an upper face, and one whose feet are at its
      position (`lo.y == 0`) still touches the obstacle after every vertical
      push. Each statement assumes that the pushed box still reaches the
      obstacle on the far side, as it does unless the character is longer
      than the obstacle and its offsets together. */
  lemma PushClearsOverlap(b: Body, lo: Vec3, hi: Vec3, box: Box)
    requires Intersects(PlayerBox(b.pos, lo, hi), box)
    ensures var pb := PlayerBox(b.pos, lo, hi);
            var a := PushAxis(pb, box);
            var after := PlayerBox(ResolveOne(b, pb, box).pos, lo, hi);
            Get(Normal(pb, box), a) > 0.0 && Get(box.min, a) <= Get(box.max, a) + Get(hi, a) ==>
              (Intersects(after, box) <==> Get(lo, a) <= 0.0)
    ensures var pb := PlayerBox(b.pos, lo, hi);
            var a := PushAxis(pb, box);
            var after := PlayerBox(ResolveOne(b, pb, box).pos, lo, hi);
            Get(Normal(pb, box), a) <= 0.0 && Get(box.min, a) + 2.0 * Get(lo, a) <= Get(box.max, a) + Get(hi, a) ==>
              (Intersects(after, box) <==> Get(lo, a) >= 0.0)
  {
    var pb := PlayerBox(b.pos, lo, hi);
    var a := PushAxis(pb, box);
    var r := ResolveOne(b, pb, box);
    var after := PlayerBox(r.pos, lo, hi);
    assert Get(after.min, a) == PushTarget(pb, box, a) + Get(lo, a);
    assert Get(after.max, a) == PushTarget(pb, box, a) + Get(hi, a);
    assert Get(Size(pb), a) == Get(hi, a) - Get(lo, a);
    forall c | c != a
      ensures OverlapOn(after, box, c) == OverlapOn(pb, box, c)
    {
      assert Get(r.pos, c) == Get(b.pos, c);
    }
    IntersectsByAxis(after, box);
    IntersectsByAxis(pb, box);
  }

  /** Landing: an obstacle below the character, resolved vertically, puts the
      character's feet (offset `lo.y == 0`) exactly on its top face and stops
      it. */
  lemma LandsOnTop(b: Body, lo: Vec3, hi: Vec3, box: Box)
    requires lo.y == 0.0
    requires Intersects(PlayerBox(b.pos, lo, hi), box)
    requires PushAxis(PlayerBox(b.pos, lo, hi), box) == Y
    requires Normal(PlayerBox(b.pos, lo, hi), box).y > 0.0
    ensures var r := ResolveOne(b, PlayerBox(b.pos, lo, hi), box);
            PlayerBox(r.pos, lo, hi).min.y == box.max.y && r.vy == 0.0 &&
            r.pos.x == b.pos.x && r.pos.z == b.pos.z
  {
  }

  /** When the two centres coincide no strict comparison holds, and the
      character is pushed below the obstacle's lower z face. */
  lemma CoincidentCentres(b: Body, pb: Box, box: Box)
    requires Intersects(pb, box) && Center(pb) == Center(box)
    ensures ResolveOne(b, pb, box) == Body(b.pos.(z := box.min.z - Size(pb).z), b.vy)
  {
  }

  /** A sweep over two obstacles resolves the first, then the second. */
  lemma SweepPair(b: Body, pb: Box, a: Box, c: Box)
    ensures Sweep(b, pb, [a]) == ResolveOne(b, pb, a)
    ensures Sweep(b, pb, [a, c]) == ResolveOne(ResolveOne(b, pb, a), pb, c)
  {
    assert [a][..0] == [];
    assert [a, c][..1] == [a];
  }

  /** Because every test of a frame uses the box taken before the sweep, a
      later push can move the character back into an obstacle resolved
      earlier in the same frame. Obstacle `a` is resolved first, by a push
      along x to its lower face, which clears it when `lo.x <= 0`; obstacle
      `c`, which also overlapped the old box, then pushes x onto its own
      upper face, and if that face lies within `a`'s x extent (shifted by
      the character's offsets) the character overlaps `a` again when the
      sweep ends. */
  lemma StaleBoxReintroducesOverlap(b: Body, lo: Vec3, hi: Vec3, a: Box, c: Box)
    requires lo.x <= 0.0
    requires Intersects(PlayerBox(b.pos, lo, hi), a) && Intersects(PlayerBox(b.pos, lo, hi), c)
    requires PushAxis(PlayerBox(b.pos, lo, hi), a) == X && Normal(PlayerBox(b.pos, lo, hi), a).x <= 0.0
    requires PushAxis(PlayerBox(b.pos, lo, hi), c) == X && Normal(PlayerBox(b.pos, lo, hi), c).x > 0.0
    requires a.min.x <= c.max.x + hi.x && c.max.x + lo.x <= a.max.x
    ensures var pb := PlayerBox(b.pos, lo, hi);
            var r1 := ResolveOne(b, pb, a);
            !Intersects(PlayerBox(r1.pos, lo, hi), a) || PlayerBox(r1.pos, lo, hi).max.x == a.min.x
    ensures var pb := PlayerBox(b.pos, lo, hi);
            Intersects(PlayerBox(Sweep(b, pb, [a, c]).pos, lo, hi), a)
  {
    var pb := PlayerBox(b.pos, lo, hi);
    SweepPair(b, pb, a, c);
    var r1 := ResolveOne(b, pb, a);
    assert r1.pos.x + hi.x == a.min.x - Size(pb).x + hi.x;
  }
}
