/** Points, axis-aligned boxes and the dominant-axis choice used by the
    collision resolver of the character demo. All arithmetic is exact `real`
    arithmetic; floating-point rounding is not modelled. */
module Geometry {

  datatype Vec3 = Vec3(x: real, y: real, z: real)

  datatype Axis = X | Y | Z

  /** The coordinate of `v` on axis `a`. */
  function Get(v: Vec3, a: Axis): real {
    match a
    case X => v.x
    case Y => v.y
    case Z => v.z
  }

  function Add(u: Vec3, v: Vec3): Vec3 {
    Vec3(u.x + v.x, u.y + v.y, u.z + v.z)
  }

  function Sub(u: Vec3, v: Vec3): Vec3 {
    Vec3(u.x - v.x, u.y - v.y, u.z - v.z)
  }

  /** Componentwise `u <= v`. */
  predicate Leq(u: Vec3, v: Vec3) {
    u.x <= v.x && u.y <= v.y && u.z <= v.z
  }

  function Abs(r: real): real {
    if r < 0.0 then -r else r
  }

  /** An axis-aligned bounding box given by its two corners. */
  datatype Box = Box(min: Vec3, max: Vec3) {
    predicate Valid() {
      Leq(min, max)
    }
  }

  function Center(b: Box): Vec3 {
    Vec3((b.min.x + b.max.x) / 2.0, (b.min.y + b.max.y) / 2.0, (b.min.z + b.max.z) / 2.0)
  }

  function Size(b: Box): Vec3 {
    Sub(b.max, b.min)
  }

  /** Overlap test of two boxes, closed on every face: boxes that only touch
      intersect. */
  predicate Intersects(a: Box, b: Box) {
    !(b.max.x < a.min.x || b.min.x > a.max.x ||
      b.max.y < a.min.y || b.min.y > a.max.y ||
      b.max.z < a.min.z || b.min.z > a.max.z)
  }

  /** The overlap test restricted to axis `c`. */
  predicate OverlapOn(p: Box, q: Box, c: Axis) {
    !(Get(q.max, c) < Get(p.min, c) || Get(q.min, c) > Get(p.max, c))
  }

  /** Boxes overlap exactly when they overlap on each axis. */
  lemma IntersectsByAxis(p: Box, q: Box)
    ensures Intersects(p, q) <==> OverlapOn(p, q, X) && OverlapOn(p, q, Y) && OverlapOn(p, q, Z)
  {
  }

  /** Tie-break preference of the dominant-axis choice: z wins every tie,
      then x, and y only wins when it is strictly largest. */
  function Rank(a: Axis): nat {
    match a
    case Y => 0
    case X => 1
    case Z => 2
  }

  /** The axis on which a collision is resolved, chosen from the difference
      `d` between the two box centres: the axis of largest magnitude, ties
      going to the axis of higher `Rank`. */
  function DominantAxis(d: Vec3): (a: Axis)
    ensures Abs(d.x) <= Abs(Get(d, a)) && Abs(d.y) <= Abs(Get(d, a)) && Abs(d.z) <= Abs(Get(d, a))
    ensures a != X && Abs(d.x) == Abs(Get(d, a)) ==> Rank(X) < Rank(a)
    ensures a != Y && Abs(d.y) == Abs(Get(d, a)) ==> Rank(Y) < Rank(a)
    ensures a != Z && Abs(d.z) == Abs(Get(d, a)) ==> Rank(Z) < Rank(a)
  {
    if Abs(d.y) > Abs(d.x) && Abs(d.y) > Abs(d.z) then Y
    else if Abs(d.x) > Abs(d.z) then X
    else Z
  }

  /** `v` multiplied by the factor `k`. */
  function Scale(k: real, v: Vec3): Vec3 {
    Vec3(k * v.x, k * v.y, k * v.z)
  }

  /** Multiplying by a positive factor keeps order and signs. */
  lemma MulOrder(k: real, u: real, v: real)
    requires k > 0.0
    ensures k * u > k * v <==> u > v
  {
    assert k * u - k * v == k * (u - v);
  }

  lemma MulAbs(k: real, u: real)
    requires k > 0.0
    ensures Abs(k * u) == k * Abs(u)
    ensures k * u > 0.0 <==> u > 0.0
  {
    MulOrder(k, u, 0.0);
    if u < 0.0 {
      assert -(k * u) == k * -u;
    }
  }

  /** Multiplying by a positive factor keeps magnitudes in order. */
  lemma ScaleCompare(k: real, u: real, v: real)
    requires k > 0.0
    ensures Abs(k * u) > Abs(k * v) <==> Abs(u) > Abs(v)
  {
    MulAbs(k, u);
    MulAbs(k, v);
    MulOrder(k, Abs(u), Abs(v));
  }

  /** `d` and `e` agree on every comparison the dominant-axis choice and
      the push direction make. */
  predicate SameShape(d: Vec3, e: Vec3) {
    (Abs(d.y) > Abs(d.x) <==> Abs(e.y) > Abs(e.x)) &&
    (Abs(d.y) > Abs(d.z) <==> Abs(e.y) > Abs(e.z)) &&
    (Abs(d.x) > Abs(d.z) <==> Abs(e.x) > Abs(e.z)) &&
    (d.x > 0.0 <==> e.x > 0.0) && (d.y > 0.0 <==> e.y > 0.0) && (d.z > 0.0 <==> e.z > 0.0)
  }

  lemma SameShapeSamePush(d: Vec3, e: Vec3)
    requires SameShape(d, e)
    ensures DominantAxis(d) == DominantAxis(e)
    ensures forall a :: Get(d, a) > 0.0 <==> Get(e, a) > 0.0
  {
  }

  /** Positive scaling, such as normalizing a non-zero vector, keeps that
      shape, so it changes neither the dominant axis nor the sign of any
      coordinate, and the push can be chosen from the raw centre difference. */
  lemma DominantAxisScaleInvariant(k: real, d: Vec3)
    requires k > 0.0
    ensures DominantAxis(Scale(k, d)) == DominantAxis(d)
    ensures forall a :: Get(Scale(k, d), a) > 0.0 <==> Get(d, a) > 0.0
  {
    ScaleSameShape(k, d);
    SameShapeSamePush(d, Scale(k, d));
  }

  /** The three comparisons of signs and of magnitudes survive positive
      scaling, one lemma per kind. */
  lemma ScaleSameShape(k: real, d: Vec3)
    requires k > 0.0
    ensures SameShape(d, Scale(k, d))
  {
    ScaleKeepsSigns(k, d);
    ScaleKeepsOrder(k, d);
  }

  lemma ScaleKeepsSigns(k: real, d: Vec3)
    requires k > 0.0
    ensures var e := Scale(k, d);
            (d.x > 0.0 <==> e.x > 0.0) && (d.y > 0.0 <==> e.y > 0.0) && (d.z > 0.0 <==> e.z > 0.0)
  {
    MulAbs(k, d.x);
    MulAbs(k, d.y);
    MulAbs(k, d.z);
  }

  lemma ScaleKeepsOrder(k: real, d: Vec3)
    requires k > 0.0
    ensures var e := Scale(k, d);
            (Abs(d.y) > Abs(d.x) <==> Abs(e.y) > Abs(e.x)) &&
            (Abs(d.y) > Abs(d.z) <==> Abs(e.y) > Abs(e.z)) &&
            (Abs(d.x) > Abs(d.z) <==> Abs(e.x) > Abs(e.z))
  {
    ScaleAxisOrder(k, d, Y, X);
    ScaleAxisOrder(k, d, Y, Z);
    ScaleAxisOrder(k, d, X, Z);
  }

  lemma ScaleAxisOrder(k: real, d: Vec3, a: Axis, b: Axis)
    requires k > 0.0
    ensures Abs(Get(d, a)) > Abs(Get(d, b)) <==> Abs(Get(Scale(k, d), a)) > Abs(Get(Scale(k, d), b))
  {
    ScaleGet(k, d, a);
    ScaleGet(k, d, b);
    ScaleCompare(k, Get(d, a), Get(d, b));
  }

  lemma ScaleGet(k: real, d: Vec3, a: Axis)
    ensures Get(Scale(k, d), a) == k * Get(d, a)
  {
  }

  /** Whether point `p` lies in box `b`, faces included. */
  predicate Contains(b: Box, p: Vec3) {
    Leq(b.min, p) && Leq(p, b.max)
  }

  function Max(u: real, v: real): real {
    if u < v then v else u
  }

  /** Boxes that share a point intersect. */
  lemma CommonPointIntersects(a: Box, b: Box, p: Vec3)
    requires Contains(a, p) && Contains(b, p)
    ensures Intersects(a, b)
  {
  }

  /** Conversely, intersecting boxes share a point: the corner of largest
      lower coordinates lies in both. Together the two lemmas say that the
      overlap test is the closed-interval one. */
  lemma IntersectsHasCommonPoint(a: Box, b: Box)
    requires a.Valid() && b.Valid() && Intersects(a, b)
    ensures var p := Vec3(Max(a.min.x, b.min.x), Max(a.min.y, b.min.y), Max(a.min.z, b.min.z));
            Contains(a, p) && Contains(b, p)
  {
  }

  /** An obstacle mesh: a box geometry of the given size centred on its
      position, never rotated or scaled. */
  datatype Mesh = Mesh(position: Vec3, size: Vec3) {
    predicate Valid() {
      Leq(Vec3(0.0, 0.0, 0.0), size)
    }
  }

  /** The world bounding box of an obstacle mesh. */
  function BoxOfMesh(m: Mesh): (b: Box)
    ensures m.Valid() ==> b.Valid()
    ensures Center(b) == m.position
    ensures Size(b) == m.size
  {
    var half := Vec3(m.size.x / 2.0, m.size.y / 2.0, m.size.z / 2.0);
    Box(Sub(m.position, half), Add(m.position, half))
  }

  /** The bounding boxes of all obstacles, index-aligned with the meshes. */
  function BoxesOf(ms: seq<Mesh>): (bs: seq<Box>)
    ensures |bs| == |ms|
    ensures forall i :: 0 <= i < |ms| ==> bs[i] == BoxOfMesh(ms[i])
  {
    seq(|ms|, i requires 0 <= i < |ms| => BoxOfMesh(ms[i]))
  }

  /** The character's bounding box: fixed local offsets `lo` and `hi`
      around its position. */
  function PlayerBox(pos: Vec3, lo: Vec3, hi: Vec3): (b: Box)
    ensures Leq(lo, hi) ==> b.Valid()
    ensures Size(b) == Sub(hi, lo)
    ensures b.min == Add(pos, lo) && b.max == Add(pos, hi)
  {
    Box(Add(pos, lo), Add(pos, hi))
  }
}
