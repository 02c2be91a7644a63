/**
 * View-frustum culling (src/renderer/frustum.cpp, frustum.hpp): six
 * clip planes extracted from a view-projection matrix, the positive-vertex
 * box test, and the test of a local box under a model matrix through the
 * axis-aligned bounds of its eight transformed corners.
 */
module FrustumCulling {
  import opened LinearAlgebra
  import opened BoundingBox

  datatype Plane = Plane(normal: Vec3, distance: real)

  /** Plane::distanceToPoint: the signed plane equation at a point. */
  function DistanceToPoint(pl: Plane, p: Vec3): real {
    Dot3(pl.normal, p) + pl.distance
  }

  /** Frustum::Side, in declaration order. */
  const LEFT: nat := 0
  const RIGHT: nat := 1
  const TOP: nat := 2
  const BOTTOM: nat := 3
  const NEAR: nat := 4
  const FAR: nat := 5
  const COUNT: nat := 6

  /** The plane a 4-vector (a, b, c, d) stands for: a x + b y + c z + d. */
  function PlaneOf(v: Vec4): Plane { Plane(Xyz(v), v.w) }

  /**
   * The Gribb-Hartmann planes of a view-projection matrix, indexed by side:
   * left = row3 + row0, right = row3 - row0, top = row3 - row1,
   * bottom = row3 + row1, near = row3 + row2, far = row3 - row2.
   */
  function PlanesOf(vp: Mat4): (planes: seq<Plane>)
    ensures |planes| == COUNT
    ensures planes[LEFT] == PlaneOf(Add4(vp.r3, vp.r0)) && planes[RIGHT] == PlaneOf(Sub4(vp.r3, vp.r0))
    ensures planes[TOP] == PlaneOf(Sub4(vp.r3, vp.r1)) && planes[BOTTOM] == PlaneOf(Add4(vp.r3, vp.r1))
    ensures planes[NEAR] == PlaneOf(Add4(vp.r3, vp.r2)) && planes[FAR] == PlaneOf(Sub4(vp.r3, vp.r2))
  {
    [PlaneOf(Add4(vp.r3, vp.r0)), PlaneOf(Sub4(vp.r3, vp.r0)),
     PlaneOf(Sub4(vp.r3, vp.r1)), PlaneOf(Add4(vp.r3, vp.r1)),
     PlaneOf(Add4(vp.r3, vp.r2)), PlaneOf(Sub4(vp.r3, vp.r2))]
  }

  /** The corner of the box furthest along the plane normal (ties go to max). */
  function PVertex(pl: Plane, b: AABB): Vec3 {
    Vec3(if pl.normal.x >= 0.0 then b.max.x else b.min.x,
         if pl.normal.y >= 0.0 then b.max.y else b.min.y,
         if pl.normal.z >= 0.0 then b.max.z else b.min.z)
  }

  /** The box is not entirely on the negative side of the plane, as the test decides it. */
  predicate PlaneAdmits(pl: Plane, b: AABB) {
    DistanceToPoint(pl, PVertex(pl, b)) >= 0.0
  }

  /** The result of Frustum::testAABB for an axis-aligned box. */
  predicate Visible(planes: seq<Plane>, b: AABB) {
    forall i :: 0 <= i < |planes| ==> PlaneAdmits(planes[i], b)
  }

  /** The eight corners of a box in the order the transformed test lists them. */
  function Corners(b: AABB): (cs: seq<Vec3>)
    ensures |cs| == 8
  {
    [Vec3(b.min.x, b.min.y, b.min.z), Vec3(b.max.x, b.min.y, b.min.z),
     Vec3(b.min.x, b.max.y, b.min.z), Vec3(b.max.x, b.max.y, b.min.z),
     Vec3(b.min.x, b.min.y, b.max.z), Vec3(b.max.x, b.min.y, b.max.z),
     Vec3(b.min.x, b.max.y, b.max.z), Vec3(b.max.x, b.max.y, b.max.z)]
  }

  function TransformedCorners(local: AABB, m: Mat4): (cs: seq<Vec3>)
    ensures |cs| == 8
    ensures forall k :: 0 <= k < 8 ==> cs[k] == TransformPoint(m, Corners(local)[k])
  {
    var c := Corners(local);
    [TransformPoint(m, c[0]), TransformPoint(m, c[1]), TransformPoint(m, c[2]), TransformPoint(m, c[3]),
     TransformPoint(m, c[4]), TransformPoint(m, c[5]), TransformPoint(m, c[6]), TransformPoint(m, c[7])]
  }

  /** The world-space box the transformed test builds. */
  function WorldBox(local: AABB, m: Mat4): AABB {
    BoundsOf(TransformedCorners(local, m))
  }

  /** a * x <= a * (the end of [lo, hi] that the sign of a selects). */
  lemma MulBound(a: real, x: real, lo: real, hi: real, e: real)
    requires lo <= x <= hi
    requires e == if a >= 0.0 then hi else lo
    ensures a * x <= a * e
  {
    if a >= 0.0 {
      assert a * (hi - x) >= 0.0;
    } else {
      assert a * (x - lo) <= 0.0;
    }
  }

  /** Over a box, the plane distance is largest at the positive vertex. */
  lemma PVertexMaximises(pl: Plane, b: AABB, p: Vec3)
    requires Contains(b, p)
    ensures DistanceToPoint(pl, p) <= DistanceToPoint(pl, PVertex(pl, b))
  {
    var n, q := pl.normal, PVertex(pl, b);
    MulBound(n.x, p.x, b.min.x, b.max.x, q.x);
    MulBound(n.y, p.y, b.min.y, b.max.y, q.y);
    MulBound(n.z, p.z, b.min.z, b.max.z, q.z);
    Dot3Monotone(n, p, q);
  }

  /** Termwise-smaller products give a smaller dot product. */
  lemma Dot3Monotone(n: Vec3, p: Vec3, q: Vec3)
    requires n.x * p.x <= n.x * q.x && n.y * p.y <= n.y * q.y && n.z * p.z <= n.z * q.z
    ensures Dot3(n, p) <= Dot3(n, q)
  {
  }

  /**
   * The box test is exact per plane: for a non-empty box, a plane admits
   * the box iff some point of the box lies on its non-negative side
   * (the positive vertex is such a point).
   */
  lemma PlaneAdmitsExact(pl: Plane, b: AABB, p: Vec3)
    requires LessEq3(b.min, b.max)
    ensures Contains(b, PVertex(pl, b))
    ensures Contains(b, p) && DistanceToPoint(pl, p) >= 0.0 ==> PlaneAdmits(pl, b)
    ensures !PlaneAdmits(pl, b) && Contains(b, p) ==> DistanceToPoint(pl, p) < 0.0
  {
    if Contains(b, p) {
      PVertexMaximises(pl, b, p);
    }
  }

  /**
   * The box test never culls a box holding a point that is inside all
   * planes.
   */
  lemma VisibleIfPointInside(planes: seq<Plane>, b: AABB, p: Vec3)
    requires Contains(b, p)
    requires forall i :: 0 <= i < |planes| ==> DistanceToPoint(planes[i], p) >= 0.0
    ensures Visible(planes, b)
  {
    forall i | 0 <= i < |planes| ensures PlaneAdmits(planes[i], b) {
      PVertexMaximises(planes[i], b, p);
    }
  }

  /**
   * Extraction leaves the planes unnormalised; scaling each plane by a
   * positive factor, as the normalisation by the normal's length does,
   * does not change the test.
   */
  function ScalePlane(pl: Plane, s: real): Plane {
    Plane(Scale3(pl.normal, s), pl.distance * s)
  }

  lemma ScalingPreservesTest(planes: seq<Plane>, scales: seq<real>, b: AABB)
    requires |scales| == |planes|
    requires forall i :: 0 <= i < |scales| ==> scales[i] > 0.0
    ensures Visible(planes, b) <==>
            Visible(seq(|planes|, (i: nat) requires i < |planes| => ScalePlane(planes[i], scales[i])), b)
  {
    var scaled := seq(|planes|, (i: nat) requires i < |planes| => ScalePlane(planes[i], scales[i]));
    forall i | 0 <= i < |planes|
      ensures PlaneAdmits(planes[i], b) <==> PlaneAdmits(scaled[i], b)
    {
      var pl, s := planes[i], scales[i];
      assert PVertex(scaled[i], b) == PVertex(pl, b) by {
        MulSignPreserved(pl.normal.x, s);
        MulSignPreserved(pl.normal.y, s);
        MulSignPreserved(pl.normal.z, s);
      }
      var q := PVertex(pl, b);
      assert DistanceToPoint(scaled[i], q) == DistanceToPoint(pl, q) * s;
      MulSignPreserved(DistanceToPoint(pl, q), s);
    }
  }

  lemma MulSignPreserved(a: real, s: real)
    requires s > 0.0
    ensures a * s >= 0.0 <==> a >= 0.0
  {
    if a >= 0.0 {
      assert a * s >= 0.0;
    } else {
      assert a * s < 0.0;
    }
  }

  /** The index of the corner of `Corners` selected by three max/min choices. */
  function CornerIndex(ux: bool, uy: bool, uz: bool): (k: nat)
    ensures k < 8
  {
    (if ux then 1 else 0) + (if uy then 2 else 0) + (if uz then 4 else 0)
  }

  lemma CornerAt(b: AABB, ux: bool, uy: bool, uz: bool)
    ensures Corners(b)[CornerIndex(ux, uy, uz)] ==
            Vec3(if ux then b.max.x else b.min.x, if uy then b.max.y else b.min.y, if uz then b.max.z else b.min.z)
  {
  }

  /** One coordinate of an affine transform, x' = r.x x + r.y y + r.z z + r.w, as a plane equation. */
  lemma RowBound(r: Vec4, local: AABB, p: Vec3) returns (k: nat, kNeg: nat)
    requires Contains(local, p)
    ensures k < 8 && kNeg < 8
    ensures DistanceToPoint(PlaneOf(r), p) <= DistanceToPoint(PlaneOf(r), Corners(local)[k])
    ensures DistanceToPoint(PlaneOf(r), Corners(local)[kNeg]) <= DistanceToPoint(PlaneOf(r), p)
  {
    var pl := PlaneOf(r);
    var neg := Plane(Scale3(pl.normal, -1.0), -pl.distance);
    PVertexMaximises(pl, local, p);
    PVertexMaximises(neg, local, p);
    k := CornerIndex(pl.normal.x >= 0.0, pl.normal.y >= 0.0, pl.normal.z >= 0.0);
    CornerAt(local, pl.normal.x >= 0.0, pl.normal.y >= 0.0, pl.normal.z >= 0.0);
    kNeg := CornerIndex(neg.normal.x >= 0.0, neg.normal.y >= 0.0, neg.normal.z >= 0.0);
    CornerAt(local, neg.normal.x >= 0.0, neg.normal.y >= 0.0, neg.normal.z >= 0.0);
    var c := Corners(local)[kNeg];
    assert DistanceToPoint(neg, c) == -DistanceToPoint(pl, c);
    assert DistanceToPoint(neg, p) == -DistanceToPoint(pl, p);
  }

  /**
   * The world box encloses the image of every point of the local box, not
   * only of its corners: each world coordinate is affine in the local
   * point, so its extremes over the box sit at corners.
   */
  lemma WorldBoxEnclosesImage(local: AABB, m: Mat4, p: Vec3)
    requires Contains(local, p)
    ensures Contains(WorldBox(local, m), TransformPoint(m, p))
  {
    AxisEnclosed(local, m, p, 0);
    AxisEnclosed(local, m, p, 1);
    AxisEnclosed(local, m, p, 2);
  }

  /** Coordinate a (0, 1, 2 for x, y, z) of a vector. */
  function Coord(v: Vec3, a: nat): real {
    if a == 0 then v.x else if a == 1 then v.y else v.z
  }

  /** Row a of a matrix, which gives coordinate a of a transformed point. */
  function Row(m: Mat4, a: nat): Vec4 {
    if a == 0 then m.r0 else if a == 1 then m.r1 else m.r2
  }

  /** Along one axis, the image of a box point lies between the world box's bounds. */
  lemma AxisEnclosed(local: AABB, m: Mat4, p: Vec3, a: nat)
    requires Contains(local, p) && a < 3
    ensures Coord(WorldBox(local, m).min, a) <= Coord(TransformPoint(m, p), a) <= Coord(WorldBox(local, m).max, a)
  {
    var cs := TransformedCorners(local, m);
    BoundsOfTight(cs);
    var w := WorldBox(local, m);
    var k, kNeg := RowBound(Row(m, a), local, p);
    CornerCoord(local, m, k, a);
    CornerCoord(local, m, kNeg, a);
    TransformAsPlanes(m, p);
    assert Contains(w, cs[k]) && Contains(w, cs[kNeg]);
  }

  /** Coordinate a of transformed corner k is row a's plane equation at the corner. */
  lemma CornerCoord(local: AABB, m: Mat4, k: nat, a: nat)
    requires k < 8 && a < 3
    ensures Coord(TransformedCorners(local, m)[k], a) == DistanceToPoint(PlaneOf(Row(m, a)), Corners(local)[k])
  {
    var c := Corners(local)[k];
    assert TransformedCorners(local, m)[k] == TransformPoint(m, c);
    TransformAsPlanes(m, c);
  }

  /** Each coordinate of a transformed point is the corresponding row's plane equation at the point. */
  lemma TransformAsPlanes(m: Mat4, c: Vec3)
    ensures TransformPoint(m, c) == Vec3(DistanceToPoint(PlaneOf(m.r0), c), DistanceToPoint(PlaneOf(m.r1), c),
                                         DistanceToPoint(PlaneOf(m.r2), c))
  {
  }

  /**
   * The transformed test is conservative: an object with a local point
   * whose image is inside every plane is never culled.
   */
  lemma TransformedTestConservative(planes: seq<Plane>, local: AABB, m: Mat4, p: Vec3)
    requires Contains(local, p)
    requires forall i :: 0 <= i < |planes| ==> DistanceToPoint(planes[i], TransformPoint(m, p)) >= 0.0
    ensures Visible(planes, WorldBox(local, m))
  {
    WorldBoxEnclosesImage(local, m, p);
    VisibleIfPointInside(planes, WorldBox(local, m), TransformPoint(m, p));
  }

  /**
   * A point in homogeneous clip space, viewed through the extracted
   * planes: the left plane is w + x, the right w - x, and so on, so a
   * point is inside all six iff -w <= x, y, z <= w.
   */
  lemma PlanesOfClipMeaning(vp: Mat4, p: Vec3)
    ensures var planes := PlanesOf(vp);
            var x := DistanceToPoint(PlaneOf(vp.r0), p);
            var y := DistanceToPoint(PlaneOf(vp.r1), p);
            var z := DistanceToPoint(PlaneOf(vp.r2), p);
            var w := DistanceToPoint(PlaneOf(vp.r3), p);
            && DistanceToPoint(planes[LEFT], p) == w + x && DistanceToPoint(planes[RIGHT], p) == w - x
            && DistanceToPoint(planes[TOP], p) == w - y && DistanceToPoint(planes[BOTTOM], p) == w + y
            && DistanceToPoint(planes[NEAR], p) == w + z && DistanceToPoint(planes[FAR], p) == w - z
  {
    DistanceOfSum(vp.r3, vp.r0, p);
    DistanceOfDifference(vp.r3, vp.r0, p);
    DistanceOfSum(vp.r3, vp.r1, p);
    DistanceOfDifference(vp.r3, vp.r1, p);
    DistanceOfSum(vp.r3, vp.r2, p);
    DistanceOfDifference(vp.r3, vp.r2, p);
  }

  /** The plane equation of a sum of rows is the sum of their plane equations. */
  lemma DistanceOfSum(a: Vec4, b: Vec4, p: Vec3)
    ensures DistanceToPoint(PlaneOf(Add4(a, b)), p) == DistanceToPoint(PlaneOf(a), p) + DistanceToPoint(PlaneOf(b), p)
  {
    assert (a.x + b.x) * p.x == a.x * p.x + b.x * p.x;
    assert (a.y + b.y) * p.y == a.y * p.y + b.y * p.y;
    assert (a.z + b.z) * p.z == a.z * p.z + b.z * p.z;
  }

  /** The plane equation of a difference of rows is the difference of their plane equations. */
  lemma DistanceOfDifference(a: Vec4, b: Vec4, p: Vec3)
    ensures DistanceToPoint(PlaneOf(Sub4(a, b)), p) == DistanceToPoint(PlaneOf(a), p) - DistanceToPoint(PlaneOf(b), p)
  {
    assert (a.x - b.x) * p.x == a.x * p.x - b.x * p.x;
    assert (a.y - b.y) * p.y == a.y * p.y - b.y * p.y;
    assert (a.z - b.z) * p.z == a.z * p.z - b.z * p.z;
  }

  class Frustum {
    var planes: seq<Plane>

    ghost predicate Valid()
      reads this
    {
      |planes| == COUNT
    }

    /** Frustum() = default: six planes with zero normal and distance. */
    constructor()
      ensures Valid()
      ensures forall i :: 0 <= i < COUNT ==> planes[i] == Plane(Vec3(0.0, 0.0, 0.0), 0.0)
    {
      planes := seq(COUNT, _ => Plane(Vec3(0.0, 0.0, 0.0), 0.0));
    }

    /** Frustum::extractFromViewProj, without the normalisation (see ScalingPreservesTest). */
    method ExtractFromViewProj(vp: Mat4)
      modifies this
      ensures Valid()
      ensures planes == PlanesOf(vp)
    {
      var row0, row1, row2, row3 := vp.r0, vp.r1, vp.r2, vp.r3;
      planes := [PlaneOf(Add4(row3, row0)), PlaneOf(Sub4(row3, row0)),
                 PlaneOf(Sub4(row3, row1)), PlaneOf(Add4(row3, row1)),
                 PlaneOf(Add4(row3, row2)), PlaneOf(Sub4(row3, row2))];
    }

    /** Frustum::testAABB: reject on the first plane whose positive vertex is behind it. */
    method TestAABB(b: AABB) returns (visible: bool)
      requires Valid()
      ensures visible == Visible(planes, b)
      ensures !visible ==> exists i :: 0 <= i < COUNT && !PlaneAdmits(planes[i], b)
    {
      var i := 0;
      while i < COUNT
        invariant 0 <= i <= COUNT
        invariant forall j :: 0 <= j < i ==> PlaneAdmits(planes[j], b)
      {
        var plane := planes[i];
        var pVertex := Vec3(if plane.normal.x >= 0.0 then b.max.x else b.min.x,
                            if plane.normal.y >= 0.0 then b.max.y else b.min.y,
                            if plane.normal.z >= 0.0 then b.max.z else b.min.z);
        if DistanceToPoint(plane, pVertex) < 0.0 {
          return false;
        }
        i := i + 1;
      }
      return true;
    }

    /**
     * Frustum::testAABB(localAABB, modelMatrix): bound the eight
     * transformed corners, then test that world box.
     */
    method TestAABBTransformed(local: AABB, m: Mat4) returns (visible: bool)
      requires Valid()
      ensures visible == Visible(planes, WorldBox(local, m))
    {
      var corners := Corners(local);
      ghost var pts := TransformedCorners(local, m);
      var worldMin := TransformPoint(m, corners[0]);
      var worldMax := worldMin;
      var i := 0;
      while i < 8
        invariant 0 <= i <= 8
        invariant i == 0 ==> worldMin == pts[0] && worldMax == pts[0]
        invariant i > 0 ==> AABB(worldMin, worldMax) == BoundsOf(pts[..i])
      {
        var worldCorner := TransformPoint(m, corners[i]);
        assert worldCorner == pts[i];
        if i == 0 {
          assert pts[..1][0] == pts[0];
        } else {
          BoundsOfPrefixStep(pts, i);
        }
        worldMin := Min3(worldMin, worldCorner);
        worldMax := Max3(worldMax, worldCorner);
        i := i + 1;
      }
      assert pts[..i] == pts;
      visible := TestAABB(AABB(worldMin, worldMax));
    }
  }
}
