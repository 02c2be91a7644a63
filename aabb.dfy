/**
 * Axis-aligned bounding boxes (src/ui/primitives/aabb.cpp, aabb.hpp):
 * construction from a submesh's referenced vertices or from a whole
 * vertex list, and the centre/extent accessors.
 */
module BoundingBox {
  import opened LinearAlgebra
  import opened VertexLayout

  datatype AABB = AABB(min: Vec3, max: Vec3)

  /** The default-constructed box: min = max = (0, 0, 0). */
  function ZeroBox(): AABB {
    AABB(Vec3(0.0, 0.0, 0.0), Vec3(0.0, 0.0, 0.0))
  }

  function Center(b: AABB): Vec3 { Scale3(Add3(b.min, b.max), 0.5) }
  function Extents(b: AABB): Vec3 { Scale3(Sub3(b.max, b.min), 0.5) }

  predicate Contains(b: AABB, p: Vec3) {
    LessEq3(b.min, p) && LessEq3(p, b.max)
  }

  /** Every point lies in the box. */
  predicate Encloses(b: AABB, pts: seq<Vec3>) {
    forall i :: 0 <= i < |pts| ==> Contains(b, pts[i])
  }

  /** Each of the six bounds is attained by some point. */
  predicate Attained(b: AABB, pts: seq<Vec3>) {
    && (exists i :: 0 <= i < |pts| && b.min.x == pts[i].x)
    && (exists i :: 0 <= i < |pts| && b.min.y == pts[i].y)
    && (exists i :: 0 <= i < |pts| && b.min.z == pts[i].z)
    && (exists i :: 0 <= i < |pts| && b.max.x == pts[i].x)
    && (exists i :: 0 <= i < |pts| && b.max.y == pts[i].y)
    && (exists i :: 0 <= i < |pts| && b.max.z == pts[i].z)
  }

  /** `b` is the tight bounding box of `pts`. */
  predicate TightBounds(b: AABB, pts: seq<Vec3>) {
    Encloses(b, pts) && Attained(b, pts)
  }

  /** The positions a submesh's index range refers to, in index order. */
  function ReferencedPositions(vertices: seq<Vertex>, indices: seq<nat>, indexOffset: nat, indexCount: nat): (pts: seq<Vec3>)
    requires indexOffset + indexCount <= |indices|
    requires forall i :: indexOffset <= i < indexOffset + indexCount ==> indices[i] < |vertices|
    ensures |pts| == indexCount
  {
    seq(indexCount, (i: nat) requires i < indexCount => vertices[indices[indexOffset + i]].pos)
  }

  function Positions(vertices: seq<Vertex>): (pts: seq<Vec3>)
    ensures |pts| == |vertices|
    ensures forall i :: 0 <= i < |vertices| ==> pts[i] == vertices[i].pos
  {
    seq(|vertices|, (i: nat) requires i < |vertices| => vertices[i].pos)
  }

  /** The centre minus the extents is `min`, the centre plus the extents is `max`. */
  lemma CenterExtents(b: AABB)
    ensures Sub3(Center(b), Extents(b)) == b.min
    ensures Add3(Center(b), Extents(b)) == b.max
  {
  }

  /** Tight bounds are unique: two boxes that are both tight for `pts` are equal. */
  lemma TightBoundsUnique(b1: AABB, b2: AABB, pts: seq<Vec3>)
    requires TightBounds(b1, pts) && TightBounds(b2, pts)
    ensures b1 == b2
  {
  }

  /** One step of the min/max accumulation keeps a box tight over a growing prefix. */
  lemma AccumulateStep(lo: Vec3, hi: Vec3, pts: seq<Vec3>, i: nat)
    requires 0 < i < |pts|
    requires TightBounds(AABB(lo, hi), pts[..i])
    ensures TightBounds(AABB(Min3(lo, pts[i]), Max3(hi, pts[i])), pts[..i + 1])
  {
    var b := AABB(Min3(lo, pts[i]), Max3(hi, pts[i]));
    var pre := pts[..i + 1];
    assert pre[i] == pts[i];
    forall j | 0 <= j < i + 1 ensures Contains(b, pre[j]) {
      if j < i { assert pre[j] == pts[..i][j]; }
    }
    var a := pts[..i];
    assert forall j :: 0 <= j < i ==> pre[j] == a[j];
    var jx :| 0 <= jx < i && lo.x == a[jx].x;
    var jy :| 0 <= jy < i && lo.y == a[jy].y;
    var jz :| 0 <= jz < i && lo.z == a[jz].z;
    var kx :| 0 <= kx < i && hi.x == a[kx].x;
    var ky :| 0 <= ky < i && hi.y == a[ky].y;
    var kz :| 0 <= kz < i && hi.z == a[kz].z;
    assert b.min.x == pre[jx].x || b.min.x == pre[i].x;
    assert b.min.y == pre[jy].y || b.min.y == pre[i].y;
    assert b.min.z == pre[jz].z || b.min.z == pre[i].z;
    assert b.max.x == pre[kx].x || b.max.x == pre[i].x;
    assert b.max.y == pre[ky].y || b.max.y == pre[i].y;
    assert b.max.z == pre[kz].z || b.max.z == pre[i].z;
  }

  /**
   * The bounds the min/max accumulation reaches on a non-empty list,
   * folding from the left starting at the first point.
   */
  function BoundsOf(pts: seq<Vec3>): AABB
    requires |pts| > 0
    decreases |pts|
  {
    if |pts| == 1 then AABB(pts[0], pts[0])
    else
      var b := BoundsOf(pts[..|pts| - 1]);
      AABB(Min3(b.min, pts[|pts| - 1]), Max3(b.max, pts[|pts| - 1]))
  }

  /** The accumulated bounds are the tight bounding box of the list. */
  lemma {:induction false} BoundsOfTight(pts: seq<Vec3>)
    requires |pts| > 0
    ensures TightBounds(BoundsOf(pts), pts)
    decreases |pts|
  {
    var n := |pts|;
    if n == 1 {
      assert pts[..1] == pts;
      assert pts[..1][0] == pts[0];
    } else {
      var pre := pts[..n - 1];
      BoundsOfTight(pre);
      assert pts[..n - 1] == pre;
      var b := BoundsOf(pre);
      AccumulateStep(b.min, b.max, pts, n - 1);
      assert pts[..n] == pts;
    }
  }

  /** Extending the prefix by one point is one accumulation step. */
  lemma BoundsOfPrefixStep(pts: seq<Vec3>, i: nat)
    requires 0 < i < |pts|
    ensures BoundsOf(pts[..i + 1]) ==
            AABB(Min3(BoundsOf(pts[..i]).min, pts[i]), Max3(BoundsOf(pts[..i]).max, pts[i]))
  {
    assert pts[..i + 1][..i] == pts[..i];
  }

  /**
   * AABB::computeFromSubmesh: the zero box when the range is empty or
   * there are no vertices, otherwise the tight box of the positions the
   * index range refers to. The source does no bounds check, so callers
   * must keep the range and every referenced index in bounds.
   */
  method ComputeFromSubmesh(vertices: seq<Vertex>, indices: seq<nat>, indexOffset: nat, indexCount: nat)
    returns (box: AABB)
    requires indexCount > 0 && |vertices| > 0 ==>
               indexOffset + indexCount <= |indices| &&
               forall i :: indexOffset <= i < indexOffset + indexCount ==> indices[i] < |vertices|
    ensures indexCount == 0 || |vertices| == 0 ==> box == ZeroBox()
    ensures indexCount > 0 && |vertices| > 0 ==>
              var pts := ReferencedPositions(vertices, indices, indexOffset, indexCount);
              box == BoundsOf(pts) && TightBounds(box, pts)
  {
    if indexCount == 0 || |vertices| == 0 {
      return ZeroBox();
    }
    ghost var pts := ReferencedPositions(vertices, indices, indexOffset, indexCount);
    var first := vertices[indices[indexOffset]].pos;
    var lo, hi := first, first;
    var i := 0;
    while i < indexCount
      invariant 0 <= i <= indexCount
      invariant i == 0 ==> lo == pts[0] && hi == pts[0]
      invariant i > 0 ==> AABB(lo, hi) == BoundsOf(pts[..i])
    {
      var idx := indices[indexOffset + i];
      var pos := vertices[idx].pos;
      assert pos == pts[i];
      if i == 0 {
        assert pts[..1][0] == pts[0];
      } else {
        BoundsOfPrefixStep(pts, i);
      }
      lo := Min3(lo, pos);
      hi := Max3(hi, pos);
      i := i + 1;
    }
    assert pts[..i] == pts;
    box := AABB(lo, hi);
    BoundsOfTight(pts);
  }

  /**
   * AABB::computeFromVertices: the zero box for an empty list, otherwise
   * the tight box of all vertex positions. The source seeds min/max with
   * +/-FLT_MAX; seeding with the first position gives the same bounds for
   * finite coordinates (the same holds for ComputeFromSubmesh).
   */
  method ComputeFromVertices(vertices: seq<Vertex>) returns (box: AABB)
    ensures |vertices| == 0 ==> box == ZeroBox()
    ensures |vertices| > 0 ==>
              box == BoundsOf(Positions(vertices)) && TightBounds(box, Positions(vertices))
  {
    if |vertices| == 0 {
      return ZeroBox();
    }
    ghost var pts := Positions(vertices);
    var lo, hi := vertices[0].pos, vertices[0].pos;
    var i := 0;
    while i < |vertices|
      invariant 0 <= i <= |vertices|
      invariant i == 0 ==> lo == pts[0] && hi == pts[0]
      invariant i > 0 ==> AABB(lo, hi) == BoundsOf(pts[..i])
    {
      var pos := vertices[i].pos;
      if i == 0 {
        assert pts[..1][0] == pts[0];
      } else {
        BoundsOfPrefixStep(pts, i);
      }
      lo := Min3(lo, pos);
      hi := Max3(hi, pos);
      i := i + 1;
    }
    assert pts[..i] == pts;
    box := AABB(lo, hi);
    BoundsOfTight(pts);
  }
}
