/**
 * DebugDraw (src/ui/primitives/debugdraw.cpp): a list of coloured line
 * vertices, two per line, that the draw* calls append to, and a
 * host-visible vertex buffer that grows to hold them and is bound and
 * drawn as one line list.
 *
 * vmaCreateBuffer is a parameter (the buffer it returns, None when it
 * fails), buffers passed to vmaDestroyBuffer are kept in `destroyed`,
 * and the bytes memcpy'd into the mapped buffer are kept as the vertex
 * list they were copied from.
 */
module DebugDrawing {
  import opened Wrappers
  import opened MachineInts
  import opened LinearAlgebra
  import opened GpuBuffers
  import opened GpuCommands

  /** DebugVertex: a position and a colour. */
  datatype DebugVertex = DebugVertex(position: Vec3, color: Vec3)

  /** sizeof(DebugVertex): two glm::vec3 of 32-bit floats. */
  const DEBUG_VERTEX_SIZE: nat := 24

  /** INITIAL_BUFFER_SIZE: room for 1024 vertices. */
  const INITIAL_BUFFER_SIZE: nat := 1024 * DEBUG_VERTEX_SIZE

  /** drawSphere's default segment count, used when a caller omits `segments`. */
  const DEFAULT_SPHERE_SEGMENTS: int := 16

  const RED: Vec3 := Vec3(1.0, 0.0, 0.0)
  const GREEN: Vec3 := Vec3(0.0, 1.0, 0.0)
  const BLUE: Vec3 := Vec3(0.0, 0.0, 1.0)

  /** The two vertices of one line. */
  function Line(start: Vec3, end: Vec3, color: Vec3): seq<DebugVertex> {
    [DebugVertex(start, color), DebugVertex(end, color)]
  }

  /** `p` is a corner of the box with opposite corners `lo` and `hi`. */
  predicate IsCorner(p: Vec3, lo: Vec3, hi: Vec3) {
    && (p.x == lo.x || p.x == hi.x)
    && (p.y == lo.y || p.y == hi.y)
    && (p.z == lo.z || p.z == hi.z)
  }

  /** `a` and `b` differ in at most one coordinate: a segment parallel to an axis. */
  predicate AxisParallel(a: Vec3, b: Vec3) {
    (if a.x == b.x then 0 else 1) + (if a.y == b.y then 0 else 1) + (if a.z == b.z then 0 else 1) <= 1
  }

  /** A line list of `color` whose lines all run along the edges of the box (lo, hi). */
  predicate BoxEdges(r: seq<DebugVertex>, lo: Vec3, hi: Vec3, color: Vec3) {
    && |r| % 2 == 0
    && (forall i :: 0 <= i < |r| ==> r[i].color == color && IsCorner(r[i].position, lo, hi))
    && (forall l :: 0 <= l < |r| / 2 ==> AxisParallel(r[2 * l].position, r[2 * l + 1].position))
  }

  lemma BoxEdgesAppend(a: seq<DebugVertex>, b: seq<DebugVertex>, lo: Vec3, hi: Vec3, color: Vec3)
    requires BoxEdges(a, lo, hi, color) && BoxEdges(b, lo, hi, color)
    ensures BoxEdges(a + b, lo, hi, color)
  {
    var r := a + b;
    forall l | 0 <= l < |r| / 2 ensures AxisParallel(r[2 * l].position, r[2 * l + 1].position) {
      if 2 * l < |a| {
        assert r[2 * l] == a[2 * l] && r[2 * l + 1] == a[2 * l + 1];
      } else {
        var m := l - |a| / 2;
        assert r[2 * l] == b[2 * m] && r[2 * l + 1] == b[2 * m + 1];
      }
    }
  }

  /** The closed loop of four lines a-b, b-c, c-d, d-a. */
  function Loop(a: Vec3, b: Vec3, c: Vec3, d: Vec3, color: Vec3): seq<DebugVertex> {
    Line(a, b, color) + Line(b, c, color) + Line(c, d, color) + Line(d, a, color)
  }

  /** The face of the box at height y: four lines around it. */
  function Face(lo: Vec3, hi: Vec3, y: real, color: Vec3): (r: seq<DebugVertex>)
    requires y == lo.y || y == hi.y
    ensures |r| == 8 && BoxEdges(r, lo, hi, color)
  {
    var r := Loop(Vec3(lo.x, y, lo.z), Vec3(hi.x, y, lo.z), Vec3(hi.x, y, hi.z), Vec3(lo.x, y, hi.z), color);
    assert forall l :: 0 <= l < 4 ==> AxisParallel(r[2 * l].position, r[2 * l + 1].position);
    r
  }

  /** The four vertical edges of the box. */
  function Verticals(lo: Vec3, hi: Vec3, color: Vec3): (r: seq<DebugVertex>)
    ensures |r| == 8 && BoxEdges(r, lo, hi, color)
  {
    var r := Line(Vec3(lo.x, lo.y, lo.z), Vec3(lo.x, hi.y, lo.z), color) +
             Line(Vec3(hi.x, lo.y, lo.z), Vec3(hi.x, hi.y, lo.z), color) +
             Line(Vec3(hi.x, lo.y, hi.z), Vec3(hi.x, hi.y, hi.z), color) +
             Line(Vec3(lo.x, lo.y, hi.z), Vec3(lo.x, hi.y, hi.z), color);
    assert forall l :: 0 <= l < 4 ==> AxisParallel(r[2 * l].position, r[2 * l + 1].position);
    r
  }

  /**
   * The twelve edges of an axis-aligned box (bottom face, top face, the
   * four verticals): 24 vertices of the given colour, every one a corner
   * of the box, every line parallel to an axis.
   */
  function AABBLines(lo: Vec3, hi: Vec3, color: Vec3): (r: seq<DebugVertex>)
    ensures |r| == 24 && BoxEdges(r, lo, hi, color)
  {
    var bottom := Face(lo, hi, lo.y, color);
    var top := Face(lo, hi, hi.y, color);
    var verticals := Verticals(lo, hi, color);
    BoxEdgesAppend(bottom, top, lo, hi, color);
    BoxEdgesAppend(bottom + top, verticals, lo, hi, color);
    bottom + top + verticals
  }

  /** The three axis lines from `origin`: X red, Y green, Z blue. */
  function AxisLines(origin: Vec3, length: real): (r: seq<DebugVertex>)
    ensures |r| == 6
    ensures r[0].position == r[2].position == r[4].position == origin
    ensures r[0].color == r[1].color == RED && r[2].color == r[3].color == GREEN && r[4].color == r[5].color == BLUE
    ensures Sub3(r[1].position, origin) == Vec3(length, 0.0, 0.0)
    ensures Sub3(r[3].position, origin) == Vec3(0.0, length, 0.0)
    ensures Sub3(r[5].position, origin) == Vec3(0.0, 0.0, length)
  {
    Line(origin, Add3(origin, Vec3(length, 0.0, 0.0)), RED) +
    Line(origin, Add3(origin, Vec3(0.0, length, 0.0)), GREEN) +
    Line(origin, Add3(origin, Vec3(0.0, 0.0, length)), BLUE)
  }

  /**
   * The step between grid lines, size / divisions. A zero division count
   * makes the float quotient non-finite, which reals cannot express; the
   * model takes 0 there.
   */
  function GridStep(size: real, divisions: int): real {
    if divisions == 0 then 0.0 else size / (divisions as real)
  }

  /** Grid row i: the line along X at z-offset o, then the line along Z at x-offset o. */
  function GridRow(center: Vec3, size: real, divisions: int, i: nat, color: Vec3): seq<DebugVertex> {
    var halfSize := size / 2.0;
    var offset := -halfSize + (i as real) * GridStep(size, divisions);
    Line(Add3(center, Vec3(-halfSize, 0.0, offset)), Add3(center, Vec3(halfSize, 0.0, offset)), color) +
    Line(Add3(center, Vec3(offset, 0.0, -halfSize)), Add3(center, Vec3(offset, 0.0, halfSize)), color)
  }

  /** The first n rows of a grid. */
  function GridRows(center: Vec3, size: real, divisions: int, n: nat, color: Vec3): (r: seq<DebugVertex>)
    ensures |r| == 4 * n
  {
    if n == 0 then [] else GridRows(center, size, divisions, n - 1, color) + GridRow(center, size, divisions, n - 1, color)
  }

  /** Every vertex of `r` has colour `color` and lies in the horizontal plane at height y. */
  predicate Flat(r: seq<DebugVertex>, y: real, color: Vec3) {
    forall i :: 0 <= i < |r| ==> r[i].color == color && r[i].position.y == y
  }

  /** Every grid vertex has the grid's colour and lies in the horizontal plane through the centre. */
  lemma {:induction false} GridRowsFlat(center: Vec3, size: real, divisions: int, n: nat, color: Vec3)
    ensures Flat(GridRows(center, size, divisions, n, color), center.y, color)
  {
    if n > 0 {
      GridRowsFlat(center, size, divisions, n - 1, color);
      var prev := GridRows(center, size, divisions, n - 1, color);
      var row := GridRow(center, size, divisions, n - 1, color);
      var r := prev + row;
      assert row[0].position.y == row[1].position.y == row[2].position.y == row[3].position.y == center.y;
      assert row[0].color == row[1].color == row[2].color == row[3].color == color;
      assert r == GridRows(center, size, divisions, n, color);
      forall i | 0 <= i < |r| ensures r[i].color == color && r[i].position.y == center.y {
        if i < |prev| {
          assert r[i] == prev[i];
        } else {
          var k := i - |prev|;
          assert r[i] == row[k];
          assert k == 0 || k == 1 || k == 2 || k == 3;
        }
      }
    }
  }

  /** The rows drawGrid visits: i = 0 .. divisions inclusive, none for a negative count. */
  function GridRowCount(divisions: int): nat {
    if divisions < 0 then 0 else divisions + 1
  }

  /** The outermost grid rows lie on the grid's edges: the first at -size/2, the last at +size/2. */
  lemma GridSpansSize(center: Vec3, size: real, divisions: int, color: Vec3)
    requires divisions > 0
    ensures GridRow(center, size, divisions, 0, color)[0].position.z == center.z - size / 2.0
    ensures GridRow(center, size, divisions, divisions, color)[0].position.z == center.z + size / 2.0
  {
    assert (divisions as real) * (size / (divisions as real)) == size;
  }

  /**
   * A sphere's three circles: for circle c (XY, XZ, YZ) and segment i,
   * `rim(c, i)` is the point at angle i·2π/segments of that circle around
   * the centre, which the source computes with cos and sin.
   */
  function CircleLines(rim: (nat, nat) -> Vec3, circle: nat, n: nat, color: Vec3): (r: seq<DebugVertex>)
    ensures |r| == 2 * n
  {
    if n == 0 then [] else CircleLines(rim, circle, n - 1, color) + Line(rim(circle, n - 1), rim(circle, n), color)
  }

  /** Line i of a circle joins rim points i and i + 1, so consecutive lines share an end point. */
  lemma {:induction false} CircleLinesJoin(rim: (nat, nat) -> Vec3, circle: nat, n: nat, color: Vec3)
    ensures var r := CircleLines(rim, circle, n, color);
            forall i :: 0 <= i < n ==> r[2 * i] == DebugVertex(rim(circle, i), color) && r[2 * i + 1] == DebugVertex(rim(circle, i + 1), color)
  {
    if n > 0 {
      CircleLinesJoin(rim, circle, n - 1, color);
      var prev := CircleLines(rim, circle, n - 1, color);
      var r := CircleLines(rim, circle, n, color);
      assert forall j :: 0 <= j < |prev| ==> r[j] == prev[j];
    }
  }

  /** The loop count of a `for (int i = 0; i < segments; i++)`. */
  function SegmentCount(segments: int): nat {
    if segments < 0 then 0 else segments
  }

  function SphereLines(rim: (nat, nat) -> Vec3, segments: int, color: Vec3): (r: seq<DebugVertex>)
    ensures |r| == 6 * SegmentCount(segments)
  {
    var n := SegmentCount(segments);
    CircleLines(rim, 0, n, color) + CircleLines(rim, 1, n, color) + CircleLines(rim, 2, n, color)
  }

  /** The bytes createOrResizeBuffer needs: the list's size, or INITIAL_BUFFER_SIZE for an empty list. */
  function RequiredSize(vertexCount: nat): (r: nat)
    ensures r > 0 && r >= vertexCount * DEBUG_VERTEX_SIZE
    ensures vertexCount > 0 ==> r == vertexCount * DEBUG_VERTEX_SIZE
  {
    if vertexCount * DEBUG_VERTEX_SIZE == 0 then INITIAL_BUFFER_SIZE else vertexCount * DEBUG_VERTEX_SIZE
  }

  class DebugDraw {
    var vertices: seq<DebugVertex>
    var vertexBuffer: Option<Handle>
    var bufferSize: nat
    var bufferCreated: bool
    /** The vertex list last copied into the mapped buffer. */
    var uploaded: seq<DebugVertex>
    /** The buffers passed to vmaDestroyBuffer so far, in order. */
    var destroyed: seq<Handle>

    constructor()
      ensures vertices == [] && vertexBuffer == None && bufferSize == 0 && !bufferCreated
      ensures uploaded == [] && destroyed == []
    {
      vertices := [];
      vertexBuffer := None;
      bufferSize := 0;
      bufferCreated := false;
      uploaded := [];
      destroyed := [];
    }

    method DrawLine(start: Vec3, end: Vec3, color: Vec3)
      modifies this
      ensures vertices == old(vertices) + Line(start, end, color)
      ensures vertexBuffer == old(vertexBuffer) && bufferSize == old(bufferSize) && bufferCreated == old(bufferCreated)
      ensures uploaded == old(uploaded) && destroyed == old(destroyed)
    {
      vertices := vertices + [DebugVertex(start, color)];
      vertices := vertices + [DebugVertex(end, color)];
    }

    method DrawAABB(lo: Vec3, hi: Vec3, color: Vec3)
      modifies this
      ensures vertices == old(vertices) + AABBLines(lo, hi, color)
      ensures vertexBuffer == old(vertexBuffer) && bufferSize == old(bufferSize) && bufferCreated == old(bufferCreated)
      ensures uploaded == old(uploaded) && destroyed == old(destroyed)
    {
      var v0 := vertices;
      // bottom face
      DrawLine(Vec3(lo.x, lo.y, lo.z), Vec3(hi.x, lo.y, lo.z), color);
      DrawLine(Vec3(hi.x, lo.y, lo.z), Vec3(hi.x, lo.y, hi.z), color);
      DrawLine(Vec3(hi.x, lo.y, hi.z), Vec3(lo.x, lo.y, hi.z), color);
      DrawLine(Vec3(lo.x, lo.y, hi.z), Vec3(lo.x, lo.y, lo.z), color);
      var v1 := vertices;
      assert v1 == v0 + Face(lo, hi, lo.y, color);
      // top face
      DrawLine(Vec3(lo.x, hi.y, lo.z), Vec3(hi.x, hi.y, lo.z), color);
      DrawLine(Vec3(hi.x, hi.y, lo.z), Vec3(hi.x, hi.y, hi.z), color);
      DrawLine(Vec3(hi.x, hi.y, hi.z), Vec3(lo.x, hi.y, hi.z), color);
      DrawLine(Vec3(lo.x, hi.y, hi.z), Vec3(lo.x, hi.y, lo.z), color);
      var v2 := vertices;
      assert v2 == v1 + Face(lo, hi, hi.y, color);
      // vertical edges
      DrawLine(Vec3(lo.x, lo.y, lo.z), Vec3(lo.x, hi.y, lo.z), color);
      DrawLine(Vec3(hi.x, lo.y, lo.z), Vec3(hi.x, hi.y, lo.z), color);
      DrawLine(Vec3(hi.x, lo.y, hi.z), Vec3(hi.x, hi.y, hi.z), color);
      DrawLine(Vec3(lo.x, lo.y, hi.z), Vec3(lo.x, hi.y, hi.z), color);
      assert vertices == v2 + Verticals(lo, hi, color);
      AppendAssociates(v0, Face(lo, hi, lo.y, color), Face(lo, hi, hi.y, color));
      AppendAssociates(v0, Face(lo, hi, lo.y, color) + Face(lo, hi, hi.y, color), Verticals(lo, hi, color));
    }

    /** drawBox: the box with corners center - halfExtents and center + halfExtents. */
    method DrawBox(center: Vec3, halfExtents: Vec3, color: Vec3)
      modifies this
      ensures vertices == old(vertices) + AABBLines(Sub3(center, halfExtents), Add3(center, halfExtents), color)
      ensures vertexBuffer == old(vertexBuffer) && bufferSize == old(bufferSize) && bufferCreated == old(bufferCreated)
      ensures uploaded == old(uploaded) && destroyed == old(destroyed)
    {
      var lo := Sub3(center, halfExtents);
      var hi := Add3(center, halfExtents);
      DrawAABB(lo, hi, color);
    }

    /** drawSphere: the XY, XZ and YZ circles, `segments` lines each (DEFAULT_SPHERE_SEGMENTS when omitted), in three loops. */
    method DrawSphere(rim: (nat, nat) -> Vec3, color: Vec3, segments: int)
      modifies this
      ensures vertices == old(vertices) + SphereLines(rim, segments, color)
      ensures vertexBuffer == old(vertexBuffer) && bufferSize == old(bufferSize) && bufferCreated == old(bufferCreated)
      ensures uploaded == old(uploaded) && destroyed == old(destroyed)
    {
      var n := SegmentCount(segments);
      var start := vertices;
      DrawCircle(rim, 0, segments, color);
      var afterXY := vertices;
      DrawCircle(rim, 1, segments, color);
      var afterXZ := vertices;
      DrawCircle(rim, 2, segments, color);
      AppendAssociates(start, CircleLines(rim, 0, n, color), CircleLines(rim, 1, n, color));
      AppendAssociates(start + CircleLines(rim, 0, n, color), CircleLines(rim, 1, n, color), CircleLines(rim, 2, n, color));
      AppendAssociates(start, CircleLines(rim, 0, n, color) + CircleLines(rim, 1, n, color), CircleLines(rim, 2, n, color));
    }

    /** One of drawSphere's loops: `segments` lines around circle `circle`. */
    method DrawCircle(rim: (nat, nat) -> Vec3, circle: nat, segments: int, color: Vec3)
      modifies this
      ensures vertices == old(vertices) + CircleLines(rim, circle, SegmentCount(segments), color)
      ensures vertexBuffer == old(vertexBuffer) && bufferSize == old(bufferSize) && bufferCreated == old(bufferCreated)
      ensures uploaded == old(uploaded) && destroyed == old(destroyed)
    {
      var i := 0;
      while i < segments
        invariant 0 <= i <= SegmentCount(segments)
        invariant vertices == old(vertices) + CircleLines(rim, circle, i, color)
        invariant vertexBuffer == old(vertexBuffer) && bufferSize == old(bufferSize) && bufferCreated == old(bufferCreated)
        invariant uploaded == old(uploaded) && destroyed == old(destroyed)
      {
        DrawLine(rim(circle, i), rim(circle, i + 1), color);
        AppendAssociates(old(vertices), CircleLines(rim, circle, i, color), Line(rim(circle, i), rim(circle, i + 1), color));
        i := i + 1;
      }
    }

    /** drawGrid: rows i = 0 .. divisions, each a line along X and one along Z. */
    method DrawGrid(center: Vec3, size: real, divisions: int, color: Vec3)
      modifies this
      ensures vertices == old(vertices) + GridRows(center, size, divisions, GridRowCount(divisions), color)
      ensures |vertices| == |old(vertices)| + 4 * GridRowCount(divisions)
      ensures vertexBuffer == old(vertexBuffer) && bufferSize == old(bufferSize) && bufferCreated == old(bufferCreated)
      ensures uploaded == old(uploaded) && destroyed == old(destroyed)
    {
      var halfSize := size / 2.0;
      var step := GridStep(size, divisions);
      var i := 0;
      while i <= divisions
        invariant 0 <= i <= GridRowCount(divisions)
        invariant vertices == old(vertices) + GridRows(center, size, divisions, i, color)
        invariant vertexBuffer == old(vertexBuffer) && bufferSize == old(bufferSize) && bufferCreated == old(bufferCreated)
        invariant uploaded == old(uploaded) && destroyed == old(destroyed)
        decreases divisions - i
      {
        var offset := -halfSize + (i as real) * step;
        ghost var before := vertices;
        DrawLine(Add3(center, Vec3(-halfSize, 0.0, offset)), Add3(center, Vec3(halfSize, 0.0, offset)), color);
        DrawLine(Add3(center, Vec3(offset, 0.0, -halfSize)), Add3(center, Vec3(offset, 0.0, halfSize)), color);
        ghost var row := GridRow(center, size, divisions, i, color);
        ghost var alongX := Line(Add3(center, Vec3(-halfSize, 0.0, offset)), Add3(center, Vec3(halfSize, 0.0, offset)), color);
        ghost var alongZ := Line(Add3(center, Vec3(offset, 0.0, -halfSize)), Add3(center, Vec3(offset, 0.0, halfSize)), color);
        assert row[0] == alongX[0];
        assert row[1] == alongX[1];
        assert row[2] == alongZ[0];
        assert row[3] == alongZ[1];
        assert row == alongX + alongZ;
        AppendAssociates(before, alongX, alongZ);
        assert vertices == before + row;
        AppendAssociates(old(vertices), GridRows(center, size, divisions, i, color), row);
        i := i + 1;
      }
    }

    /** drawAxis: X, Y and Z lines of the given length from `origin`. */
    method DrawAxis(origin: Vec3, length: real)
      modifies this
      ensures vertices == old(vertices) + AxisLines(origin, length)
      ensures vertexBuffer == old(vertexBuffer) && bufferSize == old(bufferSize) && bufferCreated == old(bufferCreated)
      ensures uploaded == old(uploaded) && destroyed == old(destroyed)
    {
      var v0 := vertices;
      DrawLine(origin, Add3(origin, Vec3(length, 0.0, 0.0)), RED);
      DrawLine(origin, Add3(origin, Vec3(0.0, length, 0.0)), GREEN);
      DrawLine(origin, Add3(origin, Vec3(0.0, 0.0, length)), BLUE);
      assert vertices == v0 + AxisLines(origin, length);
    }

    method Clear()
      modifies this
      ensures vertices == []
      ensures vertexBuffer == old(vertexBuffer) && bufferSize == old(bufferSize) && bufferCreated == old(bufferCreated)
      ensures uploaded == old(uploaded) && destroyed == old(destroyed)
    {
      vertices := [];
    }

    /** cleanup: destroy the buffer if one exists, then empty the list. */
    method Cleanup()
      modifies this
      ensures vertices == [] && vertexBuffer == if old(bufferCreated) then None else old(vertexBuffer)
      ensures bufferCreated == (old(bufferCreated) && old(vertexBuffer).None?)
      ensures destroyed == old(destroyed) + if old(bufferCreated) && old(vertexBuffer).Some? then [old(vertexBuffer).value] else []
      ensures bufferSize == old(bufferSize) && uploaded == old(uploaded)
    {
      if bufferCreated && vertexBuffer.Some? {
        destroyed := destroyed + [vertexBuffer.value];
        vertexBuffer := None;
        bufferCreated := false;
      }
      vertices := [];
    }

    /**
     * createOrResizeBuffer: keep a created buffer that is large enough;
     * otherwise destroy the old one and create one of twice the required
     * size. vmaCreateBuffer leaves a null buffer when it fails, and the
     * failure throws after bufferSize has been set.
     */
    method CreateOrResizeBuffer(created: Option<Handle>) returns (r: Outcome)
      modifies this
      ensures vertices == old(vertices) && uploaded == old(uploaded)
      ensures var required := RequiredSize(|vertices|);
              && (old(bufferCreated) && old(bufferSize) >= required ==>
                    && r.Ok? && vertexBuffer == old(vertexBuffer) && bufferSize == old(bufferSize)
                    && bufferCreated && destroyed == old(destroyed))
              && (!(old(bufferCreated) && old(bufferSize) >= required) ==>
                    && bufferSize == 2 * required
                    && vertexBuffer == created
                    && destroyed == old(destroyed) + (if old(bufferCreated) && old(vertexBuffer).Some? then [old(vertexBuffer).value] else [])
                    && (r.Ok? <==> created.Some?)
                    && bufferCreated == (old(bufferCreated) || created.Some?))
              && (r.Ok? ==> bufferCreated && bufferSize >= required)
              && (r.Fail? ==> r.message == "failed to create debug vertex buffer")
    {
      var requiredSize := |vertices| * DEBUG_VERTEX_SIZE;
      if requiredSize == 0 {
        requiredSize := INITIAL_BUFFER_SIZE;
      }
      if bufferCreated && bufferSize >= requiredSize {
        return Ok;
      }
      if bufferCreated && vertexBuffer.Some? {
        destroyed := destroyed + [vertexBuffer.value];
      }
      bufferSize := requiredSize * 2;
      vertexBuffer := created;
      if created.None? {
        return Fail("failed to create debug vertex buffer");
      }
      bufferCreated := true;
      return Ok;
    }

    /** upload: nothing for an empty list; otherwise make room and copy the list into the buffer. */
    method Upload(created: Option<Handle>) returns (r: Outcome)
      modifies this
      ensures vertices == old(vertices)
      ensures |vertices| == 0 ==>
                && r.Ok? && uploaded == old(uploaded) && vertexBuffer == old(vertexBuffer)
                && bufferSize == old(bufferSize) && bufferCreated == old(bufferCreated) && destroyed == old(destroyed)
      ensures var required := RequiredSize(|vertices|);
              |vertices| > 0 ==>
                && (old(bufferCreated) && old(bufferSize) >= required ==>
                      && r.Ok? && vertexBuffer == old(vertexBuffer) && bufferSize == old(bufferSize)
                      && destroyed == old(destroyed))
                && (!(old(bufferCreated) && old(bufferSize) >= required) ==>
                      && bufferSize == 2 * required
                      && vertexBuffer == created
                      && destroyed == old(destroyed) + (if old(bufferCreated) && old(vertexBuffer).Some? then [old(vertexBuffer).value] else [])
                      && (r.Ok? <==> created.Some?)
                      && bufferCreated == (old(bufferCreated) || created.Some?))
      ensures |vertices| > 0 && r.Ok? ==>
                && uploaded == vertices && bufferCreated
                && bufferSize >= |vertices| * DEBUG_VERTEX_SIZE
      ensures r.Fail? ==> r.message == "failed to create debug vertex buffer" && uploaded == old(uploaded)
    {
      if |vertices| == 0 {
        return Ok;
      }
      r := CreateOrResizeBuffer(created);
      if r.Fail? {
        return;
      }
      uploaded := vertices;
    }

    /** bind: bind the vertex buffer when it exists and the list is non-empty. */
    method Bind(cb: CommandList)
      modifies cb
      ensures cb.cmds == old(cb.cmds) + if bufferCreated && |vertices| > 0 then [BindVertexBuffer(vertexBuffer)] else []
    {
      if !bufferCreated || |vertices| == 0 {
        return;
      }
      cb.Record(BindVertexBuffer(vertexBuffer));
    }

    /** draw: one draw of every vertex (count cast to uint32_t), one instance. */
    method Draw(cb: CommandList)
      modifies cb
      ensures cb.cmds == old(cb.cmds) + if bufferCreated && |vertices| > 0 then [Cmd.Draw(U32(|vertices|), 1, 0, 0)] else []
    {
      if !bufferCreated || |vertices| == 0 {
        return;
      }
      cb.Record(Cmd.Draw(U32(|vertices|), 1, 0, 0));
    }
  }
}
