/**
 * Meshes: the loaded-mesh data the scene batches (vertices, indices and
 * submeshes), and the built-in cube of src/renderer/mesh.cpp with its
 * constant vertex and index tables and its Mesh object.
 */
module Meshes {
  import opened Wrappers
  import opened LinearAlgebra
  import opened VertexLayout
  import opened GpuBuffers
  import opened GpuCommands

  /** A range of the mesh's index array drawn with one material. */
  datatype SubMesh = SubMesh(indexOffset: nat, indexCount: nat, materialName: string)

  /**
   * What the scene reads from a loaded mesh: getVertices, getIndices,
   * and the submesh list behind getSubmeshCount / getSubmesh /
   * getMaterialName. getVertexCount and getTotalIndexCount are the
   * lengths of the two arrays.
   */
  datatype MeshData = MeshData(vertices: seq<Vertex>, indices: seq<nat>, submeshes: seq<SubMesh>)

  function VertexCount(m: MeshData): nat { |m.vertices| }
  function TotalIndexCount(m: MeshData): nat { |m.indices| }

  /** A cube vertex: position, normal and colour; texCoord and tangent are value-initialised to zero. */
  function CubeVertex(pos: Vec3, normal: Vec3, color: Vec3): Vertex {
    Vertex(pos, normal, color, (0.0, 0.0), Vec4(0.0, 0.0, 0.0, 0.0))
  }

  /** generateCubeVertices: six faces of four vertices (red, green, blue, yellow, pink, cyan). */
  function CubeVertices(): seq<Vertex> {
    [
      CubeVertex(Vec3(-0.5, -0.5, 0.5), Vec3(0.0, 0.0, 1.0), Vec3(1.0, 0.0, 0.0)),
      CubeVertex(Vec3(0.5, -0.5, 0.5), Vec3(0.0, 0.0, 1.0), Vec3(1.0, 0.0, 0.0)),
      CubeVertex(Vec3(0.5, 0.5, 0.5), Vec3(0.0, 0.0, 1.0), Vec3(1.0, 0.0, 0.0)),
      CubeVertex(Vec3(-0.5, 0.5, 0.5), Vec3(0.0, 0.0, 1.0), Vec3(1.0, 0.0, 0.0)),
      CubeVertex(Vec3(0.5, -0.5, -0.5), Vec3(0.0, 0.0, -1.0), Vec3(0.0, 1.0, 0.0)),
      CubeVertex(Vec3(-0.5, -0.5, -0.5), Vec3(0.0, 0.0, -1.0), Vec3(0.0, 1.0, 0.0)),
      CubeVertex(Vec3(-0.5, 0.5, -0.5), Vec3(0.0, 0.0, -1.0), Vec3(0.0, 1.0, 0.0)),
      CubeVertex(Vec3(0.5, 0.5, -0.5), Vec3(0.0, 0.0, -1.0), Vec3(0.0, 1.0, 0.0)),
      CubeVertex(Vec3(0.5, -0.5, 0.5), Vec3(1.0, 0.0, 0.0), Vec3(0.0, 0.0, 1.0)),
      CubeVertex(Vec3(0.5, -0.5, -0.5), Vec3(1.0, 0.0, 0.0), Vec3(0.0, 0.0, 1.0)),
      CubeVertex(Vec3(0.5, 0.5, -0.5), Vec3(1.0, 0.0, 0.0), Vec3(0.0, 0.0, 1.0)),
      CubeVertex(Vec3(0.5, 0.5, 0.5), Vec3(1.0, 0.0, 0.0), Vec3(0.0, 0.0, 1.0)),
      CubeVertex(Vec3(-0.5, -0.5, -0.5), Vec3(-1.0, 0.0, 0.0), Vec3(1.0, 1.0, 0.0)),
      CubeVertex(Vec3(-0.5, -0.5, 0.5), Vec3(-1.0, 0.0, 0.0), Vec3(1.0, 1.0, 0.0)),
      CubeVertex(Vec3(-0.5, 0.5, 0.5), Vec3(-1.0, 0.0, 0.0), Vec3(1.0, 1.0, 0.0)),
      CubeVertex(Vec3(-0.5, 0.5, -0.5), Vec3(-1.0, 0.0, 0.0), Vec3(1.0, 1.0, 0.0)),
      CubeVertex(Vec3(-0.5, 0.5, 0.5), Vec3(0.0, 1.0, 0.0), Vec3(1.0, 0.0, 1.0)),
      CubeVertex(Vec3(0.5, 0.5, 0.5), Vec3(0.0, 1.0, 0.0), Vec3(1.0, 0.0, 1.0)),
      CubeVertex(Vec3(0.5, 0.5, -0.5), Vec3(0.0, 1.0, 0.0), Vec3(1.0, 0.0, 1.0)),
      CubeVertex(Vec3(-0.5, 0.5, -0.5), Vec3(0.0, 1.0, 0.0), Vec3(1.0, 0.0, 1.0)),
      CubeVertex(Vec3(-0.5, -0.5, -0.5), Vec3(0.0, -1.0, 0.0), Vec3(0.0, 1.0, 1.0)),
      CubeVertex(Vec3(0.5, -0.5, -0.5), Vec3(0.0, -1.0, 0.0), Vec3(0.0, 1.0, 1.0)),
      CubeVertex(Vec3(0.5, -0.5, 0.5), Vec3(0.0, -1.0, 0.0), Vec3(0.0, 1.0, 1.0)),
      CubeVertex(Vec3(-0.5, -0.5, 0.5), Vec3(0.0, -1.0, 0.0), Vec3(0.0, 1.0, 1.0))
    ]
  }

  /** generateCubeIndices: two triangles per face. */
  function CubeIndices(): seq<nat> {
    [ 0,  1,  2,  2,  3,  0,
      4,  5,  6,  6,  7,  4,
      8,  9, 10, 10, 11,  8,
     12, 13, 14, 14, 15, 12,
     16, 17, 18, 18, 19, 16,
     20, 21, 22, 22, 23, 20]
  }

  /** The index pattern of face k: 4k, 4k+1, 4k+2, 4k+2, 4k+3, 4k. */
  function FaceIndices(k: nat): seq<nat> {
    [4 * k, 4 * k + 1, 4 * k + 2, 4 * k + 2, 4 * k + 3, 4 * k]
  }

  lemma CubeTableSizes()
    ensures |CubeVertices()| == 24 && |CubeIndices()| == 36
  {
  }

  /** Every cube index addresses the vertex table. */
  lemma CubeIndicesInRange()
    ensures forall i :: 0 <= i < |CubeIndices()| ==> CubeIndices()[i] < |CubeVertices()|
  {
  }

  /** The table is faces 0 to 5 in order, face k being indices 6k .. 6k+5 with the two-triangle pattern. */
  lemma CubeFacePattern()
    ensures CubeIndices() == FaceIndices(0) + FaceIndices(1) + FaceIndices(2) + FaceIndices(3) + FaceIndices(4)
                             + FaceIndices(5)
  {
  }

  /** The four vertices of each face share one normal and one colour. */
  lemma CubeFacesFlat(k: nat, j: nat)
    requires k < 6 && j < 4
    ensures CubeVertices()[4 * k + j].normal == CubeVertices()[4 * k].normal
    ensures CubeVertices()[4 * k + j].color == CubeVertices()[4 * k].color
  {
  }

  /** The cube's indices form whole triangles, and no face of it has a zero normal. */
  lemma CubeTriangles()
    ensures |CubeIndices()| % 3 == 0
    ensures forall k :: 0 <= k < 6 ==> CubeVertices()[4 * k].normal != Vec3(0.0, 0.0, 0.0)
  {
  }

  class Mesh {
    var vertexBuffer: GPUBuffer<Vertex>
    var indexBuffer: GPUBuffer<nat>
    var indexCount: nat

    /** Mesh(): indexCount 0 and two empty buffers. */
    constructor()
      ensures indexCount == 0
      ensures fresh(vertexBuffer) && fresh(indexBuffer)
      ensures vertexBuffer.buffer == None && indexBuffer.buffer == None
    {
      indexCount := 0;
      vertexBuffer := new GPUBuffer<Vertex>();
      indexBuffer := new GPUBuffer<nat>();
    }

    /**
     * createCube: indexCount becomes the index-table length, then the
     * vertex and the index buffer are created GPU-only with the tables as
     * data; a failed create propagates.
     */
    method CreateCube(alloc: Allocator, hasCommandBuffer: bool) returns (r: Outcome)
      requires alloc.Valid()
      modifies this, vertexBuffer, indexBuffer, alloc
      ensures alloc.Valid()
      ensures vertexBuffer == old(vertexBuffer) && indexBuffer == old(indexBuffer)
      ensures indexCount == |CubeIndices()| == 36
      ensures r.Ok? ==> vertexBuffer.memory == CubeVertices() && indexBuffer.memory == CubeIndices()
                        && vertexBuffer.size == VERTEX_SIZE * 24 && indexBuffer.size == INDEX_SIZE * 36
                        && vertexBuffer.buffer.Some? && indexBuffer.buffer.Some?
      ensures r.Ok? <==> old(alloc.budget) >= 2 * AllocationsNeeded(hasCommandBuffer)
    {
      var vertices := CubeVertices();
      var indices := CubeIndices();
      indexCount := |indices|;
      r := vertexBuffer.Create(alloc, VERTEX_SIZE * |vertices|, {VertexBuffer}, GpuOnly, Some(vertices), hasCommandBuffer);
      if r.Fail? {
        return;
      }
      r := indexBuffer.Create(alloc, INDEX_SIZE * |indices|, {IndexBuffer}, GpuOnly, Some(indices), hasCommandBuffer);
    }

    /** destroy: free both buffers and reset indexCount. */
    method Destroy(alloc: Allocator)
      requires alloc.Valid()
      modifies vertexBuffer, indexBuffer, alloc, this
      ensures alloc.Valid()
      ensures vertexBuffer == old(vertexBuffer) && indexBuffer == old(indexBuffer)
      ensures indexCount == 0 && vertexBuffer.buffer == None && indexBuffer.buffer == None
      ensures alloc.buffers == old(alloc.buffers) - HandleSet(old(vertexBuffer.buffer)) - HandleSet(old(indexBuffer.buffer))
      ensures alloc.budget == old(alloc.budget)
    {
      vertexBuffer.Destroy(alloc);
      indexBuffer.Destroy(alloc);
      indexCount := 0;
    }

    /** draw: one indexed draw of indexCount indices, one instance, zero offsets. */
    method Draw(cb: CommandList)
      modifies cb
      ensures cb.cmds == old(cb.cmds) + [DrawIndexed(indexCount, 1, 0, 0, 0)]
    {
      cb.Record(DrawIndexed(indexCount, 1, 0, 0, 0));
    }
  }
}
