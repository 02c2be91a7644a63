/**
 * The interleaved vertex record shared by meshes, the unified geometry
 * buffer and bounding-box construction. Only `pos` takes part in any
 * computation of this model; the other attributes are carried along.
 */
module VertexLayout {
  import opened LinearAlgebra

  datatype Vertex = Vertex(pos: Vec3, normal: Vec3, color: Vec3, texCoord: (real, real), tangent: Vec4)

  /** sizeof(Vertex): 3 + 3 + 3 + 2 + 4 floats of 4 bytes. */
  const VERTEX_SIZE: nat := 60

  /** sizeof(uint32_t), the element of every index buffer. */
  const INDEX_SIZE: nat := 4
}
