/**
 * Material batches of indexed-indirect draws
 * (src/renderer/indirectdrawing.cpp, indirectdrawing.hpp). A mesh
 * pointer is modelled as a `MeshId`, the index of the owning model.
 */
module IndirectDrawing {
  import opened Wrappers
  import opened MachineInts
  import opened LinearAlgebra
  import opened GpuBuffers
  import opened Meshes
  import opened Materials

  type MeshId = nat

  /** VkDrawIndexedIndirectCommand. */
  datatype IndexedIndirectCommand = IndexedIndirectCommand(indexCount: nat, instanceCount: nat, firstIndex: nat,
                                                           vertexOffset: int, firstInstance: nat)

  /** sizeof(VkDrawIndexedIndirectCommand): five 32-bit fields. */
  const INDIRECT_COMMAND_SIZE: nat := 20

  /** IndirectDrawCommand: the GPU command plus the mesh, submesh and model matrix it came from. */
  datatype DrawCommand = DrawCommand(indirectCommand: IndexedIndirectCommand, mesh: MeshId, submeshIndex: nat,
                                     modelMatrix: Mat4)

  /** The command addDrawWithOffsets builds: uint32 offset sum, int32 cast of the vertex offset. */
  function OffsetCommand(mesh: MeshId, submeshes: seq<SubMesh>, submeshIndex: nat, transform: Mat4,
                         globalVertexOffset: nat, globalIndexOffset: nat): (c: DrawCommand)
    requires submeshIndex < |submeshes|
    requires IsU32(globalVertexOffset) && IsU32(globalIndexOffset)
    ensures c.indirectCommand.indexCount == submeshes[submeshIndex].indexCount
    ensures c.indirectCommand.instanceCount == 1 && c.indirectCommand.firstInstance == 0
    ensures IsU32(submeshes[submeshIndex].indexOffset + globalIndexOffset) ==>
              c.indirectCommand.firstIndex == submeshes[submeshIndex].indexOffset + globalIndexOffset
    ensures globalVertexOffset < 0x8000_0000 ==> c.indirectCommand.vertexOffset == globalVertexOffset
    ensures U32(c.indirectCommand.vertexOffset) == globalVertexOffset
    ensures c.mesh == mesh && c.submeshIndex == submeshIndex && c.modelMatrix == transform
  {
    var submesh := submeshes[submeshIndex];
    DrawCommand(IndexedIndirectCommand(submesh.indexCount, 1, U32(submesh.indexOffset + globalIndexOffset),
                                       I32(globalVertexOffset), 0),
                mesh, submeshIndex, transform)
  }

  /** The indirectCommand fields of a command list, in order. */
  function IndirectCommands(cmds: seq<DrawCommand>): (ics: seq<IndexedIndirectCommand>)
    ensures |ics| == |cmds|
    ensures forall i :: 0 <= i < |cmds| ==> ics[i] == cmds[i].indirectCommand
  {
    seq(|cmds|, (i: nat) requires i < |cmds| => cmds[i].indirectCommand)
  }

  class MaterialBatch {
    const material: MaterialKey
    var drawCommands: seq<DrawCommand>
    const indirectBuffer: GPUBuffer<IndexedIndirectCommand>

    /** A new batch for `material` with no commands and no buffer. */
    constructor(material: MaterialKey)
      ensures this.material == material && drawCommands == []
      ensures fresh(indirectBuffer) && indirectBuffer.buffer == None && indirectBuffer.size == 0
    {
      this.material := material;
      drawCommands := [];
      indirectBuffer := new GPUBuffer<IndexedIndirectCommand>();
    }

    /**
     * addDrawWithOffsets: append one command for the submesh, shifted by
     * the model's place in the unified buffers; earlier commands stay.
     */
    method AddDrawWithOffsets(mesh: MeshId, submeshes: seq<SubMesh>, submeshIndex: nat, transform: Mat4,
                              globalVertexOffset: nat, globalIndexOffset: nat)
      requires submeshIndex < |submeshes|
      requires IsU32(globalVertexOffset) && IsU32(globalIndexOffset)
      modifies this
      ensures drawCommands == old(drawCommands) +
                [OffsetCommand(mesh, submeshes, submeshIndex, transform, globalVertexOffset, globalIndexOffset)]
    {
      var submesh := submeshes[submeshIndex];
      var cmd := DrawCommand(IndexedIndirectCommand(submesh.indexCount, 1, U32(submesh.indexOffset + globalIndexOffset),
                                                    I32(globalVertexOffset), 0),
                             mesh, submeshIndex, transform);
      drawCommands := drawCommands + [cmd];
    }

    /** addDraw: addDrawWithOffsets with both offsets 0. */
    method AddDraw(mesh: MeshId, submeshes: seq<SubMesh>, submeshIndex: nat, transform: Mat4)
      requires submeshIndex < |submeshes|
      modifies this
      ensures drawCommands == old(drawCommands) + [OffsetCommand(mesh, submeshes, submeshIndex, transform, 0, 0)]
      ensures drawCommands[|drawCommands| - 1].indirectCommand.firstIndex == submeshes[submeshIndex].indexOffset % U32_MODULUS
      ensures drawCommands[|drawCommands| - 1].indirectCommand.vertexOffset == 0
    {
      AddDrawWithOffsets(mesh, submeshes, submeshIndex, transform, 0, 0);
    }

    /**
     * buildIndirectBuffer: nothing for an empty batch; otherwise a
     * CPU-to-GPU INDIRECT buffer of count * 20 bytes holding the
     * commands' indirectCommand fields in order.
     */
    method BuildIndirectBuffer(alloc: Allocator) returns (r: Outcome)
      requires alloc.Valid()
      modifies indirectBuffer, alloc
      ensures alloc.Valid()
      ensures |drawCommands| == 0 ==>
                && r.Ok? && alloc.buffers == old(alloc.buffers) && alloc.budget == old(alloc.budget)
                && indirectBuffer.buffer == old(indirectBuffer.buffer)
                && indirectBuffer.size == old(indirectBuffer.size)
                && indirectBuffer.memory == old(indirectBuffer.memory)
      ensures |drawCommands| > 0 ==>
                && indirectBuffer.size == INDIRECT_COMMAND_SIZE * |drawCommands|
                && (r.Ok? <==> old(alloc.budget) > 0)
                && (r.Ok? ==>
                      && indirectBuffer.buffer.Some?
                      && indirectBuffer.buffer.value !in old(alloc.buffers)
                      && alloc.buffers == old(alloc.buffers)[indirectBuffer.buffer.value :=
                           BufferInfo(INDIRECT_COMMAND_SIZE * |drawCommands|, {IndirectBuffer}, CpuToGpu)]
                      && indirectBuffer.memory == IndirectCommands(drawCommands)
                      && alloc.budget == old(alloc.budget) - 1)
                && (r.Fail? ==> alloc.buffers == old(alloc.buffers) && indirectBuffer.buffer == None)
    {
      if |drawCommands| == 0 {
        return Ok;
      }
      var indirectCommands: seq<IndexedIndirectCommand> := [];
      var i := 0;
      while i < |drawCommands|
        invariant 0 <= i <= |drawCommands|
        invariant indirectCommands == IndirectCommands(drawCommands[..i])
      {
        indirectCommands := indirectCommands + [drawCommands[i].indirectCommand];
        i := i + 1;
      }
      assert drawCommands[..i] == drawCommands;
      var bufferSize := |indirectCommands| * INDIRECT_COMMAND_SIZE;
      r := indirectBuffer.Create(alloc, bufferSize, {IndirectBuffer}, CpuToGpu, Some(indirectCommands), false);
    }

    /** cleanup: destroy the indirect buffer and drop every command. */
    method Cleanup(alloc: Allocator)
      requires alloc.Valid()
      modifies this, indirectBuffer, alloc
      ensures alloc.Valid()
      ensures drawCommands == [] && indirectBuffer.buffer == None
      ensures old(indirectBuffer.buffer).Some? ==>
                alloc.buffers == old(alloc.buffers) - {old(indirectBuffer.buffer).value} && indirectBuffer.size == 0
      ensures old(indirectBuffer.buffer).None? ==> alloc.buffers == old(alloc.buffers)
      ensures alloc.budget == old(alloc.budget)
    {
      indirectBuffer.Destroy(alloc);
      drawCommands := [];
    }
  }
}
