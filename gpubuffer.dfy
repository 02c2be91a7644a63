/**
 * GPUBuffer::create / destroy (src/renderer/gpubuffer.cpp) over an
 * abstract allocator. The allocator stands for VMA: it hands out fresh
 * handles, remembers the create info of every live buffer, and succeeds
 * for as many more allocations as its `budget` allows.
 */
module GpuBuffers {
  import opened Wrappers

  type Handle = nat

  datatype BufferUsage = VertexBuffer | IndexBuffer | IndirectBuffer | TransferSrc | TransferDst
  datatype MemoryUsage = GpuOnly | CpuOnly | CpuToGpu

  /** What a live buffer was created with: byte size, usage flags, memory usage. */
  datatype BufferInfo = BufferInfo(size: nat, usage: set<BufferUsage>, memoryUsage: MemoryUsage)

  /** The staging path is taken only for initial data bound for GPU-only memory with a command buffer to copy through. */
  predicate NeedsStaging(hasData: bool, memoryUsage: MemoryUsage, hasCommandBuffer: bool) {
    hasData && memoryUsage == GpuOnly && hasCommandBuffer
  }

  /** The usage the destination buffer is created with. */
  function DestinationUsage(usage: set<BufferUsage>, staged: bool): set<BufferUsage> {
    if staged then usage + {TransferDst} else usage
  }

  /** The handle of an optional buffer, as a set. */
  function HandleSet(h: Option<Handle>): set<Handle> {
    if h.Some? then {h.value} else {}
  }

  /** How many vmaCreateBuffer calls a create makes before it can succeed. */
  function AllocationsNeeded(staged: bool): nat { if staged then 2 else 1 }

  class Allocator {
    var buffers: map<Handle, BufferInfo>
    var nextHandle: Handle
    var budget: nat

    ghost predicate Valid()
      reads this
    {
      forall h :: h in buffers ==> h < nextHandle
    }

    constructor(budget: nat)
      ensures Valid() && buffers == map[] && this.budget == budget
    {
      buffers := map[];
      nextHandle := 0;
      this.budget := budget;
    }

    /** vmaCreateBuffer: a fresh live handle, or None once the budget is spent. */
    method CreateBuffer(info: BufferInfo) returns (h: Option<Handle>)
      requires Valid()
      modifies this
      ensures Valid()
      ensures old(budget) > 0 ==>
                && h == Some(old(nextHandle))
                && old(nextHandle) !in old(buffers)
                && buffers == old(buffers)[old(nextHandle) := info]
                && budget == old(budget) - 1
      ensures old(budget) == 0 ==> h == None && buffers == old(buffers) && budget == 0
    {
      if budget == 0 {
        return None;
      }
      h := Some(nextHandle);
      buffers := buffers[nextHandle := info];
      nextHandle := nextHandle + 1;
      budget := budget - 1;
    }

    /** vmaDestroyBuffer. */
    method DestroyBuffer(h: Handle)
      requires Valid()
      modifies this
      ensures Valid()
      ensures buffers == old(buffers) - {h} && budget == old(budget)
    {
      buffers := buffers - {h};
    }
  }

  /**
   * A buffer and its allocation (one handle here, since both are created
   * and destroyed together), its byte size, and the contents of its
   * memory as the sequence of elements last copied into it.
   */
  class GPUBuffer<T> {
    var buffer: Option<Handle>
    var size: nat
    var memory: seq<T>

    constructor()
      ensures buffer == None && size == 0 && memory == []
    {
      buffer := None;
      size := 0;
      memory := [];
    }

    /** GPUBuffer::copyBuffer: a one-region copy of `size` bytes from a source buffer. */
    method CopyBuffer(source: seq<T>)
      modifies this
      ensures memory == source
      ensures buffer == old(buffer) && size == old(size)
    {
      memory := source;
    }

    /**
     * GPUBuffer::create. `size` is recorded first. On the staging path a
     * CPU-only TRANSFER_SRC buffer receives the data, the destination
     * gains TRANSFER_DST, the data is copied across and the staging
     * buffer is freed, also when the destination cannot be created. On
     * the direct path the data, when present, is mapped and copied in.
     * A create over a live buffer does not free it.
     */
    method Create(alloc: Allocator, bufferSize: nat, usage: set<BufferUsage>, memoryUsage: MemoryUsage,
                  data: Option<seq<T>>, hasCommandBuffer: bool)
      returns (r: Outcome)
      requires alloc.Valid()
      modifies this, alloc
      ensures alloc.Valid()
      ensures size == bufferSize
      ensures var staged := NeedsStaging(data.Some?, memoryUsage, hasCommandBuffer);
              && (r.Ok? <==> old(alloc.budget) >= AllocationsNeeded(staged))
              && (r.Ok? ==> alloc.budget == old(alloc.budget) - AllocationsNeeded(staged))
              && (r.Fail? ==> alloc.budget == 0)
      ensures var staged := NeedsStaging(data.Some?, memoryUsage, hasCommandBuffer);
              r.Ok? ==>
                && buffer.Some?
                && buffer.value !in old(alloc.buffers)
                && alloc.buffers == old(alloc.buffers)[buffer.value := BufferInfo(bufferSize, DestinationUsage(usage, staged), memoryUsage)]
                && memory == (if data.Some? then data.value else old(memory))
      ensures var staged := NeedsStaging(data.Some?, memoryUsage, hasCommandBuffer);
              r.Fail? ==>
                && alloc.buffers == old(alloc.buffers)
                && memory == old(memory)
                && buffer == (if staged && old(alloc.budget) == 0 then old(buffer) else None)
                && r.message == (if !staged then "failed to create buffer"
                                 else if old(alloc.budget) == 0 then "failed to create staging buffer"
                                 else "failed to create GPU buffer")
    {
      size := bufferSize;
      var needsStaging := data.Some? && memoryUsage == GpuOnly && hasCommandBuffer;
      if needsStaging {
        var staging := alloc.CreateBuffer(BufferInfo(size, {TransferSrc}, CpuOnly));
        if staging.None? {
          return Fail("failed to create staging buffer");
        }
        var stagingMemory := data.value;
        buffer := alloc.CreateBuffer(BufferInfo(size, usage + {TransferDst}, memoryUsage));
        if buffer.None? {
          alloc.DestroyBuffer(staging.value);
          return Fail("failed to create GPU buffer");
        }
        CopyBuffer(stagingMemory);
        alloc.DestroyBuffer(staging.value);
        assert staging.value != buffer.value;
      } else {
        buffer := alloc.CreateBuffer(BufferInfo(size, usage, memoryUsage));
        if buffer.None? {
          return Fail("failed to create buffer");
        }
        if data.Some? {
          memory := data.value;
        }
      }
      r := Ok;
    }

    /** GPUBuffer::destroy: frees a live buffer and resets the fields; does nothing on a null buffer. */
    method Destroy(alloc: Allocator)
      requires alloc.Valid()
      modifies this, alloc
      ensures alloc.Valid()
      ensures old(buffer).None? ==> buffer == None && size == old(size) && alloc.buffers == old(alloc.buffers)
      ensures old(buffer).Some? ==> buffer == None && size == 0 && alloc.buffers == old(alloc.buffers) - {old(buffer).value}
      ensures memory == old(memory) && alloc.budget == old(alloc.budget)
    {
      if buffer.Some? {
        alloc.DestroyBuffer(buffer.value);
        buffer := None;
        size := 0;
      }
    }
  }

  /** Destroy is idempotent: after one call every further call changes nothing. */
  method DestroyTwice<T>(b: GPUBuffer<T>, alloc: Allocator)
    requires alloc.Valid()
    modifies b, alloc
    ensures b.buffer == None
    ensures old(b.buffer).Some? ==> b.size == 0 && alloc.buffers == old(alloc.buffers) - {old(b.buffer).value}
    ensures old(b.buffer).None? ==> b.size == old(b.size) && alloc.buffers == old(alloc.buffers)
  {
    b.Destroy(alloc);
    ghost var mid := alloc.buffers;
    ghost var midSize := b.size;
    b.Destroy(alloc);
    assert alloc.buffers == mid && b.size == midSize;
  }
}
