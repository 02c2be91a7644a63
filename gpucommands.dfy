/**
 * A command buffer being recorded, as the trace of the commands appended
 * to it. Every vkCmd* call of the renderer becomes one `Cmd`; the model
 * gives them no semantics beyond their order and arguments.
 */
module GpuCommands {
  import opened Wrappers
  import opened GpuBuffers

  /** Frames the renderer records concurrently (CommandBuffer::MAX_FRAMES_IN_FLIGHT). */
  const MAX_FRAMES_IN_FLIGHT: nat := 2

  /** VkExtent2D. */
  datatype Extent = Extent(width: nat, height: nat)

  /** VkClearValue: a colour, or a depth and stencil value. */
  datatype ClearValue = ClearColor(r: real, g: real, b: real, a: real) | ClearDepthStencil(depth: real, stencil: nat)

  datatype Cmd =
    | BeginCommandBuffer
    | EndCommandBuffer
    | BeginRenderPass(renderPass: Handle, framebuffer: Handle, extent: Extent, clearValues: seq<ClearValue>)
    | EndRenderPass
    | BindPipeline(pipeline: Handle)
    | BindDescriptorSet(layout: Handle, slot: nat, descriptorSet: Handle)
    | SetViewport(extent: Extent)
    | SetScissor(extent: Extent)
    | BindVertexBuffer(buffer: Option<Handle>)
    | BindIndexBuffer(buffer: Option<Handle>)
    /** vkCmdPushConstants of a material's constants (colour and flags) to the fragment stage. */
    | PushMaterialConstants(layout: Handle, material: nat)
    | DrawIndexedIndirect(buffer: Option<Handle>, offset: nat, drawCount: nat, stride: nat)
    | Draw(vertexCount: nat, instanceCount: nat, firstVertex: nat, firstInstance: nat)
    | DrawIndexed(indexCount: nat, instanceCount: nat, firstIndex: nat, vertexOffset: int, firstInstance: nat)
    /** The overlay layer's render call, which records its own draws. */
    | OverlayRender
    /** A loaded mesh's own bind and per-submesh draw calls, identified by the owning model's index. */
    | BindMesh(mesh: nat)
    | DrawSubmesh(mesh: nat, submesh: nat)

  predicate IsDraw(c: Cmd) {
    c.DrawIndexedIndirect? || c.Draw? || c.DrawIndexed? || c.OverlayRender? || c.DrawSubmesh?
  }

  /** Number of commands satisfying `IsDraw`. */
  function DrawCount(cmds: seq<Cmd>): nat
    decreases |cmds|
  {
    if |cmds| == 0 then 0
    else DrawCount(cmds[..|cmds| - 1]) + (if IsDraw(cmds[|cmds| - 1]) then 1 else 0)
  }

  lemma DrawCountSingle(c: Cmd)
    ensures DrawCount([c]) == if IsDraw(c) then 1 else 0
  {
    assert [c][..0] == [];
  }

  /** Number of occurrences of one command. */
  function Occurrences(cmds: seq<Cmd>, c: Cmd): nat
    decreases |cmds|
  {
    if |cmds| == 0 then 0
    else Occurrences(cmds[..|cmds| - 1], c) + (if cmds[|cmds| - 1] == c then 1 else 0)
  }

  lemma {:induction false} DrawCountAppend(a: seq<Cmd>, b: seq<Cmd>)
    ensures DrawCount(a + b) == DrawCount(a) + DrawCount(b)
    decreases |b|
  {
    if |b| == 0 {
      assert a + b == a;
    } else {
      var b' := b[..|b| - 1];
      DrawCountAppend(a, b');
      assert (a + b)[..|a + b| - 1] == a + b';
    }
  }

  lemma {:induction false} OccurrencesAppend(a: seq<Cmd>, b: seq<Cmd>, c: Cmd)
    ensures Occurrences(a + b, c) == Occurrences(a, c) + Occurrences(b, c)
    decreases |b|
  {
    if |b| == 0 {
      assert a + b == a;
    } else {
      var b' := b[..|b| - 1];
      OccurrencesAppend(a, b', c);
      assert (a + b)[..|a + b| - 1] == a + b';
    }
  }

  lemma OccurrencesSingle(c: Cmd, d: Cmd)
    ensures Occurrences([c], d) == if c == d then 1 else 0
  {
    assert [c][..0] == [];
  }

  /** A command that is not among `cmds` occurs in it zero times. */
  lemma {:induction false} OccurrencesAbsent(cmds: seq<Cmd>, c: Cmd)
    requires forall i :: 0 <= i < |cmds| ==> cmds[i] != c
    ensures Occurrences(cmds, c) == 0
    decreases |cmds|
  {
    if |cmds| > 0 {
      OccurrencesAbsent(cmds[..|cmds| - 1], c);
    }
  }

  /** Total drawCount of the indexed-indirect draws among `cmds`: the indirect commands they consume. */
  function IndirectDrawTotal(cmds: seq<Cmd>): nat
    decreases |cmds|
  {
    if |cmds| == 0 then 0
    else
      var c := cmds[|cmds| - 1];
      IndirectDrawTotal(cmds[..|cmds| - 1]) + (if c.DrawIndexedIndirect? then c.drawCount else 0)
  }

  lemma {:induction false} IndirectDrawTotalAppend(a: seq<Cmd>, b: seq<Cmd>)
    ensures IndirectDrawTotal(a + b) == IndirectDrawTotal(a) + IndirectDrawTotal(b)
    decreases |b|
  {
    if |b| == 0 {
      assert a + b == a;
    } else {
      var b' := b[..|b| - 1];
      IndirectDrawTotalAppend(a, b');
      assert (a + b)[..|a + b| - 1] == a + b';
    }
  }

  /** A sequence without draws counts no draw and no indirect command. */
  lemma {:induction false} NoDraws(cmds: seq<Cmd>)
    requires forall i :: 0 <= i < |cmds| ==> !IsDraw(cmds[i])
    ensures DrawCount(cmds) == 0 && IndirectDrawTotal(cmds) == 0
    decreases |cmds|
  {
    if |cmds| > 0 {
      NoDraws(cmds[..|cmds| - 1]);
    }
  }

  /** A VkCommandBuffer: the commands recorded into it so far. */
  class CommandList {
    var cmds: seq<Cmd>

    constructor()
      ensures cmds == []
    {
      cmds := [];
    }

    method Record(c: Cmd)
      modifies this
      ensures cmds == old(cmds) + [c]
    {
      cmds := cmds + [c];
    }

    /** Consecutive vkCmd* calls with no decision between them. */
    method RecordAll(cs: seq<Cmd>)
      modifies this
      ensures cmds == old(cmds) + cs
    {
      cmds := cmds + cs;
    }
  }
}
