/**
 * CommandBuffer (src/renderer/commandbuffer.cpp): the per-frame recording
 * of the deferred renderer's four render passes (geometry, lighting,
 * forward, overlay) into a command buffer, and the creation of the
 * per-frame command buffers and synchronisation objects.
 *
 * Each pass is first stated as the trace it must append, as a function of
 * its inputs; the recording methods are proved to append exactly that
 * trace, and lemmas state what the traces contain: one render pass each,
 * which draws they issue and how many indirect commands they consume.
 */
module FrameRecording {
  import opened Wrappers
  import opened GpuBuffers
  import opened GpuCommands
  import opened Materials
  import opened IndirectDrawing
  import opened Scenes

  // ---------------------------------------------------------------------------
  // Render passes

  /** The render pass, the framebuffer of the acquired image, the render area and the clear values of one pass. */
  datatype PassTarget = PassTarget(renderPass: Handle, framebuffer: Handle, extent: Extent, clearValues: seq<ClearValue>)

  /** The geometry pass clears its two colour attachments to opaque black and its depth to 1.0, stencil 0. */
  const GEOMETRY_CLEAR_VALUES: seq<ClearValue> :=
    [ClearColor(0.0, 0.0, 0.0, 1.0), ClearColor(0.0, 0.0, 0.0, 1.0), ClearDepthStencil(1.0, 0)]

  /** The lighting pass clears its one colour attachment to opaque black. */
  const LIGHTING_CLEAR_VALUES: seq<ClearValue> := [ClearColor(0.0, 0.0, 0.0, 1.0)]

  /** The forward and overlay passes load their attachments: clearValueCount 0. */
  const NO_CLEAR_VALUES: seq<ClearValue> := []

  /** What a pass is given besides its descriptor sets: render pass, framebuffers per image, pipeline and layout. */
  datatype PassSetup = PassSetup(renderPass: Handle, framebuffers: seq<Handle>, pipeline: Handle, layout: Handle)

  /** renderPassInfo for the image `imageIndex`: the framebuffers vector indexed by it. */
  function Target(setup: PassSetup, imageIndex: nat, extent: Extent, clearValues: seq<ClearValue>): (t: PassTarget)
    requires imageIndex < |setup.framebuffers|
    ensures t.renderPass == setup.renderPass && t.framebuffer == setup.framebuffers[imageIndex] && t.extent == extent
    ensures t.clearValues == clearValues
  {
    PassTarget(setup.renderPass, setup.framebuffers[imageIndex], extent, clearValues)
  }

  /** A command that may appear inside a render pass: none of the pass and command-buffer boundaries. */
  predicate InsidePass(c: Cmd) {
    !c.BeginRenderPass? && !c.EndRenderPass? && !c.BeginCommandBuffer? && !c.EndCommandBuffer?
  }

  predicate NoPassBoundary(cmds: seq<Cmd>) {
    forall i :: 0 <= i < |cmds| ==> InsidePass(cmds[i])
  }

  /** vkCmdBeginRenderPass, the pass's commands, vkCmdEndRenderPass. */
  function Pass(t: PassTarget, body: seq<Cmd>): seq<Cmd> {
    [BeginRenderPass(t.renderPass, t.framebuffer, t.extent, t.clearValues)] + body + [EndRenderPass]
  }

  /** `cmds` is exactly one render pass on `t`: it opens it, closes it, and has no other boundary in between. */
  predicate OnePass(cmds: seq<Cmd>, t: PassTarget) {
    && |cmds| >= 2
    && cmds[0] == BeginRenderPass(t.renderPass, t.framebuffer, t.extent, t.clearValues)
    && cmds[|cmds| - 1] == EndRenderPass
    && NoPassBoundary(cmds[1..|cmds| - 1])
  }

  lemma NoPassBoundaryAppend(a: seq<Cmd>, b: seq<Cmd>)
    requires NoPassBoundary(a) && NoPassBoundary(b)
    ensures NoPassBoundary(a + b)
  {
    forall i | 0 <= i < |a + b|
      ensures InsidePass((a + b)[i])
    {
      if i >= |a| {
        assert (a + b)[i] == b[i - |a|];
      }
    }
  }

  /** A body without boundaries, bracketed, is one render pass. */
  lemma PassIsOnePass(t: PassTarget, body: seq<Cmd>)
    requires NoPassBoundary(body)
    ensures OnePass(Pass(t, body), t)
  {
    var p := Pass(t, body);
    assert p[1..|p| - 1] == body;
  }

  /** A sequence without boundaries holds none of the boundary commands. */
  lemma {:induction false} NoBoundaryOccurrences(cmds: seq<Cmd>)
    requires NoPassBoundary(cmds)
    ensures Occurrences(cmds, EndRenderPass) == 0
    ensures Occurrences(cmds, BeginCommandBuffer) == 0
    ensures Occurrences(cmds, EndCommandBuffer) == 0
    decreases |cmds|
  {
    if |cmds| > 0 {
      assert InsidePass(cmds[|cmds| - 1]);
      NoBoundaryOccurrences(cmds[..|cmds| - 1]);
    }
  }

  /** One render pass ends exactly once and holds no command-buffer boundary. */
  lemma OnePassCounts(cmds: seq<Cmd>, t: PassTarget)
    requires OnePass(cmds, t)
    ensures Occurrences(cmds, EndRenderPass) == 1
    ensures Occurrences(cmds, BeginCommandBuffer) == 0
    ensures Occurrences(cmds, EndCommandBuffer) == 0
  {
    var begin := BeginRenderPass(t.renderPass, t.framebuffer, t.extent, t.clearValues);
    var body := cmds[1..|cmds| - 1];
    assert cmds == [begin] + body + [EndRenderPass];
    NoBoundaryOccurrences(body);
    OccurrencesAppend([begin] + body, [EndRenderPass], EndRenderPass);
    OccurrencesAppend([begin], body, EndRenderPass);
    OccurrencesAppend([begin] + body, [EndRenderPass], BeginCommandBuffer);
    OccurrencesAppend([begin], body, BeginCommandBuffer);
    OccurrencesAppend([begin] + body, [EndRenderPass], EndCommandBuffer);
    OccurrencesAppend([begin], body, EndCommandBuffer);
    assert [begin][..0] == [] && [EndRenderPass][..0] == [];
  }

  // ---------------------------------------------------------------------------
  // Batches as the passes see them

  /** What recording needs of one batch: its material key, its number of draw commands and its indirect buffer. */
  datatype BatchView = BatchView(key: MaterialKey, drawCount: nat, indirectBuffer: Option<Handle>)

  /** The batches of a map in the iteration order `order`. */
  function ViewsOf(order: seq<MaterialKey>, g: map<MaterialKey, seq<DrawCommand>>,
                   handles: map<MaterialKey, Option<Handle>>): (r: seq<BatchView>)
    ensures |r| == |order|
    ensures forall i :: 0 <= i < |order| ==>
              r[i].key == order[i] && r[i].drawCount == |DrawsOf(g, order[i])|
              && r[i].indirectBuffer == (if order[i] in handles then handles[order[i]] else None)
    decreases |order|
  {
    if |order| == 0 then []
    else
      var k := order[|order| - 1];
      ViewsOf(order[..|order| - 1], g, handles)
        + [BatchView(k, |DrawsOf(g, k)|, if k in handles then handles[k] else None)]
  }

  /** The single indexed-indirect draw of a batch: all its commands, from offset 0, 20 bytes apart. */
  function IndirectDraw(v: BatchView): Cmd {
    DrawIndexedIndirect(v.indirectBuffer, 0, v.drawCount, INDIRECT_COMMAND_SIZE)
  }

  /** The indirect draw of a batch if it has commands. */
  function DrawIfNonEmpty(v: BatchView): (r: seq<Cmd>)
    ensures v.drawCount > 0 ==> r == [IndirectDraw(v)]
    ensures v.drawCount == 0 ==> r == []
  {
    if v.drawCount > 0 then [IndirectDraw(v)] else []
  }

  /** Sum of the batches' command counts. */
  function ViewTotal(views: seq<BatchView>): nat
    decreases |views|
  {
    if |views| == 0 then 0 else ViewTotal(views[..|views| - 1]) + views[|views| - 1].drawCount
  }

  /** Number of batches with at least one command. */
  function NonEmptyCount(views: seq<BatchView>): nat
    decreases |views|
  {
    if |views| == 0 then 0 else NonEmptyCount(views[..|views| - 1]) + (if views[|views| - 1].drawCount > 0 then 1 else 0)
  }

  /** Number of batches whose material has a descriptor set and which have at least one command. */
  function DrawableCount(views: seq<BatchView>, materials: seq<Material>): nat
    decreases |views|
  {
    if |views| == 0 then 0
    else
      var v := views[|views| - 1];
      DrawableCount(views[..|views| - 1], materials) + (if HasDescriptorSet(v.key, materials) && v.drawCount > 0 then 1 else 0)
  }

  /** The views' command counts add up to the batch sizes along the order. */
  lemma {:induction false} ViewTotalAlong(order: seq<MaterialKey>, g: map<MaterialKey, seq<DrawCommand>>,
                                          handles: map<MaterialKey, Option<Handle>>)
    requires forall k :: k in order ==> k in g
    ensures ViewTotal(ViewsOf(order, g, handles)) == SumAlong(order, g)
    decreases |order|
  {
    if |order| > 0 {
      var pre := order[..|order| - 1];
      ViewTotalAlong(pre, g, handles);
      var views := ViewsOf(order, g, handles);
      assert views[..|views| - 1] == ViewsOf(pre, g, handles);
    }
  }

  /** A command of the per-batch loops: the material's set at slot 1, its push constants, or an indirect draw. */
  predicate BatchCommand(c: Cmd) {
    (c.BindDescriptorSet? && c.slot == 1) || c.PushMaterialConstants? || c.DrawIndexedIndirect?
  }

  lemma MaterialBindCommands(layout: Handle, key: MaterialKey, materials: seq<Material>)
    ensures var r := MaterialBindTrace(layout, key, materials);
            && |r| == (if HasDescriptorSet(key, materials) then 2 else 0)
            && (forall i :: 0 <= i < |r| ==> BatchCommand(r[i]))
            && IndirectDrawTotal(r) == 0
  {
    NoDraws(MaterialBindTrace(layout, key, materials));
  }

  lemma DrawIfNonEmptyCounts(v: BatchView)
    ensures var r := DrawIfNonEmpty(v);
            && (forall i :: 0 <= i < |r| ==> BatchCommand(r[i]))
            && DrawCount(r) == (if v.drawCount > 0 then 1 else 0)
            && IndirectDrawTotal(r) == v.drawCount
  {
    if v.drawCount > 0 {
      DrawCountSingle(IndirectDraw(v));
      assert [IndirectDraw(v)][..0] == [];
    }
  }

  function AllBatchCommands(cmds: seq<Cmd>): bool {
    forall i :: 0 <= i < |cmds| ==> BatchCommand(cmds[i])
  }

  lemma AllBatchCommandsAppend(a: seq<Cmd>, b: seq<Cmd>)
    requires AllBatchCommands(a) && AllBatchCommands(b)
    ensures AllBatchCommands(a + b)
  {
    forall i | 0 <= i < |a + b|
      ensures BatchCommand((a + b)[i])
    {
      if i >= |a| {
        assert (a + b)[i] == b[i - |a|];
      }
    }
  }

  /** Batch-loop commands lie inside a pass and bind no vertex or index buffer. */
  lemma BatchCommandsInside(cmds: seq<Cmd>, vb: Option<Handle>, ib: Option<Handle>)
    requires AllBatchCommands(cmds)
    ensures NoPassBoundary(cmds)
    ensures Occurrences(cmds, BindVertexBuffer(vb)) == 0 && Occurrences(cmds, BindIndexBuffer(ib)) == 0
  {
    BatchOccurrences(cmds, BindVertexBuffer(vb));
    BatchOccurrences(cmds, BindIndexBuffer(ib));
  }

  lemma {:induction false} BatchOccurrences(cmds: seq<Cmd>, c: Cmd)
    requires AllBatchCommands(cmds) && !BatchCommand(c)
    ensures Occurrences(cmds, c) == 0
    decreases |cmds|
  {
    if |cmds| > 0 {
      assert BatchCommand(cmds[|cmds| - 1]);
      BatchOccurrences(cmds[..|cmds| - 1], c);
    }
  }

  // ---------------------------------------------------------------------------
  // Geometry pass (commandbuffer.cpp:79-162)

  /** The opaque batch loop: each batch's material binding when it has a set, then its draw when non-empty. */
  function GeometryBatchesTrace(layout: Handle, views: seq<BatchView>, materials: seq<Material>): seq<Cmd>
    decreases |views|
  {
    if |views| == 0 then []
    else
      var v := views[|views| - 1];
      GeometryBatchesTrace(layout, views[..|views| - 1], materials) + MaterialBindTrace(layout, v.key, materials) + DrawIfNonEmpty(v)
  }

  /**
   * The geometry batch loop issues one draw per non-empty batch, each
   * consuming that batch's commands, and nothing but material bindings
   * and those draws.
   */
  lemma {:induction false} GeometryBatchesCounts(layout: Handle, views: seq<BatchView>, materials: seq<Material>)
    ensures var r := GeometryBatchesTrace(layout, views, materials);
            && AllBatchCommands(r)
            && DrawCount(r) == NonEmptyCount(views)
            && IndirectDrawTotal(r) == ViewTotal(views)
    decreases |views|
  {
    if |views| > 0 {
      var v := views[|views| - 1];
      var pre := GeometryBatchesTrace(layout, views[..|views| - 1], materials);
      var bind := MaterialBindTrace(layout, v.key, materials);
      GeometryBatchesCounts(layout, views[..|views| - 1], materials);
      MaterialBindCommands(layout, v.key, materials);
      DrawIfNonEmptyCounts(v);
      AllBatchCommandsAppend(pre, bind);
      AllBatchCommandsAppend(pre + bind, DrawIfNonEmpty(v));
      DrawCountAppend(pre, bind);
      DrawCountAppend(pre + bind, DrawIfNonEmpty(v));
      IndirectDrawTotalAppend(pre, bind);
      IndirectDrawTotalAppend(pre + bind, DrawIfNonEmpty(v));
    }
  }

  /** What the geometry and forward passes draw from a scene: its unified buffers, batches in visiting order and materials. */
  datatype SceneDraw = SceneDraw(vertexBuffer: Option<Handle>, indexBuffer: Option<Handle>,
                                 views: seq<BatchView>, materials: seq<Material>)

  /** The pipeline, the camera set at slot 0, the viewport and scissor over the whole extent. */
  function GeometryPreamble(t: PassTarget, pipeline: Handle, layout: Handle, cameraSet: Handle): seq<Cmd> {
    [BindPipeline(pipeline), BindDescriptorSet(layout, 0, cameraSet), SetViewport(t.extent), SetScissor(t.extent)]
  }

  /** The scene part of the geometry pass: the unified buffers bound once, then the batch loop; nothing for None. */
  function GeometrySceneTrace(layout: Handle, scene: Option<SceneDraw>): seq<Cmd> {
    match scene
    case None => []
    case Some(s) =>
      [BindVertexBuffer(s.vertexBuffer), BindIndexBuffer(s.indexBuffer)] + GeometryBatchesTrace(layout, s.views, s.materials)
  }

  /** recordGeometryPass; `scene` is None for a null scene or one without unified buffers. */
  function GeometryPassTrace(t: PassTarget, pipeline: Handle, layout: Handle, cameraSet: Handle,
                             scene: Option<SceneDraw>): seq<Cmd> {
    Pass(t, GeometryPreamble(t, pipeline, layout, cameraSet) + GeometrySceneTrace(layout, scene))
  }

  /**
   * The geometry pass is one render pass. Without a scene draw it issues
   * no draw and binds no vertex buffer; with one it binds the unified
   * vertex and index buffers exactly once and issues one indexed-indirect
   * draw per non-empty batch, which together consume every batch command.
   */
  lemma GeometryPassProperties(t: PassTarget, pipeline: Handle, layout: Handle, cameraSet: Handle,
                               scene: Option<SceneDraw>)
    ensures var r := GeometryPassTrace(t, pipeline, layout, cameraSet, scene);
            && OnePass(r, t)
            && (scene.None? ==> DrawCount(r) == 0 && IndirectDrawTotal(r) == 0)
            && (scene.Some? ==>
                  && Occurrences(r, BindVertexBuffer(scene.value.vertexBuffer)) == 1
                  && Occurrences(r, BindIndexBuffer(scene.value.indexBuffer)) == 1
                  && DrawCount(r) == NonEmptyCount(scene.value.views)
                  && IndirectDrawTotal(r) == ViewTotal(scene.value.views))
  {
    GeometryPassIsOnePass(t, pipeline, layout, cameraSet, scene);
    GeometryPassCounts(t, pipeline, layout, cameraSet, scene);
  }

  lemma GeometryPassIsOnePass(t: PassTarget, pipeline: Handle, layout: Handle, cameraSet: Handle, scene: Option<SceneDraw>)
    ensures OnePass(GeometryPassTrace(t, pipeline, layout, cameraSet, scene), t)
  {
    var pre := GeometryPreamble(t, pipeline, layout, cameraSet);
    var body := GeometrySceneTrace(layout, scene);
    if scene.Some? {
      GeometrySceneProperties(layout, scene.value);
    }
    assert NoPassBoundary(pre);
    NoPassBoundaryAppend(pre, body);
    PassIsOnePass(t, pre + body);
  }

  lemma GeometryPassCounts(t: PassTarget, pipeline: Handle, layout: Handle, cameraSet: Handle, scene: Option<SceneDraw>)
    ensures var r := GeometryPassTrace(t, pipeline, layout, cameraSet, scene);
            var body := GeometrySceneTrace(layout, scene);
            && DrawCount(r) == DrawCount(body) && IndirectDrawTotal(r) == IndirectDrawTotal(body)
            && (scene.Some? ==>
                  && Occurrences(r, BindVertexBuffer(scene.value.vertexBuffer)) == Occurrences(body, BindVertexBuffer(scene.value.vertexBuffer))
                  && Occurrences(r, BindIndexBuffer(scene.value.indexBuffer)) == Occurrences(body, BindIndexBuffer(scene.value.indexBuffer)))
    ensures scene.Some? ==> GeometrySceneFacts(layout, scene.value)
  {
    var head := [BeginRenderPass(t.renderPass, t.framebuffer, t.extent, t.clearValues)] + GeometryPreamble(t, pipeline, layout, cameraSet);
    var body := GeometrySceneTrace(layout, scene);
    GeometryPassSplit(t, pipeline, layout, cameraSet, scene);
    WrapCounts(head, body);
    if scene.Some? {
      GeometrySceneProperties(layout, scene.value);
      GeometryPassBinds(t, pipeline, layout, cameraSet, scene.value);
    }
  }

  /** The geometry pass as its opening commands, its scene part and its end. */
  lemma GeometryPassSplit(t: PassTarget, pipeline: Handle, layout: Handle, cameraSet: Handle, scene: Option<SceneDraw>)
    ensures GeometryPassTrace(t, pipeline, layout, cameraSet, scene)
            == [BeginRenderPass(t.renderPass, t.framebuffer, t.extent, t.clearValues)] + GeometryPreamble(t, pipeline, layout, cameraSet)
               + GeometrySceneTrace(layout, scene) + [EndRenderPass]
  {
    AppendAssociates([BeginRenderPass(t.renderPass, t.framebuffer, t.extent, t.clearValues)], GeometryPreamble(t, pipeline, layout, cameraSet),
                     GeometrySceneTrace(layout, scene));
  }

  lemma GeometryPassBinds(t: PassTarget, pipeline: Handle, layout: Handle, cameraSet: Handle, s: SceneDraw)
    ensures var r := GeometryPassTrace(t, pipeline, layout, cameraSet, Some(s));
            var body := GeometrySceneTrace(layout, Some(s));
            && Occurrences(r, BindVertexBuffer(s.vertexBuffer)) == Occurrences(body, BindVertexBuffer(s.vertexBuffer))
            && Occurrences(r, BindIndexBuffer(s.indexBuffer)) == Occurrences(body, BindIndexBuffer(s.indexBuffer))
  {
    var head := [BeginRenderPass(t.renderPass, t.framebuffer, t.extent, t.clearValues)] + GeometryPreamble(t, pipeline, layout, cameraSet);
    GeometryPassSplit(t, pipeline, layout, cameraSet, Some(s));
    WrapOccurrences(head, GeometrySceneTrace(layout, Some(s)), BindVertexBuffer(s.vertexBuffer));
    WrapOccurrences(head, GeometrySceneTrace(layout, Some(s)), BindIndexBuffer(s.indexBuffer));
  }

  /** The commands around a body add no draw. */
  lemma WrapCounts(head: seq<Cmd>, body: seq<Cmd>)
    requires forall i :: 0 <= i < |head| ==> !IsDraw(head[i])
    ensures DrawCount(head + body + [EndRenderPass]) == DrawCount(body)
    ensures IndirectDrawTotal(head + body + [EndRenderPass]) == IndirectDrawTotal(body)
  {
    NoDraws(head);
    NoDraws([EndRenderPass]);
    DrawCountAppend(head, body);
    DrawCountAppend(head + body, [EndRenderPass]);
    IndirectDrawTotalAppend(head, body);
    IndirectDrawTotalAppend(head + body, [EndRenderPass]);
  }

  /** The commands around a body add no occurrence of a command they do not contain. */
  lemma WrapOccurrences(head: seq<Cmd>, body: seq<Cmd>, c: Cmd)
    requires forall i :: 0 <= i < |head| ==> head[i] != c
    requires c != EndRenderPass
    ensures Occurrences(head + body + [EndRenderPass], c) == Occurrences(body, c)
  {
    OccurrencesAbsent(head, c);
    OccurrencesSingle(EndRenderPass, c);
    OccurrencesAppend(head, body, c);
    OccurrencesAppend(head + body, [EndRenderPass], c);
  }

  /** The scene part of the geometry pass: both unified buffers bound once, then the batch loop. */
  predicate GeometrySceneFacts(layout: Handle, s: SceneDraw) {
    var body := GeometrySceneTrace(layout, Some(s));
    && NoPassBoundary(body)
    && Occurrences(body, BindVertexBuffer(s.vertexBuffer)) == 1
    && Occurrences(body, BindIndexBuffer(s.indexBuffer)) == 1
    && DrawCount(body) == NonEmptyCount(s.views)
    && IndirectDrawTotal(body) == ViewTotal(s.views)
  }

  lemma GeometrySceneProperties(layout: Handle, s: SceneDraw)
    ensures GeometrySceneFacts(layout, s)
  {
    var vbind := BindVertexBuffer(s.vertexBuffer);
    var ibind := BindIndexBuffer(s.indexBuffer);
    var binds := [vbind, ibind];
    var loop := GeometryBatchesTrace(layout, s.views, s.materials);
    GeometryBatchesCounts(layout, s.views, s.materials);
    BatchCommandsInside(loop, s.vertexBuffer, s.indexBuffer);
    assert NoPassBoundary(binds);
    NoPassBoundaryAppend(binds, loop);
    NoDraws(binds);
    DrawCountAppend(binds, loop);
    IndirectDrawTotalAppend(binds, loop);
    PairOccurrences(vbind, ibind);
    OccurrencesAppend(binds, loop, vbind);
    OccurrencesAppend(binds, loop, ibind);
  }

  lemma PairOccurrences(x: Cmd, y: Cmd)
    requires x != y
    ensures Occurrences([x, y], x) == 1 && Occurrences([x, y], y) == 1
  {
    assert [x, y] == [x] + [y];
    OccurrencesAppend([x], [y], x);
    OccurrencesAppend([x], [y], y);
    OccurrencesSingle(x, x);
    OccurrencesSingle(x, y);
    OccurrencesSingle(y, x);
    OccurrencesSingle(y, y);
  }

  // ---------------------------------------------------------------------------
  // Lighting pass (commandbuffer.cpp:164-210)

  /** recordLightingPass: camera, G-buffer and light sets at slots 0, 1 and 2, then one full-screen triangle. */
  function LightingPassTrace(t: PassTarget, pipeline: Handle, layout: Handle,
                             cameraSet: Handle, gbufferSet: Handle, lightSet: Handle): seq<Cmd> {
    Pass(t, LightingSetup(t, pipeline, layout, cameraSet, gbufferSet, lightSet) + [Draw(3, 1, 0, 0)])
  }

  /** The lighting pass is one render pass issuing exactly one draw: 3 vertices, 1 instance. */
  lemma LightingPassProperties(t: PassTarget, pipeline: Handle, layout: Handle,
                               cameraSet: Handle, gbufferSet: Handle, lightSet: Handle)
    ensures var r := LightingPassTrace(t, pipeline, layout, cameraSet, gbufferSet, lightSet);
            && OnePass(r, t)
            && DrawCount(r) == 1
            && Occurrences(r, Draw(3, 1, 0, 0)) == 1
            && r[2] == BindDescriptorSet(layout, 0, cameraSet)
            && r[3] == BindDescriptorSet(layout, 1, gbufferSet)
            && r[4] == BindDescriptorSet(layout, 2, lightSet)
  {
    var r := LightingPassTrace(t, pipeline, layout, cameraSet, gbufferSet, lightSet);
    LightingPassIsOnePass(t, pipeline, layout, cameraSet, gbufferSet, lightSet);
    LightingPassCounts(t, pipeline, layout, cameraSet, gbufferSet, lightSet);
    assert r[1..] == [BindPipeline(pipeline), BindDescriptorSet(layout, 0, cameraSet)] + r[3..];
  }

  /** The six commands of the lighting pass before its draw. */
  function LightingSetup(t: PassTarget, pipeline: Handle, layout: Handle,
                         cameraSet: Handle, gbufferSet: Handle, lightSet: Handle): seq<Cmd> {
    [BindPipeline(pipeline),
     BindDescriptorSet(layout, 0, cameraSet), BindDescriptorSet(layout, 1, gbufferSet),
     BindDescriptorSet(layout, 2, lightSet),
     SetViewport(t.extent), SetScissor(t.extent)]
  }

  lemma LightingPassIsOnePass(t: PassTarget, pipeline: Handle, layout: Handle,
                              cameraSet: Handle, gbufferSet: Handle, lightSet: Handle)
    ensures OnePass(LightingPassTrace(t, pipeline, layout, cameraSet, gbufferSet, lightSet), t)
  {
    var body := LightingSetup(t, pipeline, layout, cameraSet, gbufferSet, lightSet) + [Draw(3, 1, 0, 0)];
    assert NoPassBoundary(body);
    PassIsOnePass(t, body);
  }

  lemma LightingPassCounts(t: PassTarget, pipeline: Handle, layout: Handle,
                           cameraSet: Handle, gbufferSet: Handle, lightSet: Handle)
    ensures var r := LightingPassTrace(t, pipeline, layout, cameraSet, gbufferSet, lightSet);
            DrawCount(r) == 1 && Occurrences(r, Draw(3, 1, 0, 0)) == 1
  {
    var begin := [BeginRenderPass(t.renderPass, t.framebuffer, t.extent, t.clearValues)];
    var six := LightingSetup(t, pipeline, layout, cameraSet, gbufferSet, lightSet);
    var draw := Draw(3, 1, 0, 0);
    AppendAssociates(begin, six, [draw]);
    WrapCounts(begin + six, [draw]);
    WrapOccurrences(begin + six, [draw], draw);
    DrawCountSingle(draw);
    OccurrencesSingle(draw, draw);
  }

  // ---------------------------------------------------------------------------
  // Forward pass (commandbuffer.cpp:212-299)

  /** The transparent batch loop: only a batch whose material has a set is bound, and then drawn when non-empty. */
  function ForwardBatchesTrace(layout: Handle, views: seq<BatchView>, materials: seq<Material>): seq<Cmd>
    decreases |views|
  {
    if |views| == 0 then []
    else
      var v := views[|views| - 1];
      ForwardBatchesTrace(layout, views[..|views| - 1], materials)
        + (if HasDescriptorSet(v.key, materials) then MaterialBindTrace(layout, v.key, materials) + DrawIfNonEmpty(v) else [])
  }

  lemma {:induction false} ForwardBatchesCounts(layout: Handle, views: seq<BatchView>, materials: seq<Material>)
    ensures var r := ForwardBatchesTrace(layout, views, materials);
            && AllBatchCommands(r)
            && DrawCount(r) == DrawableCount(views, materials)
    decreases |views|
  {
    if |views| > 0 {
      var v := views[|views| - 1];
      var pre := ForwardBatchesTrace(layout, views[..|views| - 1], materials);
      ForwardBatchesCounts(layout, views[..|views| - 1], materials);
      if HasDescriptorSet(v.key, materials) {
        var bind := MaterialBindTrace(layout, v.key, materials);
        MaterialBindCommands(layout, v.key, materials);
        DrawIfNonEmptyCounts(v);
        AllBatchCommandsAppend(bind, DrawIfNonEmpty(v));
        AllBatchCommandsAppend(pre, bind + DrawIfNonEmpty(v));
        DrawCountAppend(bind, DrawIfNonEmpty(v));
        DrawCountAppend(pre, bind + DrawIfNonEmpty(v));
      } else {
        assert ForwardBatchesTrace(layout, views, materials) == pre + [];
        DrawCountAppend(pre, []);
      }
    }
  }

  /** recordForwardPass; `scene` is None unless the scene is non-null, has transparent objects and unified buffers. */
  function ForwardPassTrace(t: PassTarget, pipeline: Handle, layout: Handle, cameraSet: Handle, lightSet: Handle,
                            scene: Option<SceneDraw>): seq<Cmd> {
    match scene
    case None => Pass(t, [])
    case Some(s) => Pass(t, ForwardSetup(t, pipeline, layout, cameraSet, lightSet, s) + ForwardBatchesTrace(layout, s.views, s.materials))
  }

  /**
   * The forward pass is one render pass. Without a scene draw it binds
   * no pipeline and draws nothing: it is the bare begin and end. With one
   * it draws exactly the non-empty sorted batches whose material has a
   * descriptor set.
   */
  lemma ForwardPassProperties(t: PassTarget, pipeline: Handle, layout: Handle, cameraSet: Handle, lightSet: Handle,
                              scene: Option<SceneDraw>)
    ensures var r := ForwardPassTrace(t, pipeline, layout, cameraSet, lightSet, scene);
            && OnePass(r, t)
            && (scene.None? ==> r == [BeginRenderPass(t.renderPass, t.framebuffer, t.extent, t.clearValues), EndRenderPass])
            && (scene.Some? ==> DrawCount(r) == DrawableCount(scene.value.views, scene.value.materials))
  {
    ForwardPassIsOnePass(t, pipeline, layout, cameraSet, lightSet, scene);
    if scene.Some? {
      ForwardPassCounts(t, pipeline, layout, cameraSet, lightSet, scene.value);
    }
  }

  /** The forward pass's commands before its batch loop. */
  function ForwardSetup(t: PassTarget, pipeline: Handle, layout: Handle, cameraSet: Handle, lightSet: Handle,
                        s: SceneDraw): seq<Cmd> {
    [BindPipeline(pipeline), BindDescriptorSet(layout, 0, cameraSet), BindDescriptorSet(layout, 2, lightSet),
     SetViewport(t.extent), SetScissor(t.extent),
     BindVertexBuffer(s.vertexBuffer), BindIndexBuffer(s.indexBuffer)]
  }

  lemma ForwardPassIsOnePass(t: PassTarget, pipeline: Handle, layout: Handle, cameraSet: Handle, lightSet: Handle,
                             scene: Option<SceneDraw>)
    ensures OnePass(ForwardPassTrace(t, pipeline, layout, cameraSet, lightSet, scene), t)
  {
    if scene.Some? {
      var s := scene.value;
      var pre := ForwardSetup(t, pipeline, layout, cameraSet, lightSet, s);
      var loop := ForwardBatchesTrace(layout, s.views, s.materials);
      ForwardBatchesCounts(layout, s.views, s.materials);
      BatchCommandsInside(loop, s.vertexBuffer, s.indexBuffer);
      assert NoPassBoundary(pre);
      NoPassBoundaryAppend(pre, loop);
      PassIsOnePass(t, pre + loop);
    } else {
      PassIsOnePass(t, []);
    }
  }

  lemma ForwardPassCounts(t: PassTarget, pipeline: Handle, layout: Handle, cameraSet: Handle, lightSet: Handle,
                          s: SceneDraw)
    ensures DrawCount(ForwardPassTrace(t, pipeline, layout, cameraSet, lightSet, Some(s))) == DrawableCount(s.views, s.materials)
  {
    var begin := [BeginRenderPass(t.renderPass, t.framebuffer, t.extent, t.clearValues)];
    var pre := ForwardSetup(t, pipeline, layout, cameraSet, lightSet, s);
    var loop := ForwardBatchesTrace(layout, s.views, s.materials);
    ForwardBatchesCounts(layout, s.views, s.materials);
    AppendAssociates(begin, pre, loop);
    WrapCounts(begin + pre, loop);
  }

  // ---------------------------------------------------------------------------
  // Overlay pass (commandbuffer.cpp:301-322)

  /** recordImGuiPass: the layer's render call inside the pass when there is a layer. */
  function OverlayPassTrace(t: PassTarget, hasLayer: bool): seq<Cmd> {
    Pass(t, if hasLayer then [OverlayRender] else [])
  }

  /** The overlay pass is one render pass, and calls render exactly when the layer is non-null. */
  lemma OverlayPassProperties(t: PassTarget, hasLayer: bool)
    ensures var r := OverlayPassTrace(t, hasLayer);
            && OnePass(r, t)
            && Occurrences(r, OverlayRender) == (if hasLayer then 1 else 0)
  {
    var begin := BeginRenderPass(t.renderPass, t.framebuffer, t.extent, t.clearValues);
    var body: seq<Cmd> := if hasLayer then [OverlayRender] else [];
    PassIsOnePass(t, body);
    OccurrencesAppend([begin], body, OverlayRender);
    OccurrencesAppend([begin] + body, [EndRenderPass], OverlayRender);
    OccurrencesSingle(begin, OverlayRender);
    OccurrencesSingle(EndRenderPass, OverlayRender);
    OccurrencesSingle(OverlayRender, OverlayRender);
  }

  // ---------------------------------------------------------------------------
  // The frame (commandbuffer.cpp:324-364)

  /** recordFrame's commands: begin, geometry, lighting, forward, overlay, end. */
  function FrameTrace(geometry: seq<Cmd>, lighting: seq<Cmd>, forward: seq<Cmd>, overlay: seq<Cmd>): seq<Cmd> {
    [BeginCommandBuffer] + geometry + lighting + forward + overlay + [EndCommandBuffer]
  }

  /**
   * Made of four render passes, a frame begins and ends the command
   * buffer once each, at its ends, and ends exactly four render passes;
   * its draws are the passes' draws.
   */
  lemma FrameProperties(geometry: seq<Cmd>, lighting: seq<Cmd>, forward: seq<Cmd>, overlay: seq<Cmd>,
                        tg: PassTarget, tl: PassTarget, tf: PassTarget, to: PassTarget)
    requires OnePass(geometry, tg) && OnePass(lighting, tl) && OnePass(forward, tf) && OnePass(overlay, to)
    ensures var r := FrameTrace(geometry, lighting, forward, overlay);
            && r[0] == BeginCommandBuffer && r[|r| - 1] == EndCommandBuffer
            && Occurrences(r, BeginCommandBuffer) == 1 && Occurrences(r, EndCommandBuffer) == 1
            && Occurrences(r, EndRenderPass) == 4
            && DrawCount(r) == DrawCount(geometry) + DrawCount(lighting) + DrawCount(forward) + DrawCount(overlay)
  {
    FrameBoundaries(geometry, lighting, forward, overlay, tg, tl, tf, to);
    FrameDraws(geometry, lighting, forward, overlay);
  }

  lemma FrameBoundaries(geometry: seq<Cmd>, lighting: seq<Cmd>, forward: seq<Cmd>, overlay: seq<Cmd>,
                        tg: PassTarget, tl: PassTarget, tf: PassTarget, to: PassTarget)
    requires OnePass(geometry, tg) && OnePass(lighting, tl) && OnePass(forward, tf) && OnePass(overlay, to)
    ensures var r := FrameTrace(geometry, lighting, forward, overlay);
            && Occurrences(r, BeginCommandBuffer) == 1 && Occurrences(r, EndCommandBuffer) == 1
            && Occurrences(r, EndRenderPass) == 4
  {
    OnePassCounts(geometry, tg);
    OnePassCounts(lighting, tl);
    OnePassCounts(forward, tf);
    OnePassCounts(overlay, to);
    var b := [BeginCommandBuffer];
    var e := [EndCommandBuffer];
    OccurrencesSingle(BeginCommandBuffer, BeginCommandBuffer);
    OccurrencesSingle(BeginCommandBuffer, EndCommandBuffer);
    OccurrencesSingle(BeginCommandBuffer, EndRenderPass);
    OccurrencesSingle(EndCommandBuffer, BeginCommandBuffer);
    OccurrencesSingle(EndCommandBuffer, EndCommandBuffer);
    OccurrencesSingle(EndCommandBuffer, EndRenderPass);
    OccurrencesOfParts(b, geometry, lighting, forward, overlay, e, BeginCommandBuffer);
    OccurrencesOfParts(b, geometry, lighting, forward, overlay, e, EndCommandBuffer);
    OccurrencesOfParts(b, geometry, lighting, forward, overlay, e, EndRenderPass);
  }

  lemma FrameDraws(geometry: seq<Cmd>, lighting: seq<Cmd>, forward: seq<Cmd>, overlay: seq<Cmd>)
    ensures DrawCount(FrameTrace(geometry, lighting, forward, overlay))
            == DrawCount(geometry) + DrawCount(lighting) + DrawCount(forward) + DrawCount(overlay)
  {
    var b := [BeginCommandBuffer];
    var e := [EndCommandBuffer];
    NoDraws(b);
    NoDraws(e);
    DrawCountAppend(b, geometry);
    DrawCountAppend(b + geometry, lighting);
    DrawCountAppend(b + geometry + lighting, forward);
    DrawCountAppend(b + geometry + lighting + forward, overlay);
    DrawCountAppend(b + geometry + lighting + forward + overlay, e);
  }

  lemma PassAppend(start: seq<Cmd>, t: PassTarget, pre: seq<Cmd>, body: seq<Cmd>)
    ensures start + ([BeginRenderPass(t.renderPass, t.framebuffer, t.extent, t.clearValues)] + pre) + body + [EndRenderPass]
            == start + Pass(t, pre + body)
  {
  }

  lemma FrameAppend(start: seq<Cmd>, g: seq<Cmd>, l: seq<Cmd>, f: seq<Cmd>, o: seq<Cmd>)
    ensures start + [BeginCommandBuffer] + g + l + f + o + [EndCommandBuffer] == start + FrameTrace(g, l, f, o)
  {
  }

  lemma OccurrencesOfParts(b: seq<Cmd>, g: seq<Cmd>, l: seq<Cmd>, f: seq<Cmd>, o: seq<Cmd>, e: seq<Cmd>, c: Cmd)
    ensures Occurrences(b + g + l + f + o + e, c)
            == Occurrences(b, c) + Occurrences(g, c) + Occurrences(l, c) + Occurrences(f, c) + Occurrences(o, c) + Occurrences(e, c)
  {
    OccurrencesAppend(b, g, c);
    OccurrencesAppend(b + g, l, c);
    OccurrencesAppend(b + g + l, f, c);
    OccurrencesAppend(b + g + l + f, o, c);
    OccurrencesAppend(b + g + l + f + o, e, c);
  }

  // ---------------------------------------------------------------------------
  // From the scene to its draws

  /** What the passes read from a scene whose batches are visited in `order`. */
  ghost function SceneDrawOf(s: Scene, order: seq<MaterialKey>): SceneDraw
    reads s, s.unifiedVertexBuffer, s.unifiedIndexBuffer, s.materialManager, s.materialBatches.Values, s.IndirectBuffers()
  {
    SceneDraw(s.unifiedVertexBuffer.buffer, s.unifiedIndexBuffer.buffer,
              ViewsOf(order, s.BatchDraws(), s.BatchHandleMap()), s.materialManager.materials)
  }

  /** The objects of a scene that the passes read. */
  ghost function SceneFootprint(scene: Option<Scene>): set<object>
    reads if scene.Some? then {scene.value} else {}
  {
    match scene
    case None => {}
    case Some(s) =>
      {s, s.unifiedVertexBuffer, s.unifiedIndexBuffer, s.materialManager, s.alloc} + s.materialBatches.Values + s.IndirectBuffers()
  }

  /** What the geometry pass draws of `scene`: nothing for a null scene or one without unified buffers. */
  ghost function GeometryDrawOf(scene: Option<Scene>, order: seq<MaterialKey>): Option<SceneDraw>
    reads SceneFootprint(scene)
  {
    if scene.Some? && scene.value.HasUnifiedBuffers() then Some(SceneDrawOf(scene.value, order)) else None
  }

  /**
   * What the forward pass draws of `scene`, given its sorted transparent
   * batches: nothing unless the scene is non-null, has transparent objects
   * and has unified buffers.
   */
  ghost function ForwardDrawOf(scene: Option<Scene>, sorted: seq<BatchView>): Option<SceneDraw>
    reads SceneFootprint(scene)
  {
    if scene.Some? && scene.value.HasTransparentObjects() && scene.value.HasUnifiedBuffers()
    then Some(SceneDraw(scene.value.unifiedVertexBuffer.buffer, scene.value.unifiedIndexBuffer.buffer,
                        sorted, scene.value.materialManager.materials))
    else None
  }

  /** A scene in its invariant has no transparent objects, so the forward pass draws nothing of it. */
  lemma ValidSceneForwardEmpty(scene: Option<Scene>, sorted: seq<BatchView>)
    requires scene.Some? && scene.value.Valid()
    ensures ForwardDrawOf(scene, sorted) == None
  {
    assert !scene.value.HasTransparentObjects();
  }

  /**
   * Over a build of `models`, whatever the iteration order of the batch
   * map, the geometry pass's indirect draws consume exactly one command
   * per submesh of the loaded models.
   */
  lemma GeometryCoversSubmeshes(t: PassTarget, pipeline: Handle, layout: Handle, cameraSet: Handle,
                                vb: Option<Handle>, ib: Option<Handle>, order: seq<MaterialKey>,
                                models: seq<Model>, nameToIndex: map<string, nat>,
                                handles: map<MaterialKey, Option<Handle>>, materials: seq<Material>)
    requires EnumeratesKeys(order, Batches(models, nameToIndex).Keys)
    ensures var views := ViewsOf(order, Batches(models, nameToIndex), handles);
            IndirectDrawTotal(GeometryPassTrace(t, pipeline, layout, cameraSet, Some(SceneDraw(vb, ib, views, materials))))
            == SubmeshSum(models)
  {
    var g := Batches(models, nameToIndex);
    var views := ViewsOf(order, g, handles);
    GeometryPassProperties(t, pipeline, layout, cameraSet, Some(SceneDraw(vb, ib, views, materials)));
    ViewTotalAlong(order, g, handles);
    SumAlongTotal(order, g, g.Keys);
    BatchesCoverSubmeshes(models, nameToIndex);
  }

  // ---------------------------------------------------------------------------
  // The per-frame objects and the recording methods

  /** A fence and whether it is signalled. */
  datatype Fence = Fence(handle: Handle, signalled: bool)

  /**
   * Slot i of createSyncObjects succeeds: its three creations are the
   * creation attempts 3i, 3i+1 and 3i+2 of `create`.
   */
  predicate SlotCreated(create: nat -> Option<Handle>, i: nat) {
    create(3 * i).Some? && create(3 * i + 1).Some? && create(3 * i + 2).Some?
  }

  predicate AllSlotsCreated(create: nat -> Option<Handle>, n: nat) {
    forall i :: 0 <= i < n ==> SlotCreated(create, i)
  }

  /** How many leading slots among the first n createSyncObjects fills before its first failure. */
  function SlotsBefore(create: nat -> Option<Handle>, n: nat): (k: nat)
    ensures k <= n && AllSlotsCreated(create, k)
    ensures k < n ==> !SlotCreated(create, k)
    decreases n
  {
    if n == 0 then 0
    else
      var k := SlotsBefore(create, n - 1);
      if k == n - 1 && SlotCreated(create, n - 1) then n else k
  }

  /** A semaphore vector after the first k slots were filled: creation attempt 3j + offset in slot j < k, null after. */
  function Semaphores(create: nat -> Option<Handle>, k: nat, offset: nat): (r: seq<Option<Handle>>)
    ensures |r| == MAX_FRAMES_IN_FLIGHT
    ensures forall j :: 0 <= j < MAX_FRAMES_IN_FLIGHT ==> r[j] == if j < k then create(3 * j + offset) else None
  {
    seq(MAX_FRAMES_IN_FLIGHT, j requires 0 <= j < MAX_FRAMES_IN_FLIGHT => if j < k then create(3 * j + offset) else None)
  }

  /** The fence vector after the first k slots were filled: each created fence signalled, null after. */
  function Fences(create: nat -> Option<Handle>, k: nat): (r: seq<Option<Fence>>)
    ensures |r| == MAX_FRAMES_IN_FLIGHT
    ensures forall j :: 0 <= j < MAX_FRAMES_IN_FLIGHT ==>
              r[j] == if j < k && create(3 * j + 2).Some? then Some(Fence(create(3 * j + 2).value, true)) else None
  {
    seq(MAX_FRAMES_IN_FLIGHT, j requires 0 <= j < MAX_FRAMES_IN_FLIGHT =>
          if j < k && create(3 * j + 2).Some? then Some(Fence(create(3 * j + 2).value, true)) else None)
  }

  /** After i created slots, a failure in slot i is where the filling stops. */
  lemma {:induction false} SlotsBeforeFailure(create: nat -> Option<Handle>, i: nat, n: nat)
    requires SlotsBefore(create, i) == i && !SlotCreated(create, i) && i < n
    ensures SlotsBefore(create, n) == i
    decreases n
  {
    if n > i + 1 {
      SlotsBeforeFailure(create, i, n - 1);
    }
  }

  /** Filling slot i after i created slots. */
  lemma SlotStep(create: nat -> Option<Handle>, i: nat)
    requires i < MAX_FRAMES_IN_FLIGHT && SlotsBefore(create, i) == i && SlotCreated(create, i)
    ensures SlotsBefore(create, i + 1) == i + 1
    ensures Semaphores(create, i, 0)[i := create(3 * i)] == Semaphores(create, i + 1, 0)
    ensures Semaphores(create, i, 1)[i := create(3 * i + 1)] == Semaphores(create, i + 1, 1)
    ensures Fences(create, i)[i := Some(Fence(create(3 * i + 2).value, true))] == Fences(create, i + 1)
  {
  }

  /** Every slot created: each vector holds a handle in every slot, and every fence is signalled. */
  lemma AllSlotsFilled(create: nat -> Option<Handle>)
    requires SlotsBefore(create, MAX_FRAMES_IN_FLIGHT) == MAX_FRAMES_IN_FLIGHT
    ensures forall j :: 0 <= j < MAX_FRAMES_IN_FLIGHT ==>
              && Semaphores(create, MAX_FRAMES_IN_FLIGHT, 0)[j].Some?
              && Semaphores(create, MAX_FRAMES_IN_FLIGHT, 1)[j].Some?
              && Fences(create, MAX_FRAMES_IN_FLIGHT)[j].Some? && Fences(create, MAX_FRAMES_IN_FLIGHT)[j].value.signalled
  {
    assert AllSlotsCreated(create, MAX_FRAMES_IN_FLIGHT);
    forall j | 0 <= j < MAX_FRAMES_IN_FLIGHT
      ensures SlotCreated(create, j)
    {
    }
  }

  /**
   * What recordFrame reports, given whether vkBeginCommandBuffer and
   * vkEndCommandBuffer succeed: a failed begin throws before anything is
   * recorded, a failed end throws after the passes.
   */
  function RecordOutcome(beginOk: bool, endOk: bool): (r: Outcome)
    ensures r.Ok? <==> beginOk && endOk
    ensures !beginOk ==> r.message == "failed to begin recording command buffer!"
    ensures beginOk && !endOk ==> r.message == "failed to record command buffer!"
  {
    if !beginOk then Fail("failed to begin recording command buffer!")
    else if !endOk then Fail("failed to record command buffer!")
    else Ok
  }

  class CommandBuffer {
    var commandPool: Option<Handle>
    var commandBuffers: seq<Option<Handle>>
    var imageAvailableSemaphores: seq<Option<Handle>>
    var renderFinishedSemaphores: seq<Option<Handle>>
    var inFlightFences: seq<Option<Fence>>

    constructor()
      ensures commandPool == None && commandBuffers == []
      ensures imageAvailableSemaphores == [] && renderFinishedSemaphores == [] && inFlightFences == []
    {
      commandPool := None;
      commandBuffers := [];
      imageAvailableSemaphores := [];
      renderFinishedSemaphores := [];
      inFlightFences := [];
    }

    /** createCommandPool: `pool` is vkCreateCommandPool's result. */
    method CreateCommandPool(pool: Option<Handle>) returns (r: Outcome)
      modifies this
      ensures r.Ok? <==> pool.Some?
      ensures r.Fail? ==> r.message == "failed to create command pool!"
      ensures commandPool == pool
      ensures commandBuffers == old(commandBuffers) && imageAvailableSemaphores == old(imageAvailableSemaphores)
      ensures renderFinishedSemaphores == old(renderFinishedSemaphores) && inFlightFences == old(inFlightFences)
    {
      commandPool := pool;
      if pool.None? {
        return Fail("failed to create command pool!");
      }
      return Ok;
    }

    /**
     * createCommandBuffers: MAX_FRAMES_IN_FLIGHT primary buffers in one
     * allocation; `allocation` is what vkAllocateCommandBuffers writes,
     * one handle per requested buffer, or None when it fails.
     */
    method CreateCommandBuffers(allocation: Option<seq<Handle>>) returns (r: Outcome)
      requires allocation.Some? ==> |allocation.value| == MAX_FRAMES_IN_FLIGHT
      modifies this
      ensures |commandBuffers| == MAX_FRAMES_IN_FLIGHT
      ensures r.Ok? <==> allocation.Some?
      ensures r.Fail? ==> r.message == "failed to allocate command buffers!"
      ensures r.Fail? ==> forall i :: 0 <= i < MAX_FRAMES_IN_FLIGHT ==> commandBuffers[i].None?
      ensures r.Ok? ==> forall i :: 0 <= i < MAX_FRAMES_IN_FLIGHT ==> commandBuffers[i] == Some(allocation.value[i])
      ensures commandPool == old(commandPool) && imageAvailableSemaphores == old(imageAvailableSemaphores)
      ensures renderFinishedSemaphores == old(renderFinishedSemaphores) && inFlightFences == old(inFlightFences)
    {
      commandBuffers := [None, None];
      if allocation.None? {
        return Fail("failed to allocate command buffers!");
      }
      var i := 0;
      while i < MAX_FRAMES_IN_FLIGHT
        invariant 0 <= i <= MAX_FRAMES_IN_FLIGHT && |commandBuffers| == MAX_FRAMES_IN_FLIGHT
        invariant forall j :: 0 <= j < i ==> commandBuffers[j] == Some(allocation.value[j])
        invariant commandPool == old(commandPool) && imageAvailableSemaphores == old(imageAvailableSemaphores)
        invariant renderFinishedSemaphores == old(renderFinishedSemaphores) && inFlightFences == old(inFlightFences)
      {
        commandBuffers := commandBuffers[i := Some(allocation.value[i])];
        i := i + 1;
      }
      return Ok;
    }

    /**
     * createSyncObjects: per frame slot an image-available semaphore, a
     * render-finished semaphore and a fence created signalled, in that
     * order, the condition short-circuiting at the first failure. A failure
     * throws: the slots before it are filled, the failing slot keeps the
     * semaphores created before the failure, and later slots stay null.
     * `create` gives the result of each creation attempt in turn.
     */
    method CreateSyncObjects(create: nat -> Option<Handle>) returns (r: Outcome)
      modifies this
      ensures var k := SlotsBefore(create, MAX_FRAMES_IN_FLIGHT);
              && (r.Ok? <==> k == MAX_FRAMES_IN_FLIGHT)
              && inFlightFences == Fences(create, k)
      ensures var k := SlotsBefore(create, MAX_FRAMES_IN_FLIGHT);
              k == MAX_FRAMES_IN_FLIGHT ==>
                && imageAvailableSemaphores == Semaphores(create, k, 0)
                && renderFinishedSemaphores == Semaphores(create, k, 1)
      ensures var k := SlotsBefore(create, MAX_FRAMES_IN_FLIGHT);
              k < MAX_FRAMES_IN_FLIGHT ==>
                && imageAvailableSemaphores == Semaphores(create, k, 0)[k := create(3 * k)]
                && renderFinishedSemaphores
                   == Semaphores(create, k, 1)[k := if create(3 * k).Some? then create(3 * k + 1) else None]
      ensures r.Fail? ==> r.message == "failed to create synchronization objects!"
      ensures commandPool == old(commandPool) && commandBuffers == old(commandBuffers)
    {
      imageAvailableSemaphores := [None, None];
      renderFinishedSemaphores := [None, None];
      inFlightFences := [None, None];
      assert imageAvailableSemaphores == Semaphores(create, 0, 0);
      assert renderFinishedSemaphores == Semaphores(create, 0, 1);
      assert inFlightFences == Fences(create, 0);
      var i := 0;
      while i < MAX_FRAMES_IN_FLIGHT
        invariant 0 <= i <= MAX_FRAMES_IN_FLIGHT && SlotsBefore(create, i) == i
        invariant imageAvailableSemaphores == Semaphores(create, i, 0)
        invariant renderFinishedSemaphores == Semaphores(create, i, 1)
        invariant inFlightFences == Fences(create, i)
        invariant commandPool == old(commandPool) && commandBuffers == old(commandBuffers)
      {
        var imageAvailable := create(3 * i);
        var renderFinished := if imageAvailable.Some? then create(3 * i + 1) else None;
        var fence := if imageAvailable.Some? && renderFinished.Some? then create(3 * i + 2) else None;
        if imageAvailable.None? || renderFinished.None? || fence.None? {
          SlotsBeforeFailure(create, i, MAX_FRAMES_IN_FLIGHT);
          imageAvailableSemaphores := imageAvailableSemaphores[i := imageAvailable];
          renderFinishedSemaphores := renderFinishedSemaphores[i := renderFinished];
          return Fail("failed to create synchronization objects!");
        }
        SlotStep(create, i);
        imageAvailableSemaphores := imageAvailableSemaphores[i := imageAvailable];
        renderFinishedSemaphores := renderFinishedSemaphores[i := renderFinished];
        inFlightFences := inFlightFences[i := Some(Fence(fence.value, true))];
        i := i + 1;
      }
      return Ok;
    }

    /** The constructor's sequence: pool, command buffers, sync objects, each throwing before the next. */
    method Create(pool: Option<Handle>, allocation: Option<seq<Handle>>, create: nat -> Option<Handle>)
      returns (r: Outcome)
      requires allocation.Some? ==> |allocation.value| == MAX_FRAMES_IN_FLIGHT
      modifies this
      ensures r.Ok? <==> pool.Some? && allocation.Some? && SlotsBefore(create, MAX_FRAMES_IN_FLIGHT) == MAX_FRAMES_IN_FLIGHT
      ensures r.Ok? ==> && commandPool == pool
                        && |commandBuffers| == MAX_FRAMES_IN_FLIGHT
                        && |imageAvailableSemaphores| == MAX_FRAMES_IN_FLIGHT
                        && |renderFinishedSemaphores| == MAX_FRAMES_IN_FLIGHT
                        && |inFlightFences| == MAX_FRAMES_IN_FLIGHT
                        && forall i :: 0 <= i < MAX_FRAMES_IN_FLIGHT ==>
                             commandBuffers[i].Some? && imageAvailableSemaphores[i].Some?
                             && renderFinishedSemaphores[i].Some? && inFlightFences[i].Some? && inFlightFences[i].value.signalled
    {
      r := CreateCommandPool(pool);
      if r.Fail? {
        return;
      }
      r := CreateCommandBuffers(allocation);
      if r.Fail? {
        return;
      }
      r := CreateSyncObjects(create);
      if r.Ok? {
        AllSlotsFilled(create);
      }
    }

    /** The material's set at slot 1 and its push constants, when it has a descriptor set. */
    method BindMaterial(cb: CommandList, layout: Handle, key: MaterialKey, materials: seq<Material>)
      modifies cb
      ensures cb.cmds == old(cb.cmds) + MaterialBindTrace(layout, key, materials)
    {
      if HasDescriptorSet(key, materials) {
        cb.Record(BindDescriptorSet(layout, 1, materials[key.value].descriptorSet.value));
        cb.Record(PushMaterialConstants(layout, key.value));
      }
    }

    /** The indirect draw of a batch, when it has commands. */
    method DrawBatchIndirect(cb: CommandList, v: BatchView)
      modifies cb
      ensures cb.cmds == old(cb.cmds) + DrawIfNonEmpty(v)
    {
      if v.drawCount > 0 {
        cb.Record(DrawIndexedIndirect(v.indirectBuffer, 0, v.drawCount, INDIRECT_COMMAND_SIZE));
      }
    }

    /** The opaque batch loop of recordGeometryPass. */
    method RecordGeometryBatches(cb: CommandList, layout: Handle, views: seq<BatchView>, materials: seq<Material>)
      modifies cb
      ensures cb.cmds == old(cb.cmds) + GeometryBatchesTrace(layout, views, materials)
    {
      var i := 0;
      while i < |views|
        invariant 0 <= i <= |views|
        invariant cb.cmds == old(cb.cmds) + GeometryBatchesTrace(layout, views[..i], materials)
      {
        ghost var done := GeometryBatchesTrace(layout, views[..i], materials);
        ghost var bind := MaterialBindTrace(layout, views[i].key, materials);
        assert views[..i + 1][..i] == views[..i];
        BindMaterial(cb, layout, views[i].key, materials);
        AppendAssociates(old(cb.cmds), done, bind);
        DrawBatchIndirect(cb, views[i]);
        AppendAssociates(old(cb.cmds), done + bind, DrawIfNonEmpty(views[i]));
        i := i + 1;
      }
      assert views[..i] == views;
    }

    /** The transparent batch loop of recordForwardPass. */
    method RecordForwardBatches(cb: CommandList, layout: Handle, views: seq<BatchView>, materials: seq<Material>)
      modifies cb
      ensures cb.cmds == old(cb.cmds) + ForwardBatchesTrace(layout, views, materials)
    {
      var i := 0;
      while i < |views|
        invariant 0 <= i <= |views|
        invariant cb.cmds == old(cb.cmds) + ForwardBatchesTrace(layout, views[..i], materials)
      {
        ghost var done := ForwardBatchesTrace(layout, views[..i], materials);
        assert views[..i + 1][..i] == views[..i];
        if HasDescriptorSet(views[i].key, materials) {
          ghost var bind := MaterialBindTrace(layout, views[i].key, materials);
          BindMaterial(cb, layout, views[i].key, materials);
          AppendAssociates(old(cb.cmds), done, bind);
          DrawBatchIndirect(cb, views[i]);
          AppendAssociates(old(cb.cmds), done + bind, DrawIfNonEmpty(views[i]));
          AppendAssociates(done, bind, DrawIfNonEmpty(views[i]));
        } else {
          assert ForwardBatchesTrace(layout, views[..i + 1], materials) == done + [];
        }
        i := i + 1;
      }
      assert views[..i] == views;
    }

    /** The scene reads of recordGeometryPass: whether it has unified buffers, then its buffers and its batches in `order`. */
    method ReadGeometryDraw(scene: Option<Scene>, order: seq<MaterialKey>) returns (d: Option<SceneDraw>)
      requires scene.Some? ==> EnumeratesKeys(order, scene.value.materialBatches.Keys)
      ensures d == old(GeometryDrawOf(scene, order))
    {
      if scene.None? || !scene.value.HasUnifiedBuffers() {
        return None;
      }
      var s := scene.value;
      var batches := s.GetMaterialBatches();
      var draws := map k | k in batches :: batches[k].drawCommands;
      var handles := map k | k in batches :: batches[k].indirectBuffer.buffer;
      assert draws == s.BatchDraws();
      assert handles == s.BatchHandleMap();
      d := Some(SceneDraw(s.unifiedVertexBuffer.buffer, s.unifiedIndexBuffer.buffer,
                          ViewsOf(order, draws, handles), s.materialManager.materials));
    }

    /** The scene reads of recordForwardPass; `sorted` stands for getSortedTransparentBatches(viewProj). */
    method ReadForwardDraw(scene: Option<Scene>, sorted: seq<BatchView>) returns (d: Option<SceneDraw>)
      ensures d == old(ForwardDrawOf(scene, sorted))
    {
      if scene.None? || !scene.value.HasTransparentObjects() || !scene.value.HasUnifiedBuffers() {
        return None;
      }
      var s := scene.value;
      d := Some(SceneDraw(s.unifiedVertexBuffer.buffer, s.unifiedIndexBuffer.buffer, sorted, s.materialManager.materials));
    }

    /**
     * The commands of recordGeometryPass once the scene has been read:
     * bindUnifiedBuffers' two binds and the batch loop when there is a
     * scene draw.
     */
    method RecordGeometry(cb: CommandList, t: PassTarget, pipeline: Handle, layout: Handle, cameraSet: Handle,
                          d: Option<SceneDraw>)
      modifies cb
      ensures cb.cmds == old(cb.cmds) + GeometryPassTrace(t, pipeline, layout, cameraSet, d)
    {
      cb.RecordAll([BeginRenderPass(t.renderPass, t.framebuffer, t.extent, t.clearValues), BindPipeline(pipeline),
                    BindDescriptorSet(layout, 0, cameraSet), SetViewport(t.extent), SetScissor(t.extent)]);
      RecordGeometryScene(cb, layout, d);
      cb.Record(EndRenderPass);
      PassAppend(old(cb.cmds), t, GeometryPreamble(t, pipeline, layout, cameraSet), GeometrySceneTrace(layout, d));
    }

    /** The scene part of recordGeometryPass: bindUnifiedBuffers' two binds, then the batch loop. */
    method RecordGeometryScene(cb: CommandList, layout: Handle, d: Option<SceneDraw>)
      modifies cb
      ensures cb.cmds == old(cb.cmds) + GeometrySceneTrace(layout, d)
    {
      if d.Some? {
        cb.RecordAll([BindVertexBuffer(d.value.vertexBuffer), BindIndexBuffer(d.value.indexBuffer)]);
        RecordGeometryBatches(cb, layout, d.value.views, d.value.materials);
        AppendAssociates(old(cb.cmds), [BindVertexBuffer(d.value.vertexBuffer), BindIndexBuffer(d.value.indexBuffer)],
                         GeometryBatchesTrace(layout, d.value.views, d.value.materials));
      }
    }

    /** recordGeometryPass for the image `imageIndex`; `order` is the iteration order of the scene's batch map. */
    method RecordGeometryPass(cb: CommandList, imageIndex: nat, setup: PassSetup, extent: Extent,
                              cameraSet: Handle, scene: Option<Scene>, order: seq<MaterialKey>)
      requires imageIndex < |setup.framebuffers|
      requires scene.Some? ==> EnumeratesKeys(order, scene.value.materialBatches.Keys)
      modifies cb
      ensures cb.cmds == old(cb.cmds) + GeometryPassTrace(Target(setup, imageIndex, extent, GEOMETRY_CLEAR_VALUES), setup.pipeline, setup.layout,
                                                          cameraSet, old(GeometryDrawOf(scene, order)))
    {
      var d := ReadGeometryDraw(scene, order);
      RecordGeometry(cb, Target(setup, imageIndex, extent, GEOMETRY_CLEAR_VALUES), setup.pipeline, setup.layout, cameraSet, d);
    }

    /** recordLightingPass for the image `imageIndex`. */
    method RecordLightingPass(cb: CommandList, imageIndex: nat, setup: PassSetup, extent: Extent,
                              cameraSet: Handle, gbufferSet: Handle, lightSet: Handle)
      requires imageIndex < |setup.framebuffers|
      modifies cb
      ensures cb.cmds == old(cb.cmds)
                         + LightingPassTrace(Target(setup, imageIndex, extent, LIGHTING_CLEAR_VALUES), setup.pipeline, setup.layout,
                                             cameraSet, gbufferSet, lightSet)
    {
      cb.Record(BeginRenderPass(setup.renderPass, setup.framebuffers[imageIndex], extent, LIGHTING_CLEAR_VALUES));
      cb.Record(BindPipeline(setup.pipeline));
      cb.Record(BindDescriptorSet(setup.layout, 0, cameraSet));
      cb.Record(BindDescriptorSet(setup.layout, 1, gbufferSet));
      cb.Record(BindDescriptorSet(setup.layout, 2, lightSet));
      cb.Record(SetViewport(extent));
      cb.Record(SetScissor(extent));
      cb.Record(Draw(3, 1, 0, 0));
      cb.Record(EndRenderPass);
    }

    /** The commands of recordForwardPass once the scene has been read. */
    method RecordForward(cb: CommandList, t: PassTarget, pipeline: Handle, layout: Handle, cameraSet: Handle, lightSet: Handle,
                         d: Option<SceneDraw>)
      modifies cb
      ensures cb.cmds == old(cb.cmds) + ForwardPassTrace(t, pipeline, layout, cameraSet, lightSet, d)
    {
      cb.Record(BeginRenderPass(t.renderPass, t.framebuffer, t.extent, t.clearValues));
      if d.Some? {
        var head := [BindPipeline(pipeline), BindDescriptorSet(layout, 0, cameraSet), BindDescriptorSet(layout, 2, lightSet),
                           SetViewport(t.extent), SetScissor(t.extent),
                           BindVertexBuffer(d.value.vertexBuffer), BindIndexBuffer(d.value.indexBuffer)];
        ghost var begun := cb.cmds;
        cb.RecordAll(head);
        RecordForwardBatches(cb, layout, d.value.views, d.value.materials);
        AppendAssociates(begun, head, ForwardBatchesTrace(layout, d.value.views, d.value.materials));
      }
      cb.Record(EndRenderPass);
    }

    /** recordForwardPass for the image `imageIndex`; `sorted` stands for getSortedTransparentBatches(viewProj). */
    method RecordForwardPass(cb: CommandList, imageIndex: nat, setup: PassSetup, extent: Extent,
                             cameraSet: Handle, lightSet: Handle, scene: Option<Scene>, sorted: seq<BatchView>)
      requires imageIndex < |setup.framebuffers|
      modifies cb
      ensures cb.cmds == old(cb.cmds) + ForwardPassTrace(Target(setup, imageIndex, extent, NO_CLEAR_VALUES), setup.pipeline, setup.layout,
                                                         cameraSet, lightSet, old(ForwardDrawOf(scene, sorted)))
    {
      var d := ReadForwardDraw(scene, sorted);
      RecordForward(cb, Target(setup, imageIndex, extent, NO_CLEAR_VALUES), setup.pipeline, setup.layout, cameraSet, lightSet, d);
    }

    /** recordImGuiPass for the image `imageIndex`; `hasLayer` says whether the layer pointer is non-null. */
    method RecordOverlayPass(cb: CommandList, imageIndex: nat, renderPass: Handle, framebuffers: seq<Handle>,
                             extent: Extent, hasLayer: bool)
      requires imageIndex < |framebuffers|
      modifies cb
      ensures cb.cmds == old(cb.cmds) + OverlayPassTrace(PassTarget(renderPass, framebuffers[imageIndex], extent, NO_CLEAR_VALUES), hasLayer)
    {
      cb.Record(BeginRenderPass(renderPass, framebuffers[imageIndex], extent, NO_CLEAR_VALUES));
      if hasLayer {
        cb.Record(OverlayRender);
      }
      cb.Record(EndRenderPass);
    }

    /** Everything recordFrame records once vkBeginCommandBuffer has succeeded, with the scene already read. */
    method RecordPasses(cb: CommandList, imageIndex: nat, extent: Extent,
                        geometry: PassSetup, cameraSet: Handle, geometryDraw: Option<SceneDraw>,
                        lighting: PassSetup, gbufferSet: Handle, lightSet: Handle,
                        forward: PassSetup, forwardDraw: Option<SceneDraw>,
                        overlayPass: Handle, overlayFramebuffers: seq<Handle>, hasLayer: bool)
      requires imageIndex < |geometry.framebuffers| && imageIndex < |lighting.framebuffers|
      requires imageIndex < |forward.framebuffers| && imageIndex < |overlayFramebuffers|
      modifies cb
      ensures cb.cmds == old(cb.cmds) + FrameTrace(
                GeometryPassTrace(Target(geometry, imageIndex, extent, GEOMETRY_CLEAR_VALUES), geometry.pipeline, geometry.layout, cameraSet, geometryDraw),
                LightingPassTrace(Target(lighting, imageIndex, extent, LIGHTING_CLEAR_VALUES), lighting.pipeline, lighting.layout,
                                  cameraSet, gbufferSet, lightSet),
                ForwardPassTrace(Target(forward, imageIndex, extent, NO_CLEAR_VALUES), forward.pipeline, forward.layout, cameraSet, lightSet, forwardDraw),
                OverlayPassTrace(PassTarget(overlayPass, overlayFramebuffers[imageIndex], extent, NO_CLEAR_VALUES), hasLayer))
    {
      ghost var start := cb.cmds;
      cb.Record(BeginCommandBuffer);
      ghost var a := cb.cmds;
      RecordGeometry(cb, Target(geometry, imageIndex, extent, GEOMETRY_CLEAR_VALUES), geometry.pipeline, geometry.layout, cameraSet, geometryDraw);
      ghost var b := cb.cmds;
      RecordLightingPass(cb, imageIndex, lighting, extent, cameraSet, gbufferSet, lightSet);
      ghost var c := cb.cmds;
      RecordForward(cb, Target(forward, imageIndex, extent, NO_CLEAR_VALUES), forward.pipeline, forward.layout, cameraSet, lightSet, forwardDraw);
      ghost var d := cb.cmds;
      RecordOverlayPass(cb, imageIndex, overlayPass, overlayFramebuffers, extent, hasLayer);
      ghost var e := cb.cmds;
      cb.Record(EndCommandBuffer);
      FrameAppend(start, b[|a|..], c[|b|..], d[|c|..], e[|d|..]);
    }

    /**
     * recordFrame. `beginOk` and `endOk` are the results of
     * vkBeginCommandBuffer and vkEndCommandBuffer: a failed begin throws
     * with nothing recorded, a failed end throws after all four passes.
     */
    method RecordFrame(cb: CommandList, imageIndex: nat, extent: Extent,
                       geometry: PassSetup, cameraSet: Handle, scene: Option<Scene>, order: seq<MaterialKey>,
                       lighting: PassSetup, gbufferSet: Handle, lightSet: Handle,
                       forward: PassSetup, sorted: seq<BatchView>,
                       overlayPass: Handle, overlayFramebuffers: seq<Handle>, hasLayer: bool,
                       beginOk: bool, endOk: bool)
      returns (r: Outcome)
      requires imageIndex < |geometry.framebuffers| && imageIndex < |lighting.framebuffers|
      requires imageIndex < |forward.framebuffers| && imageIndex < |overlayFramebuffers|
      requires scene.Some? ==> EnumeratesKeys(order, scene.value.materialBatches.Keys)
      modifies cb
      ensures r == RecordOutcome(beginOk, endOk)
      ensures !beginOk ==> r == Fail("failed to begin recording command buffer!") && cb.cmds == old(cb.cmds)
      ensures beginOk ==> (r.Ok? <==> endOk) && (r.Fail? ==> r.message == "failed to record command buffer!")
      ensures beginOk ==>
                cb.cmds == old(cb.cmds) + FrameTrace(
                  GeometryPassTrace(Target(geometry, imageIndex, extent, GEOMETRY_CLEAR_VALUES), geometry.pipeline, geometry.layout, cameraSet,
                                    old(GeometryDrawOf(scene, order))),
                  LightingPassTrace(Target(lighting, imageIndex, extent, LIGHTING_CLEAR_VALUES), lighting.pipeline, lighting.layout,
                                    cameraSet, gbufferSet, lightSet),
                  ForwardPassTrace(Target(forward, imageIndex, extent, NO_CLEAR_VALUES), forward.pipeline, forward.layout, cameraSet, lightSet,
                                   old(ForwardDrawOf(scene, sorted))),
                  OverlayPassTrace(PassTarget(overlayPass, overlayFramebuffers[imageIndex], extent, NO_CLEAR_VALUES), hasLayer))
    {
      if !beginOk {
        return Fail("failed to begin recording command buffer!");
      }
      var geometryDraw := ReadGeometryDraw(scene, order);
      var forwardDraw := ReadForwardDraw(scene, sorted);
      RecordPasses(cb, imageIndex, extent, geometry, cameraSet, geometryDraw, lighting, gbufferSet, lightSet,
                   forward, forwardDraw, overlayPass, overlayFramebuffers, hasLayer);
      if !endOk {
        return Fail("failed to record command buffer!");
      }
      return Ok;
    }
  }
}
