/**
 * The scene's draw-batch builder (src/core/scene.cpp, scene.hpp): the
 * model list, the per-model offsets into one unified vertex array and
 * one unified index array, and the material batches of indexed-indirect
 * draws built from every submesh.
 *
 * The first half states what a build must produce as functions of the
 * model list and the material name index; the `Scene` class below
 * performs the build step by step and is proved against them.
 */
module Scenes {
  import opened Wrappers
  import opened MachineInts
  import opened LinearAlgebra
  import opened VertexLayout
  import opened BoundingBox
  import opened GpuBuffers
  import opened GpuCommands
  import opened Meshes
  import opened Textures
  import opened Materials
  import opened IndirectDrawing

  /** Scene::Model. A model index doubles as the identity of its mesh. */
  datatype Model = Model(mesh: Option<MeshData>, name: string, folderPath: string, submeshAABBs: seq<AABB>,
                         transform: Mat4)

  // ---------------------------------------------------------------------------
  // Concatenation and offsets

  function Concat<T>(parts: seq<seq<T>>): seq<T>
    decreases |parts|
  {
    if |parts| == 0 then [] else Concat(parts[..|parts| - 1]) + parts[|parts| - 1]
  }

  /** Sum of the lengths of the parts. */
  function TotalLength<T>(parts: seq<seq<T>>): nat
    decreases |parts|
  {
    if |parts| == 0 then 0 else TotalLength(parts[..|parts| - 1]) + |parts[|parts| - 1]|
  }

  lemma {:induction false} ConcatLength<T>(parts: seq<seq<T>>)
    ensures |Concat(parts)| == TotalLength(parts)
    decreases |parts|
  {
    if |parts| > 0 {
      ConcatLength(parts[..|parts| - 1]);
    }
  }

  /** The concatenation of a prefix of the parts is a prefix of the concatenation. */
  lemma {:induction false} ConcatPrefix<T>(parts: seq<seq<T>>, n: nat)
    requires n <= |parts|
    ensures Concat(parts[..n]) <= Concat(parts)
    decreases |parts|
  {
    if n == |parts| {
      assert parts[..n] == parts;
    } else {
      var pre := parts[..|parts| - 1];
      ConcatPrefix(pre, n);
      assert pre[..n] == parts[..n];
    }
  }

  /** Element k of part i sits at the total length of the parts before i, plus k. */
  lemma ConcatLayout<T>(parts: seq<seq<T>>, i: nat, k: nat)
    requires i < |parts| && k < |parts[i]|
    ensures TotalLength(parts[..i]) + k < |Concat(parts)|
    ensures Concat(parts)[TotalLength(parts[..i]) + k] == parts[i][k]
  {
    var upto := parts[..i + 1];
    assert upto[..i] == parts[..i];
    ConcatLength(parts[..i]);
    ConcatPrefix(parts, i + 1);
    assert Concat(upto) == Concat(parts[..i]) + parts[i];
  }

  lemma TotalLengthStep<T>(parts: seq<seq<T>>, i: nat)
    requires i < |parts|
    ensures TotalLength(parts[..i + 1]) == TotalLength(parts[..i]) + |parts[i]|
  {
    assert parts[..i + 1][..i] == parts[..i];
  }

  function MeshVertices(m: Model): seq<Vertex> {
    if m.mesh.Some? then m.mesh.value.vertices else []
  }

  function MeshIndices(m: Model): seq<nat> {
    if m.mesh.Some? then m.mesh.value.indices else []
  }

  function MeshSubmeshes(m: Model): seq<SubMesh> {
    if m.mesh.Some? then m.mesh.value.submeshes else []
  }

  function VertexParts(models: seq<Model>): (parts: seq<seq<Vertex>>)
    ensures |parts| == |models|
  {
    seq(|models|, i requires 0 <= i < |models| => MeshVertices(models[i]))
  }

  function IndexParts(models: seq<Model>): (parts: seq<seq<nat>>)
    ensures |parts| == |models|
  {
    seq(|models|, i requires 0 <= i < |models| => MeshIndices(models[i]))
  }

  /** allVertices of buildUnifiedBuffers: every mesh's vertices, in model order. */
  function UnifiedVertices(models: seq<Model>): seq<Vertex> {
    Concat(VertexParts(models))
  }

  /** allIndices of buildUnifiedBuffers: every mesh's indices, unshifted, in model order. */
  function UnifiedIndices(models: seq<Model>): seq<nat> {
    Concat(IndexParts(models))
  }

  /** Vertices of all models that have a mesh (unbounded). */
  function VertexSum(models: seq<Model>): nat {
    TotalLength(VertexParts(models))
  }

  /** Indices of all models that have a mesh (unbounded). */
  function IndexSum(models: seq<Model>): nat {
    TotalLength(IndexParts(models))
  }

  /** Submeshes of all models that have a mesh. */
  function SubmeshSum(models: seq<Model>): nat
    decreases |models|
  {
    if |models| == 0 then 0 else SubmeshSum(models[..|models| - 1]) + |MeshSubmeshes(models[|models| - 1])|
  }

  /**
   * The offsets (globalVertexOffset, globalIndexOffset) of the model
   * that follows `earlier`: the uint32 running totals of the vertex and
   * index counts of the earlier models that have a mesh.
   */
  function OffsetsAfter(earlier: seq<Model>): (nat, nat) {
    (U32(VertexSum(earlier)), U32(IndexSum(earlier)))
  }

  lemma PartsPrefix(models: seq<Model>, n: nat)
    requires n <= |models|
    ensures VertexParts(models[..n]) == VertexParts(models)[..n]
    ensures IndexParts(models[..n]) == IndexParts(models)[..n]
  {
  }

  /** The next running totals after model i, with uint32 wrap-around at every step. */
  lemma OffsetsStep(models: seq<Model>, i: nat)
    requires i < |models|
    ensures VertexSum(models[..i + 1]) == VertexSum(models[..i]) + |MeshVertices(models[i])|
    ensures IndexSum(models[..i + 1]) == IndexSum(models[..i]) + |MeshIndices(models[i])|
    ensures OffsetsAfter(models[..i + 1]).0 == U32(OffsetsAfter(models[..i]).0 + |MeshVertices(models[i])|)
    ensures OffsetsAfter(models[..i + 1]).1 == U32(OffsetsAfter(models[..i]).1 + |MeshIndices(models[i])|)
  {
    PartsPrefix(models, i);
    PartsPrefix(models, i + 1);
    TotalLengthStep(VertexParts(models), i);
    TotalLengthStep(IndexParts(models), i);
    assert VertexParts(models)[..i + 1][..i] == VertexParts(models)[..i];
    U32AddWrap(VertexSum(models[..i]), |MeshVertices(models[i])|);
    U32AddWrap(IndexSum(models[..i]), |MeshIndices(models[i])|);
  }

  /** One model's step of the offset loop, stated on the mesh's own counts. */
  lemma OffsetsNext(models: seq<Model>, i: nat)
    requires i < |models|
    ensures models[i].mesh.None? ==> OffsetsAfter(models[..i + 1]) == OffsetsAfter(models[..i])
    ensures models[i].mesh.Some? ==>
      OffsetsAfter(models[..i + 1]) ==
        (U32(OffsetsAfter(models[..i]).0 + VertexCount(models[i].mesh.value)),
         U32(OffsetsAfter(models[..i]).1 + TotalIndexCount(models[i].mesh.value)))
  {
    OffsetsStep(models, i);
  }

  /**
   * Layout of the unified vertex array: its length is the vertex sum,
   * and vertex k of model i sits at model i's (unwrapped) vertex offset
   * plus k.
   */
  lemma UnifiedVertexLayout(models: seq<Model>, i: nat, k: nat)
    requires i < |models| && k < |MeshVertices(models[i])|
    ensures |UnifiedVertices(models)| == VertexSum(models)
    ensures VertexSum(models[..i]) + k < |UnifiedVertices(models)|
    ensures UnifiedVertices(models)[VertexSum(models[..i]) + k] == MeshVertices(models[i])[k]
  {
    var parts := VertexParts(models);
    ConcatLength(parts);
    PartsPrefix(models, i);
    assert parts[i] == MeshVertices(models[i]);
    ConcatLayout(parts, i, k);
  }

  /** The same layout for the unified index array. */
  lemma UnifiedIndexLayout(models: seq<Model>, i: nat, k: nat)
    requires i < |models| && k < |MeshIndices(models[i])|
    ensures |UnifiedIndices(models)| == IndexSum(models)
    ensures IndexSum(models[..i]) + k < |UnifiedIndices(models)|
    ensures UnifiedIndices(models)[IndexSum(models[..i]) + k] == MeshIndices(models[i])[k]
  {
    var parts := IndexParts(models);
    ConcatLength(parts);
    PartsPrefix(models, i);
    assert parts[i] == MeshIndices(models[i]);
    ConcatLayout(parts, i, k);
  }

  /** The unified arrays' lengths are the sums of the models' counts. */
  lemma UnifiedLengths(models: seq<Model>)
    ensures |UnifiedVertices(models)| == VertexSum(models)
    ensures |UnifiedIndices(models)| == IndexSum(models)
  {
    ConcatLength(VertexParts(models));
    ConcatLength(IndexParts(models));
  }

  // ---------------------------------------------------------------------------
  // Draw requests and their grouping by material

  /** One submesh's draw: the batch key it resolved to and the command it adds. */
  datatype DrawRequest = DrawRequest(key: MaterialKey, command: DrawCommand)

  /**
   * The draws of model i (whose predecessors are summarised by
   * `offsets`), one per submesh in submesh order, each keyed by the
   * material its name resolves to and carrying the identity transform.
   */
  function ModelRequests(i: nat, m: Model, offsets: (nat, nat), nameToIndex: map<string, nat>): (rs: seq<DrawRequest>)
    requires IsU32(offsets.0) && IsU32(offsets.1)
    ensures |rs| == |MeshSubmeshes(m)|
  {
    var subs := MeshSubmeshes(m);
    seq(|subs|, j requires 0 <= j < |subs| =>
      DrawRequest(LookupMaterial(nameToIndex, subs[j].materialName),
                  OffsetCommand(i, subs, j, Identity(), offsets.0, offsets.1)))
  }

  /** Every submesh of every model, in model order then submesh order. */
  function DrawRequests(models: seq<Model>, nameToIndex: map<string, nat>): seq<DrawRequest>
    decreases |models|
  {
    if |models| == 0 then []
    else
      var n := |models| - 1;
      DrawRequests(models[..n], nameToIndex) + ModelRequests(n, models[n], OffsetsAfter(models[..n]), nameToIndex)
  }

  /** Extending the model prefix by model i appends exactly model i's requests; a model without a mesh adds none. */
  lemma DrawRequestsStep(models: seq<Model>, nameToIndex: map<string, nat>, i: nat)
    requires i < |models|
    ensures DrawRequests(models[..i + 1], nameToIndex)
            == DrawRequests(models[..i], nameToIndex) + ModelRequests(i, models[i], OffsetsAfter(models[..i]), nameToIndex)
    ensures models[i].mesh.None? ==> DrawRequests(models[..i + 1], nameToIndex) == DrawRequests(models[..i], nameToIndex)
  {
    assert models[..i + 1][..i] == models[..i];
    assert models[..i + 1][i] == models[i];
    if models[i].mesh.None? {
      var pre := DrawRequests(models[..i], nameToIndex);
      assert pre + ModelRequests(i, models[i], OffsetsAfter(models[..i]), nameToIndex) == pre;
    }
  }

  lemma {:induction false} DrawRequestsCount(models: seq<Model>, nameToIndex: map<string, nat>)
    ensures |DrawRequests(models, nameToIndex)| == SubmeshSum(models)
    decreases |models|
  {
    if |models| > 0 {
      DrawRequestsCount(models[..|models| - 1], nameToIndex);
    }
  }

  /**
   * Model i's draws occupy one contiguous stretch of the requests,
   * starting after the submeshes of the models before it, and are built
   * with model i's offsets.
   */
  lemma {:induction false} DrawRequestsPrefix(models: seq<Model>, nameToIndex: map<string, nat>, n: nat)
    requires n <= |models|
    ensures DrawRequests(models[..n], nameToIndex) <= DrawRequests(models, nameToIndex)
    decreases |models|
  {
    if n == |models| {
      assert models[..n] == models;
    } else {
      var pre := models[..|models| - 1];
      DrawRequestsPrefix(pre, nameToIndex, n);
      assert pre[..n] == models[..n];
    }
  }

  lemma DrawRequestsOfModel(models: seq<Model>, nameToIndex: map<string, nat>, i: nat)
    requires i < |models|
    ensures SubmeshSum(models[..i]) + |MeshSubmeshes(models[i])| <= |DrawRequests(models, nameToIndex)|
    ensures DrawRequests(models, nameToIndex)[SubmeshSum(models[..i])..SubmeshSum(models[..i]) + |MeshSubmeshes(models[i])|]
            == ModelRequests(i, models[i], OffsetsAfter(models[..i]), nameToIndex)
  {
    var before := DrawRequests(models[..i], nameToIndex);
    var mine := ModelRequests(i, models[i], OffsetsAfter(models[..i]), nameToIndex);
    DrawRequestsStep(models, nameToIndex, i);
    DrawRequestsCount(models[..i], nameToIndex);
    DrawRequestsPrefix(models, nameToIndex, i + 1);
    PrefixSlice(DrawRequests(models, nameToIndex), before, mine);
  }

  /** A prefix made of two parts: the second part sits right after the first. */
  lemma PrefixSlice<T>(all: seq<T>, x: seq<T>, y: seq<T>)
    requires x + y <= all
    ensures |x| + |y| <= |all| && all[|x|..|x| + |y|] == y
  {
    assert all[..|x| + |y|] == x + y;
    assert (x + y)[|x|..] == y;
  }

  /**
   * The batches a sequence of requests produces: each request's command
   * is appended to the batch of its key, the batch being created on the
   * key's first request.
   */
  function Group(rs: seq<DrawRequest>): map<MaterialKey, seq<DrawCommand>>
    decreases |rs|
  {
    if |rs| == 0 then map[]
    else
      var g := Group(rs[..|rs| - 1]);
      var r := rs[|rs| - 1];
      g[r.key := (if r.key in g then g[r.key] else []) + [r.command]]
  }

  /** Reference definition of one batch: the commands of the requests with that key, in request order. */
  function Select(rs: seq<DrawRequest>, key: MaterialKey): seq<DrawCommand>
    decreases |rs|
  {
    if |rs| == 0 then []
    else Select(rs[..|rs| - 1], key) + (if rs[|rs| - 1].key == key then [rs[|rs| - 1].command] else [])
  }

  /**
   * A batch exists exactly for the keys some request resolved to, and it
   * holds that key's commands in request order (so none is empty).
   */
  lemma {:induction false} GroupContents(rs: seq<DrawRequest>)
    ensures forall k :: k in Group(rs) <==> exists n :: 0 <= n < |rs| && rs[n].key == k
    ensures forall k :: k in Group(rs) ==> Group(rs)[k] == Select(rs, k) && |Group(rs)[k]| > 0
    ensures forall k :: k !in Group(rs) ==> Select(rs, k) == []
    decreases |rs|
  {
    if |rs| > 0 {
      var pre := rs[..|rs| - 1];
      GroupContents(pre);
      forall k | k in Group(rs)
        ensures exists n :: 0 <= n < |rs| && rs[n].key == k
      {
        if k != rs[|rs| - 1].key {
          assert k in Group(pre);
          var n :| 0 <= n < |pre| && pre[n].key == k;
          assert rs[n].key == k;
        }
      }
      forall k | exists n :: 0 <= n < |rs| && rs[n].key == k
        ensures k in Group(rs)
      {
        var n :| 0 <= n < |rs| && rs[n].key == k;
        if n < |pre| {
          assert pre[n].key == k;
        }
      }
    }
  }

  /** Total number of commands over the batches whose keys are in `keys`. */
  ghost function TotalOver(g: map<MaterialKey, seq<DrawCommand>>, keys: set<MaterialKey>): nat
    requires keys <= g.Keys
    decreases keys
  {
    if keys == {} then 0
    else
      var k :| k in keys;
      |g[k]| + TotalOver(g, keys - {k})
  }

  ghost function TotalDraws(g: map<MaterialKey, seq<DrawCommand>>): nat {
    TotalOver(g, g.Keys)
  }

  /** The total does not depend on the order in which keys are taken. */
  lemma {:induction false} TotalOverRemove(g: map<MaterialKey, seq<DrawCommand>>, keys: set<MaterialKey>, k: MaterialKey)
    requires keys <= g.Keys && k in keys
    ensures TotalOver(g, keys) == |g[k]| + TotalOver(g, keys - {k})
    decreases keys
  {
    var k' :| k' in keys && TotalOver(g, keys) == |g[k']| + TotalOver(g, keys - {k'});
    if k' != k {
      TotalOverRemove(g, keys - {k'}, k);
      TotalOverRemove(g, keys - {k}, k');
      assert keys - {k'} - {k} == keys - {k} - {k'};
    }
  }

  lemma {:induction false} TotalOverAgree(g: map<MaterialKey, seq<DrawCommand>>, h: map<MaterialKey, seq<DrawCommand>>,
                                          keys: set<MaterialKey>)
    requires keys <= g.Keys && keys <= h.Keys
    requires forall k :: k in keys ==> |g[k]| == |h[k]|
    ensures TotalOver(g, keys) == TotalOver(h, keys)
    decreases keys
  {
    if keys != {} {
      var k :| k in keys;
      TotalOverRemove(g, keys, k);
      TotalOverRemove(h, keys, k);
      TotalOverAgree(g, h, keys - {k});
    }
  }

  /** Appending one command to one batch adds one to the total. */
  lemma TotalDrawsAppend(g: map<MaterialKey, seq<DrawCommand>>, k: MaterialKey, d: DrawCommand)
    ensures TotalDraws(g[k := (if k in g then g[k] else []) + [d]]) == TotalDraws(g) + 1
  {
    var g' := g[k := (if k in g then g[k] else []) + [d]];
    TotalOverRemove(g', g'.Keys, k);
    assert g'.Keys - {k} == g.Keys - {k};
    TotalOverAgree(g', g, g.Keys - {k});
    if k in g {
      TotalOverRemove(g, g.Keys, k);
    } else {
      assert g.Keys - {k} == g.Keys;
    }
  }

  /** Every request lands in exactly one batch: the batches together hold as many draws as there were requests. */
  lemma {:induction false} GroupTotal(rs: seq<DrawRequest>)
    ensures TotalDraws(Group(rs)) == |rs|
    decreases |rs|
  {
    if |rs| > 0 {
      GroupTotal(rs[..|rs| - 1]);
      TotalDrawsAppend(Group(rs[..|rs| - 1]), rs[|rs| - 1].key, rs[|rs| - 1].command);
    }
  }

  /** The batches of a full build: one draw per submesh of every model, grouped by material. */
  function Batches(models: seq<Model>, nameToIndex: map<string, nat>): map<MaterialKey, seq<DrawCommand>> {
    Group(DrawRequests(models, nameToIndex))
  }

  /** Total draws over all batches equal the total number of submeshes. */
  lemma BatchesCoverSubmeshes(models: seq<Model>, nameToIndex: map<string, nat>)
    ensures TotalDraws(Batches(models, nameToIndex)) == SubmeshSum(models)
  {
    GroupTotal(DrawRequests(models, nameToIndex));
    DrawRequestsCount(models, nameToIndex);
  }

  /**
   * Two models, A with 300 vertices and 600 indices followed by B: B's
   * draws have vertexOffset 300 and firstIndex = its local offset + 600.
   */
  lemma SecondModelOffsets(a: Model, b: Model, nameToIndex: map<string, nat>, j: nat)
    requires a.mesh.Some? && |a.mesh.value.vertices| == 300 && |a.mesh.value.indices| == 600
    requires j < |MeshSubmeshes(b)| && MeshSubmeshes(b)[j].indexOffset < 1000
    ensures |MeshSubmeshes(a)| + j < |DrawRequests([a, b], nameToIndex)|
    ensures var c := DrawRequests([a, b], nameToIndex)[|MeshSubmeshes(a)| + j].command.indirectCommand;
            && c.vertexOffset == 300
            && c.firstIndex == MeshSubmeshes(b)[j].indexOffset + 600
  {
    var models := [a, b];
    assert models[..1] == [a];
    assert [a][..0] == [];
    OffsetsStep(models, 0);
    assert OffsetsAfter(models[..0]) == (0, 0);
    assert OffsetsAfter([a]) == (300, 600);
    DrawRequestsOfModel(models, nameToIndex, 1);
    assert SubmeshSum([a]) == |MeshSubmeshes(a)| by {
      assert [a][..0] == [];
    }
  }

  // ---------------------------------------------------------------------------
  // Model list lookups

  /** The first model with that name, if any. */
  function FindModel(models: seq<Model>, name: string): (r: Option<nat>)
    ensures r.Some? <==> exists i :: 0 <= i < |models| && models[i].name == name
    ensures r.Some? ==> r.value < |models| && models[r.value].name == name
                        && forall i :: 0 <= i < r.value ==> models[i].name != name
    decreases |models|
  {
    if |models| == 0 then None
    else if models[0].name == name then Some(0)
    else
      var rest := FindModel(models[1..], name);
      if rest.None? then
        assert forall i :: 1 <= i < |models| ==> models[i] == models[1..][i - 1];
        None
      else Some(rest.value + 1)
  }

  // ---------------------------------------------------------------------------
  // Drawing the batches

  /**
   * Whether a batch key designates a material with a descriptor set (a
   * non-null material whose set is not VK_NULL_HANDLE). A key past the
   * end of the list, left behind by a reload of the materials, counts
   * as null.
   */
  predicate HasDescriptorSet(key: MaterialKey, materials: seq<Material>) {
    key.Some? && key.value < |materials| && materials[key.value].descriptorSet.Some?
  }

  /** The material's set at slot 1 and its push constants, when it has a descriptor set. */
  function MaterialBindTrace(layout: Handle, key: MaterialKey, materials: seq<Material>): (r: seq<Cmd>)
    ensures DrawCount(r) == 0
  {
    if HasDescriptorSet(key, materials) then
      var bind := BindDescriptorSet(layout, 1, materials[key.value].descriptorSet.value);
      DrawCountAppend([bind], [PushMaterialConstants(layout, key.value)]);
      DrawCountSingle(bind);
      DrawCountSingle(PushMaterialConstants(layout, key.value));
      assert [bind] + [PushMaterialConstants(layout, key.value)] == [bind, PushMaterialConstants(layout, key.value)];
      [bind, PushMaterialConstants(layout, key.value)]
    else
      []
  }

  /** What drawAll records for one batch: the material's set and constants when it has a descriptor set, then each draw. */
  function BatchTrace(layout: Handle, key: MaterialKey, draws: seq<DrawCommand>, materials: seq<Material>): seq<Cmd>
    decreases |draws|
  {
    if |draws| == 0 then MaterialBindTrace(layout, key, materials)
    else
      var d := draws[|draws| - 1];
      BatchTrace(layout, key, draws[..|draws| - 1], materials) + [BindMesh(d.mesh), DrawSubmesh(d.mesh, d.submeshIndex)]
  }

  /** The commands batched under `k`, none for a key without a batch. */
  function DrawsOf(g: map<MaterialKey, seq<DrawCommand>>, k: MaterialKey): seq<DrawCommand> {
    if k in g then g[k] else []
  }

  /** What drawAll records when it visits the batches in `order`: each batch's trace in turn. */
  function DrawAllTrace(layout: Handle, order: seq<MaterialKey>, g: map<MaterialKey, seq<DrawCommand>>,
                        materials: seq<Material>): seq<Cmd>
    decreases |order|
  {
    if |order| == 0 then []
    else
      var k := order[|order| - 1];
      DrawAllTrace(layout, order[..|order| - 1], g, materials) + BatchTrace(layout, k, DrawsOf(g, k), materials)
  }

  lemma {:induction false} BatchTraceDraws(layout: Handle, key: MaterialKey, draws: seq<DrawCommand>, materials: seq<Material>)
    ensures DrawCount(BatchTrace(layout, key, draws, materials)) == |draws|
    decreases |draws|
  {
    if |draws| == 0 {
    } else {
      var d := draws[|draws| - 1];
      var pre := BatchTrace(layout, key, draws[..|draws| - 1], materials);
      BatchTraceDraws(layout, key, draws[..|draws| - 1], materials);
      DrawCountAppend(pre, [BindMesh(d.mesh), DrawSubmesh(d.mesh, d.submeshIndex)]);
      DrawCountAppend([BindMesh(d.mesh)], [DrawSubmesh(d.mesh, d.submeshIndex)]);
      DrawCountSingle(BindMesh(d.mesh));
      DrawCountSingle(DrawSubmesh(d.mesh, d.submeshIndex));
      assert [BindMesh(d.mesh)] + [DrawSubmesh(d.mesh, d.submeshIndex)] == [BindMesh(d.mesh), DrawSubmesh(d.mesh, d.submeshIndex)];
    }
  }

  /** Sum of the batch sizes along an iteration order. */
  function SumAlong(order: seq<MaterialKey>, g: map<MaterialKey, seq<DrawCommand>>): nat
    requires forall k :: k in order ==> k in g
    decreases |order|
  {
    if |order| == 0 then 0 else SumAlong(order[..|order| - 1], g) + |g[order[|order| - 1]]|
  }

  lemma {:induction false} SumAlongTotal(order: seq<MaterialKey>, g: map<MaterialKey, seq<DrawCommand>>, keys: set<MaterialKey>)
    requires keys <= g.Keys && EnumeratesKeys(order, keys)
    ensures SumAlong(order, g) == TotalOver(g, keys)
    decreases |order|
  {
    if |order| == 0 {
      assert keys == {} by {
        assert forall k :: k in keys ==> k in order;
      }
    } else {
      var pre := order[..|order| - 1];
      var last := order[|order| - 1];
      EnumerationDropLast(order, keys);
      SumAlongTotal(pre, g, keys - {last});
      TotalOverRemove(g, keys, last);
    }
  }

  /** Extending the visited prefix of the order by one key appends that key's batch trace. */
  lemma DrawAllTraceStep(layout: Handle, order: seq<MaterialKey>, g: map<MaterialKey, seq<DrawCommand>>,
                         materials: seq<Material>, i: nat)
    requires i < |order|
    ensures DrawAllTrace(layout, order[..i + 1], g, materials)
            == DrawAllTrace(layout, order[..i], g, materials) + BatchTrace(layout, order[i], DrawsOf(g, order[i]), materials)
  {
    assert order[..i + 1][..i] == order[..i];
  }

  /** drawAll issues one submesh draw per command of every batch its order visits. */
  lemma {:induction false} DrawAllDraws(layout: Handle, order: seq<MaterialKey>, g: map<MaterialKey, seq<DrawCommand>>,
                                        materials: seq<Material>)
    requires forall k :: k in order ==> k in g
    ensures DrawCount(DrawAllTrace(layout, order, g, materials)) == SumAlong(order, g)
    decreases |order|
  {
    if |order| > 0 {
      var k := order[|order| - 1];
      DrawAllDraws(layout, order[..|order| - 1], g, materials);
      BatchTraceDraws(layout, k, g[k], materials);
      DrawCountAppend(DrawAllTrace(layout, order[..|order| - 1], g, materials), BatchTrace(layout, k, DrawsOf(g, k), materials));
    }
  }

  /** Drawing a full build over any iteration order draws every submesh exactly as often as there are submeshes. */
  lemma DrawAllCoversSubmeshes(layout: Handle, order: seq<MaterialKey>, models: seq<Model>,
                               nameToIndex: map<string, nat>, materials: seq<Material>)
    requires EnumeratesKeys(order, Batches(models, nameToIndex).Keys)
    ensures DrawCount(DrawAllTrace(layout, order, Batches(models, nameToIndex), materials)) == SubmeshSum(models)
  {
    var g := Batches(models, nameToIndex);
    DrawAllDraws(layout, order, g, materials);
    SumAlongTotal(order, g, g.Keys);
    BatchesCoverSubmeshes(models, nameToIndex);
  }

  lemma UnifiedStep(models: seq<Model>, i: nat)
    requires i < |models|
    ensures UnifiedVertices(models[..i + 1]) == UnifiedVertices(models[..i]) + MeshVertices(models[i])
    ensures UnifiedIndices(models[..i + 1]) == UnifiedIndices(models[..i]) + MeshIndices(models[i])
  {
    var upto := models[..i + 1];
    assert upto[..i] == models[..i];
    PartsPrefix(upto, i);
  }

  /** Grouping a prefix one request longer adds that request's command to its key. */
  lemma GroupPrefixStep(before: seq<DrawRequest>, mine: seq<DrawRequest>, j: nat)
    requires j < |mine|
    ensures Group(before + mine[..j + 1]) == Group(before + mine[..j])[mine[j].key :=
              (if mine[j].key in Group(before + mine[..j]) then Group(before + mine[..j])[mine[j].key] else [])
              + [mine[j].command]]
  {
    assert before + mine[..j + 1] == (before + mine[..j]) + [mine[j]];
    GroupAppend(before + mine[..j], mine[j]);
  }

  lemma GroupAppend(rs: seq<DrawRequest>, r: DrawRequest)
    ensures Group(rs + [r]) == Group(rs)[r.key := (if r.key in Group(rs) then Group(rs)[r.key] else []) + [r.command]]
  {
    assert (rs + [r])[..|rs|] == rs;
  }

  /** Whether buildMaterialBatches gets past its early returns: the uint32 vertex and index totals are non-zero. */
  predicate HasGeometry(models: seq<Model>) {
    U32(VertexSum(models)) != 0 && U32(IndexSum(models)) != 0
  }

  /** An empty list has no geometry; below 2^32 the wrapped totals are the true totals. */
  lemma HasGeometryMeaning(models: seq<Model>)
    ensures |models| == 0 ==> !HasGeometry(models)
    ensures HasGeometry(models) ==> VertexSum(models) > 0 && IndexSum(models) > 0
    ensures IsU32(VertexSum(models)) && IsU32(IndexSum(models)) ==>
              (HasGeometry(models) <==> VertexSum(models) > 0 && IndexSum(models) > 0)
  {
  }

  // ---------------------------------------------------------------------------
  // The scene object

  /** The handles recorded in `handles` for the keys in `keys`. */
  function HandlesAt(handles: map<MaterialKey, Option<Handle>>, keys: set<MaterialKey>): set<Handle> {
    set k | k in keys && k in handles && handles[k].Some? :: handles[k].value
  }

  lemma HandlesAtAdd(handles: map<MaterialKey, Option<Handle>>, keys: set<MaterialKey>, k: MaterialKey)
    requires k in handles
    ensures HandlesAt(handles, keys + {k}) == HandlesAt(handles, keys) + HandleSet(handles[k])
  {
  }

  lemma RemoveTwice(m: map<Handle, BufferInfo>, a: set<Handle>, b: set<Handle>)
    ensures m - a - b == m - (a + b)
  {
  }

  /** A batch whose indirect buffer exists and holds its commands' indirect fields in order. */
  ghost predicate Built(b: MaterialBatch)
    reads b, b.indirectBuffer
  {
    && b.indirectBuffer.buffer.Some?
    && b.indirectBuffer.memory == IndirectCommands(b.drawCommands)
    && b.indirectBuffer.size == INDIRECT_COMMAND_SIZE * |b.drawCommands|
  }

  /** Distinct keys own distinct batches with distinct indirect buffers (the map owns its batches). */
  ghost predicate Separated(batches: map<MaterialKey, MaterialBatch>) {
    forall k1, k2 :: k1 in batches && k2 in batches && k1 != k2 ==>
      batches[k1] != batches[k2] && batches[k1].indirectBuffer != batches[k2].indirectBuffer
  }

  /** Each batch is stored under its own material. */
  ghost predicate Keyed(batches: map<MaterialKey, MaterialBatch>) {
    forall k :: k in batches ==> batches[k].material == k
  }

  class Scene {
    const alloc: Allocator
    /** Whether the scene was given a command buffer, which decides the staging path of its uploads. */
    const hasCommandBuffer: bool
    const materialManager: MaterialManager
    var models: seq<Model>
    /** The one batch map buildMaterialBatches fills; getMaterialBatches and getOpaqueBatches return it. */
    var materialBatches: map<MaterialKey, MaterialBatch>
    var transparentBatches: map<MaterialKey, MaterialBatch>
    const unifiedVertexBuffer: GPUBuffer<Vertex>
    const unifiedIndexBuffer: GPUBuffer<nat>
    var lastVisibleCount: seq<nat>

    /**
     * The scene's invariant. Nothing in the scene fills the transparent
     * map or writes the visible counts, so they keep their initial values.
     */
    ghost predicate Valid()
      reads this, alloc, materialManager
    {
      && alloc.Valid()
      && materialManager.Valid()
      && Separated(materialBatches)
      && Keyed(materialBatches)
      && transparentBatches == map[]
      && lastVisibleCount == [0, 0]
    }

    ghost function BatchObjects(): set<MaterialBatch>
      reads this
    {
      materialBatches.Values
    }

    ghost function IndirectBuffers(): set<GPUBuffer<IndexedIndirectCommand>>
      reads this
    {
      set k | k in materialBatches :: materialBatches[k].indirectBuffer
    }

    /** The commands of every batch, by key. */
    ghost function BatchDraws(): map<MaterialKey, seq<DrawCommand>>
      reads this, materialBatches.Values
    {
      map k | k in materialBatches :: materialBatches[k].drawCommands
    }

    /** The indirect buffer handle of every batch, by key. */
    ghost function BatchHandleMap(): map<MaterialKey, Option<Handle>>
      reads this, IndirectBuffers()
    {
      map k | k in materialBatches :: materialBatches[k].indirectBuffer.buffer
    }

    /** Every batch has its indirect buffer, holding its commands in order. */
    ghost predicate IndirectBuffersBuilt()
      reads this, materialBatches.Values, IndirectBuffers()
    {
      forall k :: k in materialBatches ==> Built(materialBatches[k])
    }

    /** Both unified buffers exist and hold the concatenated arrays. */
    ghost predicate UnifiedBuilt()
      reads this, unifiedVertexBuffer, unifiedIndexBuffer
    {
      && unifiedVertexBuffer.buffer.Some? && unifiedIndexBuffer.buffer.Some?
      && unifiedVertexBuffer.memory == UnifiedVertices(models)
      && unifiedIndexBuffer.memory == UnifiedIndices(models)
      && unifiedVertexBuffer.size == VERTEX_SIZE * VertexSum(models)
      && unifiedIndexBuffer.size == INDEX_SIZE * IndexSum(models)
    }

    constructor(alloc: Allocator, hasCommandBuffer: bool, materialManager: MaterialManager)
      requires alloc.Valid() && materialManager.Valid()
      ensures Valid()
      ensures this.alloc == alloc && this.hasCommandBuffer == hasCommandBuffer && this.materialManager == materialManager
      ensures models == [] && materialBatches == map[]
      ensures fresh(unifiedVertexBuffer) && fresh(unifiedIndexBuffer)
      ensures unifiedVertexBuffer.buffer == None && unifiedIndexBuffer.buffer == None
    {
      this.alloc := alloc;
      this.hasCommandBuffer := hasCommandBuffer;
      this.materialManager := materialManager;
      models := [];
      materialBatches := map[];
      transparentBatches := map[];
      unifiedVertexBuffer := new GPUBuffer<Vertex>();
      unifiedIndexBuffer := new GPUBuffer<nat>();
      lastVisibleCount := [0, 0];
    }

    /** batch.cleanup for every batch of the map, which itself is kept: every indirect buffer handle is freed. */
    method CleanupBatches()
      requires alloc.Valid() && Separated(materialBatches)
      modifies alloc, BatchObjects(), IndirectBuffers()
      ensures alloc.Valid()
      ensures alloc.buffers == old(alloc.buffers) - HandlesAt(old(BatchHandleMap()), materialBatches.Keys)
      ensures alloc.budget == old(alloc.budget)
    {
      ghost var handles := BatchHandleMap();
      ghost var done: set<MaterialKey> := {};
      var remaining := materialBatches.Keys;
      while remaining != {}
        invariant remaining <= materialBatches.Keys && done == materialBatches.Keys - remaining
        invariant alloc.Valid() && alloc.budget == old(alloc.budget)
        invariant forall k :: k in remaining ==> materialBatches[k].indirectBuffer.buffer == handles[k]
        invariant alloc.buffers == old(alloc.buffers) - HandlesAt(handles, done)
        decreases remaining
      {
        var k :| k in remaining;
        var batch := materialBatches[k];
        batch.Cleanup(alloc);
        HandlesAtAdd(handles, done, k);
        RemoveTwice(old(alloc.buffers), HandlesAt(handles, done), HandleSet(handles[k]));
        remaining := remaining - {k};
        done := done + {k};
      }
    }

    /**
     * The teardown that starts both buildMaterialBatches and clear: every
     * batch is cleaned up, the map is emptied and both unified buffers
     * are destroyed, freeing exactly their handles.
     */
    method ClearBatches()
      requires Valid()
      modifies this, alloc, unifiedVertexBuffer, unifiedIndexBuffer, BatchObjects(), IndirectBuffers()
      ensures Valid()
      ensures models == old(models)
      ensures materialBatches == map[]
      ensures unifiedVertexBuffer.buffer == None && unifiedIndexBuffer.buffer == None
      ensures alloc.buffers == old(alloc.buffers) - HandlesAt(old(BatchHandleMap()), old(materialBatches.Keys))
                                                  - HandleSet(old(unifiedVertexBuffer.buffer))
                                                  - HandleSet(old(unifiedIndexBuffer.buffer))
      ensures alloc.budget == old(alloc.budget)
    {
      CleanupBatches();
      materialBatches := map[];
      DestroyUnified();
    }

    /** Both unified buffers destroyed, freeing exactly the handles they held. */
    method DestroyUnified()
      requires alloc.Valid()
      modifies alloc, unifiedVertexBuffer, unifiedIndexBuffer
      ensures alloc.Valid() && alloc.budget == old(alloc.budget)
      ensures unifiedVertexBuffer.buffer == None && unifiedIndexBuffer.buffer == None
      ensures alloc.buffers == old(alloc.buffers) - HandleSet(old(unifiedVertexBuffer.buffer))
                                                  - HandleSet(old(unifiedIndexBuffer.buffer))
    {
      unifiedVertexBuffer.Destroy(alloc);
      unifiedIndexBuffer.Destroy(alloc);
    }

    /**
     * The first loop of buildMaterialBatches: each model with a mesh gets
     * the uint32 running totals of the vertex and index counts before it;
     * the totals themselves wrap around at 2^32.
     */
    method ComputeOffsets() returns (meshOffsets: map<nat, (nat, nat)>, totalVertices: nat, totalIndices: nat)
      ensures forall i :: i in meshOffsets <==> 0 <= i < |models| && models[i].mesh.Some?
      ensures forall i :: i in meshOffsets ==> meshOffsets[i] == OffsetsAfter(models[..i])
      ensures totalVertices == U32(VertexSum(models)) && totalIndices == U32(IndexSum(models))
    {
      var ms := models;
      meshOffsets := map[];
      totalVertices := 0;
      totalIndices := 0;
      var i := 0;
      assert ms[..0] == [];
      while i < |ms|
        invariant 0 <= i <= |ms|
        invariant forall k :: k in meshOffsets <==> 0 <= k < i && ms[k].mesh.Some?
        invariant forall k :: k in meshOffsets ==> meshOffsets[k] == OffsetsAfter(ms[..k])
        invariant (totalVertices, totalIndices) == OffsetsAfter(ms[..i])
      {
        OffsetsNext(ms, i);
        if ms[i].mesh.Some? {
          meshOffsets := meshOffsets[i := (totalVertices, totalIndices)];
          totalVertices := U32(totalVertices + VertexCount(ms[i].mesh.value));
          totalIndices := U32(totalIndices + TotalIndexCount(ms[i].mesh.value));
        }
        i := i + 1;
      }
      assert models[..i] == models;
    }
  
    /** The gathering loop of buildUnifiedBuffers: every mesh's vertices and indices appended in model order. */
    method ConcatenateMeshes() returns (allVertices: seq<Vertex>, allIndices: seq<nat>)
      ensures allVertices == UnifiedVertices(models) && allIndices == UnifiedIndices(models)
      ensures |allVertices| == VertexSum(models) && |allIndices| == IndexSum(models)
    {
      allVertices := [];
      allIndices := [];
      var i := 0;
      assert models[..0] == [];
      while i < |models|
        invariant 0 <= i <= |models|
        invariant allVertices == UnifiedVertices(models[..i]) && allIndices == UnifiedIndices(models[..i])
      {
        UnifiedStep(models, i);
        if models[i].mesh.Some? {
          allVertices := allVertices + models[i].mesh.value.vertices;
          allIndices := allIndices + models[i].mesh.value.indices;
        }
        i := i + 1;
      }
      assert models[..i] == models;
      UnifiedLengths(models);
    }

    /**
     * buildUnifiedBuffers: concatenate every mesh's vertices and indices
     * in model order; when both are non-empty, create a GPU-only vertex
     * buffer and then a GPU-only index buffer holding them, staged when
     * the scene has a command buffer. A failed create propagates.
     */
    method BuildUnifiedBuffers() returns (r: Outcome)
      requires Valid()
      modifies alloc, unifiedVertexBuffer, unifiedIndexBuffer
      ensures Valid()
      ensures |UnifiedVertices(models)| == 0 || |UnifiedIndices(models)| == 0 ==>
                r.Ok? && unchanged(alloc, unifiedVertexBuffer, unifiedIndexBuffer)
      ensures |UnifiedVertices(models)| > 0 && |UnifiedIndices(models)| > 0 ==>
                && (r.Ok? <==> old(alloc.budget) >= 2 * AllocationsNeeded(hasCommandBuffer))
                && (r.Ok? ==> UnifiedBuilt() && alloc.budget == old(alloc.budget) - 2 * AllocationsNeeded(hasCommandBuffer))
    {
      var allVertices, allIndices := ConcatenateMeshes();
      if |allVertices| == 0 || |allIndices| == 0 {
        return Ok;
      }
      r := unifiedVertexBuffer.Create(alloc, VERTEX_SIZE * |allVertices|, {VertexBuffer}, GpuOnly, Some(allVertices),
                                      hasCommandBuffer);
      if r.Fail? {
        return;
      }
      r := unifiedIndexBuffer.Create(alloc, INDEX_SIZE * |allIndices|, {IndexBuffer}, GpuOnly, Some(allIndices),
                                     hasCommandBuffer);
    }

    /** Appending one draw to the batch already stored under `key`: only that key's commands grow. */
    method AppendToBatch(key: MaterialKey, cmd: (MeshId, seq<SubMesh>, nat, (nat, nat)))
      requires Separated(materialBatches) && key in materialBatches
      requires cmd.2 < |cmd.1| && IsU32(cmd.3.0) && IsU32(cmd.3.1)
      modifies materialBatches[key]
      ensures materialBatches[key].material == old(materialBatches[key].material)
      ensures BatchDraws() == old(BatchDraws())[key := old(BatchDraws())[key]
                                                      + [OffsetCommand(cmd.0, cmd.1, cmd.2, Identity(), cmd.3.0, cmd.3.1)]]
    {
      var batch := materialBatches[key];
      batch.AddDrawWithOffsets(cmd.0, cmd.1, cmd.2, Identity(), cmd.3.0, cmd.3.1);
    }

    /** A new, empty batch for `key`, with its own fresh indirect buffer. */
    method CreateBatch(key: MaterialKey)
      requires Separated(materialBatches) && Keyed(materialBatches) && key !in materialBatches
      modifies this
      ensures Separated(materialBatches) && Keyed(materialBatches)
      ensures models == old(models) && transparentBatches == old(transparentBatches)
      ensures lastVisibleCount == old(lastVisibleCount)
      ensures key in materialBatches && fresh(materialBatches[key]) && fresh(materialBatches[key].indirectBuffer)
      ensures materialBatches == old(materialBatches)[key := materialBatches[key]]
      ensures BatchDraws() == old(BatchDraws())[key := []]
    {
      var batch := new MaterialBatch(key);
      materialBatches := materialBatches[key := batch];
    }

    /** One step of the grouping loop: find or create the key's batch and append the submesh's draw to it. */
    method AddSubmeshDraw(key: MaterialKey, mesh: MeshId, subs: seq<SubMesh>, j: nat, offsets: (nat, nat))
      requires Separated(materialBatches) && Keyed(materialBatches)
      requires j < |subs| && IsU32(offsets.0) && IsU32(offsets.1)
      modifies this, BatchObjects()
      ensures Separated(materialBatches) && Keyed(materialBatches)
      ensures models == old(models) && transparentBatches == old(transparentBatches)
      ensures lastVisibleCount == old(lastVisibleCount)
      ensures forall k :: k in materialBatches <==> k in old(materialBatches) || k == key
      ensures forall k :: k in old(materialBatches) ==> materialBatches[k] == old(materialBatches[k])
      ensures key !in old(materialBatches) ==> fresh(materialBatches[key]) && fresh(materialBatches[key].indirectBuffer)
      ensures BatchDraws() == old(BatchDraws())[key := (if key in old(BatchDraws()) then old(BatchDraws())[key] else [])
                                                      + [OffsetCommand(mesh, subs, j, Identity(), offsets.0, offsets.1)]]
    {
      if key !in materialBatches {
        CreateBatch(key);
      }
      AppendToBatch(key, (mesh, subs, j, offsets));
    }

    /**
     * The inner loop of the grouping: model i's submeshes in order, each
     * adding its draw with the model's offsets. Existing batches stay in
     * place; new ones are fresh.
     */
    method GroupModel(i: nat, offsets: (nat, nat), ghost before: seq<DrawRequest>)
      requires i < |models| && IsU32(offsets.0) && IsU32(offsets.1)
      requires materialManager.Valid()
      requires Separated(materialBatches) && Keyed(materialBatches) && BatchDraws() == Group(before)
      modifies this, BatchObjects()
      ensures Separated(materialBatches) && Keyed(materialBatches)
      ensures models == old(models) && transparentBatches == old(transparentBatches)
      ensures lastVisibleCount == old(lastVisibleCount)
      ensures forall k :: k in old(materialBatches) ==> k in materialBatches && materialBatches[k] == old(materialBatches[k])
      ensures forall k :: k in materialBatches && k !in old(materialBatches) ==>
                fresh(materialBatches[k]) && fresh(materialBatches[k].indirectBuffer)
      ensures BatchDraws() == Group(before + ModelRequests(i, models[i], offsets, materialManager.materialNameToIndex))
    {
      ghost var lookup := materialManager.materialNameToIndex;
      ghost var mine := ModelRequests(i, models[i], offsets, lookup);
      var subs := MeshSubmeshes(models[i]);
      var j := 0;
      assert before + mine[..0] == before;
      while j < |subs|
        invariant 0 <= j <= |subs|
        invariant models == old(models) && transparentBatches == old(transparentBatches)
        invariant lastVisibleCount == old(lastVisibleCount)
        invariant Separated(materialBatches) && Keyed(materialBatches)
        invariant forall k :: k in old(materialBatches) ==> k in materialBatches && materialBatches[k] == old(materialBatches[k])
        invariant forall k :: k in materialBatches && k !in old(materialBatches) ==>
                    fresh(materialBatches[k]) && fresh(materialBatches[k].indirectBuffer)
        invariant BatchDraws() == Group(before + mine[..j])
      {
        GroupSubmesh(i, offsets, before, mine, j);
        j := j + 1;
      }
      assert mine[..j] == mine;
    }

    /** One iteration of the inner grouping loop, stated on the request sequence it extends. */
    method GroupSubmesh(i: nat, offsets: (nat, nat), ghost before: seq<DrawRequest>, ghost mine: seq<DrawRequest>, j: nat)
      requires i < |models| && IsU32(offsets.0) && IsU32(offsets.1)
      requires materialManager.Valid()
      requires mine == ModelRequests(i, models[i], offsets, materialManager.materialNameToIndex) && j < |mine|
      requires Separated(materialBatches) && Keyed(materialBatches) && BatchDraws() == Group(before + mine[..j])
      modifies this, BatchObjects()
      ensures Separated(materialBatches) && Keyed(materialBatches)
      ensures models == old(models) && transparentBatches == old(transparentBatches)
      ensures lastVisibleCount == old(lastVisibleCount)
      ensures forall k :: k in old(materialBatches) ==> k in materialBatches && materialBatches[k] == old(materialBatches[k])
      ensures forall k :: k in materialBatches && k !in old(materialBatches) ==>
                fresh(materialBatches[k]) && fresh(materialBatches[k].indirectBuffer)
      ensures BatchDraws() == Group(before + mine[..j + 1])
    {
      var subs := MeshSubmeshes(models[i]);
      var key := materialManager.GetMaterialByName(subs[j].materialName);
      AddSubmeshDraw(key, i, subs, j, offsets);
      assert mine[j] == DrawRequest(key, OffsetCommand(i, subs, j, Identity(), offsets.0, offsets.1));
      GroupPrefixStep(before, mine, j);
    }

    /**
     * The second loop of buildMaterialBatches: every submesh of every
     * model with a mesh adds one draw, shifted by that model's offsets,
     * to the batch of the material its name resolves to; a batch is
     * created on its material's first submesh.
     */
    method GroupSubmeshes(meshOffsets: map<nat, (nat, nat)>)
      requires Valid() && materialBatches == map[]
      requires forall i :: i in meshOffsets <==> 0 <= i < |models| && models[i].mesh.Some?
      requires forall i :: i in meshOffsets ==> meshOffsets[i] == OffsetsAfter(models[..i])
      modifies this
      ensures Valid()
      ensures models == old(models)
      ensures BatchDraws() == Batches(models, materialManager.materialNameToIndex)
      ensures forall k :: k in materialBatches ==> fresh(materialBatches[k]) && fresh(materialBatches[k].indirectBuffer)
    {
      ghost var lookup := materialManager.materialNameToIndex;
      var i := 0;
      assert models[..0] == [];
      while i < |models|
        invariant 0 <= i <= |models|
        invariant models == old(models) && transparentBatches == old(transparentBatches)
        invariant lastVisibleCount == old(lastVisibleCount)
        invariant Separated(materialBatches) && Keyed(materialBatches)
        invariant forall k :: k in materialBatches ==> fresh(materialBatches[k]) && fresh(materialBatches[k].indirectBuffer)
        invariant BatchDraws() == Group(DrawRequests(models[..i], lookup))
      {
        DrawRequestsStep(models, lookup, i);
        if models[i].mesh.Some? {
          GroupModel(i, meshOffsets[i], DrawRequests(models[..i], lookup));
        }
        i := i + 1;
      }
      assert models[..i] == models;
    }

    /**
     * The last loop of buildMaterialBatches: buildIndirectBuffer for every
     * batch, in the map's (unspecified) order; the first failure
     * propagates. Each batch costs one allocation.
     */
    method BuildIndirectBuffers() returns (r: Outcome)
      requires alloc.Valid() && Separated(materialBatches)
      requires forall k :: k in materialBatches ==> |materialBatches[k].drawCommands| > 0
      modifies alloc, IndirectBuffers()
      ensures alloc.Valid()
      ensures r.Ok? <==> old(alloc.budget) >= |materialBatches.Keys|
      ensures r.Ok? ==> IndirectBuffersBuilt() && alloc.budget == old(alloc.budget) - |materialBatches.Keys|
    {
      r := Ok;
      var remaining := materialBatches.Keys;
      while remaining != {}
        invariant remaining <= materialBatches.Keys && r.Ok?
        invariant alloc.Valid() && old(alloc.budget) + |remaining| == alloc.budget + |materialBatches.Keys|
        invariant forall k :: k in materialBatches && k !in remaining ==> Built(materialBatches[k])
        decreases remaining
      {
        var k :| k in remaining;
        r := materialBatches[k].BuildIndirectBuffer(alloc);
        if r.Fail? {
          assert |remaining| >= 1;
          return;
        }
        remaining := remaining - {k};
      }
    }

    /**
     * The grouping and indirect-buffer steps of buildMaterialBatches, once
     * the unified buffers exist: every submesh lands in its material's
     * batch, then each batch costs one allocation for its indirect buffer.
     */
    method GroupAndBuildIndirect(meshOffsets: map<nat, (nat, nat)>) returns (r: Outcome)
      requires Valid() && materialBatches == map[]
      requires forall i :: i in meshOffsets <==> 0 <= i < |models| && models[i].mesh.Some?
      requires forall i :: i in meshOffsets ==> meshOffsets[i] == OffsetsAfter(models[..i])
      modifies this, alloc
      ensures Valid()
      ensures models == old(models)
      ensures r.Ok? <==> old(alloc.budget) >= |Batches(models, materialManager.materialNameToIndex).Keys|
      ensures r.Ok? ==>
                && BatchDraws() == Batches(models, materialManager.materialNameToIndex)
                && IndirectBuffersBuilt()
                && alloc.budget == old(alloc.budget) - |Batches(models, materialManager.materialNameToIndex).Keys|
    {
      GroupSubmeshes(meshOffsets);
      ghost var grouped := BatchDraws();
      assert grouped.Keys == materialBatches.Keys;
      GroupContents(DrawRequests(models, materialManager.materialNameToIndex));
      r := BuildIndirectBuffers();
      assert BatchDraws() == grouped;
    }

    /** buildMaterialBatches after its teardown: the map is empty and neither unified buffer exists. */
    method BuildAfterClear() returns (r: Outcome)
      requires Valid() && materialBatches == map[]
      requires unifiedVertexBuffer.buffer == None && unifiedIndexBuffer.buffer == None
      modifies this, alloc, unifiedVertexBuffer, unifiedIndexBuffer
      ensures Valid()
      ensures models == old(models)
      ensures !HasGeometry(models) ==>
                r.Ok? && materialBatches == map[] && unifiedVertexBuffer.buffer == None && unifiedIndexBuffer.buffer == None
      ensures HasGeometry(models) ==>
                (r.Ok? <==> old(alloc.budget) >= 2 * AllocationsNeeded(hasCommandBuffer)
                                                 + |Batches(models, materialManager.materialNameToIndex).Keys|)
      ensures HasGeometry(models) && r.Ok? ==>
                && BatchDraws() == Batches(models, materialManager.materialNameToIndex)
                && UnifiedBuilt() && IndirectBuffersBuilt()
    {
      if |models| == 0 {
        HasGeometryMeaning(models);
        return Ok;
      }
      var meshOffsets, totalVertices, totalIndices := ComputeOffsets();
      if totalVertices == 0 || totalIndices == 0 {
        return Ok;
      }
      HasGeometryMeaning(models);
      UnifiedLengths(models);
      r := BuildUnifiedBuffers();
      if r.Fail? {
        return;
      }
      r := GroupAndBuildIndirect(meshOffsets);
    }

    /**
     * buildMaterialBatches: tear down the old batches and unified
     * buffers; stop when there are no models or the uint32 totals are
     * zero; otherwise build the unified buffers, group every submesh into
     * the batch of its material and give each batch its indirect buffer.
     */
    method BuildMaterialBatches() returns (r: Outcome)
      requires Valid()
      modifies this, alloc, unifiedVertexBuffer, unifiedIndexBuffer, BatchObjects(), IndirectBuffers()
      ensures Valid()
      ensures models == old(models)
      ensures !HasGeometry(models) ==>
                r.Ok? && materialBatches == map[] && unifiedVertexBuffer.buffer == None && unifiedIndexBuffer.buffer == None
      ensures HasGeometry(models) ==>
                (r.Ok? <==> old(alloc.budget) >= 2 * AllocationsNeeded(hasCommandBuffer)
                                                 + |Batches(models, materialManager.materialNameToIndex).Keys|)
      ensures HasGeometry(models) && r.Ok? ==>
                && BatchDraws() == Batches(models, materialManager.materialNameToIndex)
                && UnifiedBuilt() && IndirectBuffersBuilt()
    {
      ClearBatches();
      r := BuildAfterClear();
    }

    // -------------------------------------------------------------------------
    // The model list

    /**
     * loadModel. `file` is the tokenised `<folder>/<name>.mtl` (None when it
     * cannot be opened) and `mesh` the outcome of loading `<folder>/<name>.obj`
     * (None when it fails); `poolCreated` and `descriptorSets` are the
     * descriptor outcomes of the material reload, which runs first and whose failure
     * is swallowed; a mesh failure propagates with the list unchanged;
     * otherwise the model is appended with the identity transform and the
     * batches are rebuilt, whose failure also propagates.
     */
    method LoadModel(assetFolderPath: string, modelName: string, file: Option<seq<Line>>,
                     created: string -> Option<Texture>, poolCreated: bool, descriptorSets: Option<nat -> Handle>,
                     mesh: Option<MeshData>)
      returns (r: Outcome)
      requires Valid()
      modifies this, alloc, unifiedVertexBuffer, unifiedIndexBuffer, BatchObjects(), IndirectBuffers()
      modifies materialManager, materialManager.textureManager
      ensures Valid()
      ensures file.None? ==> materialManager.materials == [] && materialManager.materialNameToIndex == map[]
      ensures file.Some? ==>
                var p := Parse(StartState([], map[], old(materialManager.textureManager.textureCache)),
                               file.value, assetFolderPath + "/", created);
                && Names(materialManager.materials) == NewmtlNames(file.value)
                && materialManager.materialNameToIndex == p.nameToIndex
                && materialManager.textureManager.textureCache == p.cache
                && |materialManager.materials| == |p.materials|
                && forall i :: 0 <= i < |materialManager.materials| ==>
                     materialManager.materials[i]
                     == p.materials[i].(descriptorSet := if poolCreated && descriptorSets.Some? then Some(descriptorSets.value(i)) else None)
      ensures mesh.None? ==> r.Fail? && models == old(models) && materialBatches == old(materialBatches)
      ensures mesh.Some? ==>
                && models == old(models) + [Model(mesh, modelName, assetFolderPath, [], Identity())]
                && (HasGeometry(models) && r.Ok? ==>
                      && BatchDraws() == Batches(models, materialManager.materialNameToIndex)
                      && UnifiedBuilt() && IndirectBuffersBuilt())
                && (!HasGeometry(models) ==> r.Ok? && materialBatches == map[])
                && (HasGeometry(models) ==>
                      (r.Ok? <==> old(alloc.budget) >= 2 * AllocationsNeeded(hasCommandBuffer)
                                                       + |Batches(models, materialManager.materialNameToIndex).Keys|))
    {
      var ignored := materialManager.LoadMaterialsFromFile(assetFolderPath + "/" + modelName + ".mtl", file,
                                                          assetFolderPath + "/", created, poolCreated, descriptorSets);
      if mesh.None? {
        return Fail("Failed to load mesh");
      }
      var model := Model(mesh, modelName, assetFolderPath, [], Identity());
      models := models + [model];
      r := BuildMaterialBatches();
    }

    /** clear: tear down the batches and unified buffers, then drop every model. */
    method Clear()
      requires Valid()
      modifies this, alloc, unifiedVertexBuffer, unifiedIndexBuffer, BatchObjects(), IndirectBuffers()
      ensures Valid()
      ensures models == [] && materialBatches == map[]
      ensures unifiedVertexBuffer.buffer == None && unifiedIndexBuffer.buffer == None
      ensures alloc.buffers == old(alloc.buffers) - HandlesAt(old(BatchHandleMap()), old(materialBatches.Keys))
                                                  - HandleSet(old(unifiedVertexBuffer.buffer))
                                                  - HandleSet(old(unifiedIndexBuffer.buffer))
      ensures alloc.budget == old(alloc.budget)
    {
      ClearBatches();
      models := [];
    }

    /**
     * removeModel: the first model with that name is erased and the
     * batches rebuilt (removed is true); with no such model nothing changes.
     */
    method RemoveModel(modelName: string) returns (removed: bool, r: Outcome)
      requires Valid()
      modifies this, alloc, unifiedVertexBuffer, unifiedIndexBuffer, BatchObjects(), IndirectBuffers()
      ensures Valid()
      ensures removed <==> FindModel(old(models), modelName).Some?
      ensures !removed ==>
                r.Ok? && models == old(models) && materialBatches == old(materialBatches)
                && BatchDraws() == old(BatchDraws()) && BatchHandleMap() == old(BatchHandleMap())
                && unifiedVertexBuffer.buffer == old(unifiedVertexBuffer.buffer)
                && unifiedIndexBuffer.buffer == old(unifiedIndexBuffer.buffer)
                && alloc.buffers == old(alloc.buffers) && alloc.budget == old(alloc.budget)
      ensures removed ==>
                var i := FindModel(old(models), modelName).value;
                && models == old(models)[..i] + old(models)[i + 1..]
                && (HasGeometry(models) && r.Ok? ==>
                      && BatchDraws() == Batches(models, materialManager.materialNameToIndex)
                      && UnifiedBuilt() && IndirectBuffersBuilt())
                && (!HasGeometry(models) ==> r.Ok? && materialBatches == map[])
                && (HasGeometry(models) ==>
                      (r.Ok? <==> old(alloc.budget) >= 2 * AllocationsNeeded(hasCommandBuffer)
                                                       + |Batches(models, materialManager.materialNameToIndex).Keys|))
    {
      var i := 0;
      while i < |models|
        invariant 0 <= i <= |models|
        invariant forall j :: 0 <= j < i ==> models[j].name != modelName
      {
        if models[i].name == modelName {
          models := models[..i] + models[i + 1..];
          r := BuildMaterialBatches();
          return true, r;
        }
        i := i + 1;
      }
      return false, Ok;
    }

    /** isModelLoaded: whether some model has that name. */
    function IsModelLoaded(modelName: string): (r: bool)
      reads this
      ensures r <==> exists i :: 0 <= i < |models| && models[i].name == modelName
    {
      FindModel(models, modelName).Some?
    }

    function GetModelCount(): (r: nat)
      reads this
      ensures r == |models|
    {
      |models|
    }

    /** getModel: null past the end, otherwise the model at that index. */
    function GetModel(index: nat): (r: Option<Model>)
      reads this
      ensures r.Some? <==> index < |models|
      ensures r.Some? ==> r.value == models[index]
    {
      if index >= |models| then None else Some(models[index])
    }

    // -------------------------------------------------------------------------
    // Drawing and the inline getters

    /**
     * One batch of drawAll, given the batch's commands and the material
     * list its key points into: the material's set and constants when it
     * has a descriptor set, then each draw.
     */
    method DrawBatch(cb: CommandList, layout: Handle, key: MaterialKey, draws: seq<DrawCommand>, materials: seq<Material>)
      modifies cb
      ensures cb.cmds == old(cb.cmds) + BatchTrace(layout, key, draws, materials)
    {
      if HasDescriptorSet(key, materials) {
        cb.Record(BindDescriptorSet(layout, 1, materials[key.value].descriptorSet.value));
        cb.Record(PushMaterialConstants(layout, key.value));
      }
      var j := 0;
      while j < |draws|
        invariant 0 <= j <= |draws|
        invariant cb.cmds == old(cb.cmds) + BatchTrace(layout, key, draws[..j], materials)
      {
        assert draws[..j + 1][..j] == draws[..j];
        cb.Record(BindMesh(draws[j].mesh));
        cb.Record(DrawSubmesh(draws[j].mesh, draws[j].submeshIndex));
        j := j + 1;
      }
      assert draws[..j] == draws;
    }

    /** The loop of drawAll over a snapshot of the batches' commands: each visited key's batch in turn. */
    method DrawInOrder(cb: CommandList, layout: Handle, order: seq<MaterialKey>,
                       draws: map<MaterialKey, seq<DrawCommand>>, materials: seq<Material>)
      modifies cb
      ensures cb.cmds == old(cb.cmds) + DrawAllTrace(layout, order, draws, materials)
    {
      var i := 0;
      while i < |order|
        invariant 0 <= i <= |order|
        invariant cb.cmds == old(cb.cmds) + DrawAllTrace(layout, order[..i], draws, materials)
      {
        ghost var done := DrawAllTrace(layout, order[..i], draws, materials);
        ghost var next := BatchTrace(layout, order[i], DrawsOf(draws, order[i]), materials);
        DrawAllTraceStep(layout, order, draws, materials, i);
        DrawBatch(cb, layout, order[i], DrawsOf(draws, order[i]), materials);
        AppendAssociates(old(cb.cmds), done, next);
        assert cb.cmds == old(cb.cmds) + (done + next);
        i := i + 1;
      }
      assert order[..i] == order;
    }

    /**
     * drawAll over the batch map in the iteration order `order` (which
     * the hash map leaves unspecified): every batch in turn.
     */
    method DrawAll(cb: CommandList, layout: Handle, order: seq<MaterialKey>)
      requires EnumeratesKeys(order, materialBatches.Keys)
      modifies cb
      ensures cb.cmds == old(cb.cmds) + DrawAllTrace(layout, order, BatchDraws(), materialManager.materials)
    {
      var batches := materialBatches;
      var draws := map k | k in batches :: batches[k].drawCommands;
      DrawInOrder(cb, layout, order, draws, materialManager.materials);
      assert draws == BatchDraws();
    }

    /** bindUnifiedBuffers: nothing without the unified vertex buffer, else bind both buffers at offset 0. */
    method BindUnifiedBuffers(cb: CommandList)
      modifies cb
      ensures !HasUnifiedBuffers() ==> cb.cmds == old(cb.cmds)
      ensures HasUnifiedBuffers() ==>
                cb.cmds == old(cb.cmds) + [BindVertexBuffer(unifiedVertexBuffer.buffer),
                                           BindIndexBuffer(unifiedIndexBuffer.buffer)]
    {
      if unifiedVertexBuffer.buffer.None? {
        return;
      }
      cb.Record(BindVertexBuffer(unifiedVertexBuffer.buffer));
      cb.Record(BindIndexBuffer(unifiedIndexBuffer.buffer));
    }

    /** hasUnifiedBuffers: the unified vertex buffer exists; so after a successful build with geometry. */
    predicate HasUnifiedBuffers()
      reads this, unifiedVertexBuffer
    {
      unifiedVertexBuffer.buffer.Some?
    }

    /** getMaterialBatches and getOpaqueBatches both return the one map the build fills. */
    function GetMaterialBatches(): (r: map<MaterialKey, MaterialBatch>)
      reads this
      ensures r.Keys == BatchDraws().Keys
      ensures forall k :: k in r ==> r[k] in BatchObjects()
    {
      materialBatches
    }

    /** hasTransparentObjects: the transparent map is non-empty, which never holds since nothing fills it. */
    function HasTransparentObjects(): (r: bool)
      reads this, alloc, materialManager
      ensures r <==> transparentBatches != map[]
      ensures Valid() ==> !r
    {
      transparentBatches != map[]
    }

    /** getVisibleCount: frame slot f of the counts, which nothing writes after their initial zeros. */
    function GetVisibleCount(frameIndex: nat): (r: nat)
      reads this, alloc, materialManager
      requires frameIndex < MAX_FRAMES_IN_FLIGHT && |lastVisibleCount| == MAX_FRAMES_IN_FLIGHT
      ensures r == lastVisibleCount[frameIndex]
      ensures Valid() ==> r == 0
    {
      lastVisibleCount[frameIndex]
    }
  }
}
