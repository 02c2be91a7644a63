# A verified model of the gathas deferred renderer's core

This project models the logic underneath the Vulkan calls of the gathas
deferred renderer. That logic covers:

- how the scene turns its models into one unified vertex and index array and
  material batches of indexed-indirect draws;
- how those batches are recorded into the four render passes of a frame;
- how frames rotate over the frames in flight;
- the view-frustum test;
- the caches, parsers and small state machines around them.

The model proves properties about each of these. Every Vulkan, VMA, GLFW,
ImGui and stb call is either an abstract handle or an opaque command
appended to a trace. When a call can fail, its outcome is a parameter of the
operation that makes it. VMA allocation is the exception: its outcome follows
the allocator's budget of successful allocations (see `GpuBuffers.Allocator`
under "## Left out").

One Dafny module per source area:

- `Scenes` (scene.dfy): the `Scene` class covers `buildMaterialBatches`,
  `buildUnifiedBuffers`, `loadModel`, `removeModel`, `clear`, the lookups,
  `drawAll` and `bindUnifiedBuffers`. Each build step is proved against
  specification functions over the list of models: the per-model offsets, the
  concatenated arrays and the batches.
- `IndirectDrawing` (indirect.dfy): a `MaterialBatch` with `addDraw`,
  `addDrawWithOffsets`, `buildIndirectBuffer` and `cleanup`.
- `GpuBuffers` (gpubuffer.dfy): `GPUBuffer::create`, with its staging and
  direct paths, plus `copyBuffer` and `destroy`. The `Allocator` class
  stands for VMA.
- `FrustumCulling` (frustum.dfy) and `BoundingBox` (aabb.dfy): plane
  extraction, the positive-vertex box test and its conservativeness, the
  transformed-box test, and box construction from vertices.
- `FrameRecording` (commands.dfy) over `GpuCommands` (gpucommands.dfy):
  - `recordFrame` and its four passes, each stated as the trace it appends;
  - the command-buffer, semaphore and fence creation.
- `ApplicationCore` (application.dfy): the queue-family scan, the
  physical-device choice, the unique queue families, and the acquire,
  submit and present handling of `drawFrame`.
- `SwapChains` (swapchain.dfy): the surface format, present mode, extent and
  image-count rules, and the image views and framebuffers.
- `Materials` (materials.dfy): the Wavefront MTL parser over tokenised lines
  and the material lookups.
- `Textures` (textures.dfy): the texture cache, the layout-transition table,
  the default texture and cleanup.
- `Shaders` (shaders.dfy): the shader-module memo.
- `Meshes` (mesh.dfy): the constant cube tables and the `Mesh` object's
  `createCube`, `destroy` and `draw`.
- `DebugDrawing` (debugdraw.dfy): the line-vertex list and the growth policy
  of its vertex buffer.
- `ConsoleLog` (console.dfy): the bounded console log.
- `CameraControl` (camera.dfy): cursor capture, mouse look and keyboard
  movement.
- Shared modules: `LinearAlgebra` (vecmath.dfy) holds exact-real vectors and
  matrices, `VertexLayout` (vertex.dfy) the vertex record, and `Wrappers`
  (wrappers.dfy) covers `Option`, `Outcome`, `Result`, uint32 arithmetic and
  hash-map iteration orders.

A C++ exception is an `Outcome`/`Result` failure that carries the message
the source throws. In the glm-based parts, floats are exact reals.

## Model

| member | source | states |
|---|---|---|
| BoundingBox.ReferencedPositions | src/ui/primitives/aabb.cpp:18-20 | one position per index of the submesh's range, read through the index buffer |
| BoundingBox.Positions | src/ui/primitives/aabb.cpp:38-41 | the vertex positions, one per vertex, in order |
| BoundingBox.ZeroBox | src/ui/primitives/aabb.hpp:13 | the default-constructed box, min = max = (0, 0, 0) |
| BoundingBox.BoundsOf | src/ui/primitives/aabb.cpp:15-26 | the left fold of glm::min and glm::max from the first point; BoundsOfTight proves it is the tight box |
| BoundingBox.Center | src/ui/primitives/aabb.hpp:16 | getCenter: (min + max) × 0.5; CenterExtents states its meaning |
| BoundingBox.Extents | src/ui/primitives/aabb.hpp:17 | getExtents: (max - min) × 0.5; CenterExtents states its meaning |
| BoundingBox.CenterExtents | src/ui/primitives/aabb.hpp:16-17 | centre minus extents is `min` and centre plus extents is `max` |
| BoundingBox.TightBoundsUnique | src/ui/primitives/aabb.cpp:15-26 | two boxes that both enclose a point list and attain each of their six bounds are equal |
| BoundingBox.AccumulateStep | src/ui/primitives/aabb.cpp:22-23 | one glm::min/glm::max step turns the tight box of a prefix into the tight box of the prefix one longer |
| BoundingBox.BoundsOfTight | src/ui/primitives/aabb.cpp:18-24 | the min/max accumulation over a non-empty list encloses every point and attains every bound |
| BoundingBox.BoundsOfPrefixStep | src/ui/primitives/aabb.cpp:18-24 | accumulating over a prefix one longer is one more min/max step |
| BoundingBox.ComputeFromSubmesh | src/ui/primitives/aabb.cpp:5-27 | the zero box when the index count is 0 or there are no vertices; otherwise the tight box of the positions the index range refers to |
| BoundingBox.ComputeFromVertices | src/ui/primitives/aabb.cpp:29-44 | the zero box for an empty vertex list; otherwise the tight box of all positions |
| FrustumCulling.PlanesOf | src/renderer/frustum.cpp:5-16 | six planes, indexed by side, each the sum or difference of row 3 with row 0, 1 or 2 as Gribb-Hartmann extraction prescribes |
| FrustumCulling.Corners | src/renderer/frustum.cpp:53-62 | eight corners, in the order of the source's corner table |
| FrustumCulling.PVertex | src/renderer/frustum.cpp:35-39 | the positive vertex: per axis, the box's max when the normal's component is non-negative, else its min; PVertexMaximises states its meaning |
| FrustumCulling.PlaneAdmits | src/renderer/frustum.cpp:35-43 | one plane's test at the positive vertex; PlaneAdmitsExact proves it rejects exactly the boxes wholly behind the plane |
| FrustumCulling.Visible | src/renderer/frustum.cpp:31-46 | testAABB's answer: every plane admits the box; Frustum.TestAABB is proved against it |
| FrustumCulling.WorldBox | src/renderer/frustum.cpp:52-73 | the bounds of the eight transformed corners; WorldBoxEnclosesImage proves it encloses the image of the whole box |
| FrustumCulling.TransformedCorners | src/renderer/frustum.cpp:67-68 | corner k's image under the model matrix, for each of the eight corners |
| FrustumCulling.PVertexMaximises | src/renderer/frustum.cpp:35-39 | over a box, the plane distance is largest at the positive vertex |
| FrustumCulling.PlaneAdmitsExact | src/renderer/frustum.cpp:35-43 | the positive vertex lies in the box; a plane rejects a non-empty box exactly when every point of the box is behind it |
| FrustumCulling.VisibleIfPointInside | src/renderer/frustum.cpp:31-46 | a box holding a point that is on the non-negative side of every plane is never culled |
| FrustumCulling.ScalingPreservesTest | src/renderer/frustum.cpp:18-28 | scaling each plane by a positive factor, as normalisation does, does not change the box test |
| FrustumCulling.CornerAt | src/renderer/frustum.cpp:53-62 | the corner table holds every max/min choice of the three coordinates |
| FrustumCulling.RowBound | src/renderer/frustum.cpp:67-71 | along one affine coordinate, a point of the box lies between the values at two corners |
| FrustumCulling.WorldBoxEnclosesImage | src/renderer/frustum.cpp:48-73 | the world box encloses the image of every point of the local box, not only of its corners |
| FrustumCulling.AxisEnclosed | src/renderer/frustum.cpp:67-71 | along each axis, the image of a box point lies between the world box's bounds on that axis |
| FrustumCulling.CornerCoord | src/renderer/frustum.cpp:68 | each coordinate of a transformed corner is its matrix row's plane equation at the corner |
| FrustumCulling.TransformAsPlanes | src/renderer/frustum.cpp:68 | a transformed point's coordinates are the three rows' plane equations at the point |
| FrustumCulling.TransformedTestConservative | src/renderer/frustum.cpp:48-75 | an object with a local point whose image is inside every plane is never culled by the transformed test |
| FrustumCulling.PlanesOfClipMeaning | src/renderer/frustum.cpp:11-16 | a point is inside all six extracted planes iff its clip coordinates satisfy -w <= x, y, z <= w |
| FrustumCulling.DistanceOfSum | src/renderer/frustum.cpp:11-16 | the plane equation of a sum of rows is the sum of their plane equations |
| FrustumCulling.DistanceOfDifference | src/renderer/frustum.cpp:11-16 | the plane equation of a difference of rows is the difference of their plane equations |
| FrustumCulling.Frustum.constructor | src/renderer/frustum.hpp:12 | six planes with zero normal and zero distance |
| FrustumCulling.Frustum.ExtractFromViewProj | src/renderer/frustum.cpp:5-29 | the planes become the extracted planes of the matrix |
| FrustumCulling.Frustum.TestAABB | src/renderer/frustum.cpp:31-46 | true iff every plane admits the box at its positive vertex; false names a rejecting plane |
| FrustumCulling.Frustum.TestAABBTransformed | src/renderer/frustum.cpp:52-75 | the box test applied to the bounds of the eight transformed corners |
| GpuBuffers.Allocator.constructor | src/renderer/gpubuffer.cpp:11-13 | an allocator with no live buffers and the given budget of successful allocations |
| GpuBuffers.Allocator.CreateBuffer | src/renderer/gpubuffer.cpp:74-77 | with budget left, a fresh handle that was not live, recorded with its create info; with none, no handle and nothing changes |
| GpuBuffers.Allocator.DestroyBuffer | src/renderer/gpubuffer.cpp:104 | the handle is no longer live; every other buffer and the budget stay |
| GpuBuffers.NeedsStaging | src/renderer/gpubuffer.cpp:17-19 | the staging path is taken only for initial data bound for GPU-only memory with a command buffer to copy through |
| GpuBuffers.DestinationUsage | src/renderer/gpubuffer.cpp:44-68 | the destination's usage: the caller's usage plus TRANSFER_DST when staged, the caller's usage alone otherwise |
| GpuBuffers.AllocationsNeeded | src/renderer/gpubuffer.cpp:21-77 | two vmaCreateBuffer calls on the staging path, one otherwise |
| GpuBuffers.GPUBuffer.constructor | src/renderer/gpubuffer.cpp:5-7 | a null buffer of size 0 |
| GpuBuffers.GPUBuffer.CopyBuffer | src/renderer/gpubuffer.cpp:88-100 | the destination's contents become the source's; handle and size stay |
| GpuBuffers.GPUBuffer.Create | src/renderer/gpubuffer.cpp:11-86 | `size` is recorded; staging is taken iff there is data, GPU-only memory and a command buffer; success iff the allocator can make the one or two allocations that path needs; a success adds one fresh live buffer with the destination usage (gaining TRANSFER_DST when staged) and holds the data; a failure adds no live buffer, keeps the contents and carries "failed to create buffer" on the direct path, "failed to create staging buffer" when the staging allocation fails and "failed to create GPU buffer" when the destination allocation fails |
| GpuBuffers.GPUBuffer.Destroy | src/renderer/gpubuffer.cpp:102-109 | a live buffer is freed and handle and size reset; a null buffer is left alone |
| GpuBuffers.DestroyTwice | src/renderer/gpubuffer.cpp:102-109 | destroy is idempotent: a second call frees nothing more |
| IndirectDrawing.OffsetCommand | src/renderer/indirectdrawing.cpp:10-22 | index count from the submesh, one instance from instance 0, firstIndex the uint32 sum of the local and global index offsets, vertexOffset the int32 cast of the global vertex offset (the same value below 2^31), and mesh, submesh and matrix carried |
| IndirectDrawing.IndirectCommands | src/renderer/indirectdrawing.cpp:33-38 | one indirect command per draw command, in order |
| IndirectDrawing.MaterialBatch.constructor | src/renderer/indirectdrawing.hpp:28 | a batch for the material with no commands and a null indirect buffer |
| IndirectDrawing.MaterialBatch.AddDrawWithOffsets | src/renderer/indirectdrawing.cpp:10-25 | one command appended, built from the submesh and the offsets; earlier commands unchanged |
| IndirectDrawing.MaterialBatch.AddDraw | src/renderer/indirectdrawing.cpp:6-8 | addDrawWithOffsets with zero offsets: firstIndex is the submesh's own offset and vertexOffset is 0 |
| IndirectDrawing.MaterialBatch.BuildIndirectBuffer | src/renderer/indirectdrawing.cpp:27-50 | an empty batch changes nothing; otherwise the buffer's size is 20 bytes per command and it fails iff the allocator is exhausted, leaving no buffer; on success exactly one new live buffer is added, with usage {INDIRECT} only and CPU-to-GPU memory (the direct path, no staging copy), holding the commands' indirect parts in order, and the budget drops by one |
| IndirectDrawing.MaterialBatch.Cleanup | src/renderer/indirectdrawing.cpp:52-55 | no commands and a null buffer afterwards; a live buffer is freed |
| Meshes.CubeTableSizes | src/renderer/mesh.cpp:11-66 | 24 cube vertices and 36 cube indices |
| Meshes.CubeIndicesInRange | src/renderer/mesh.cpp:51-66 | every cube index addresses the vertex table |
| Meshes.CubeFacePattern | src/renderer/mesh.cpp:51-66 | the index table is six faces in order, face k being 4k, 4k+1, 4k+2, 4k+2, 4k+3, 4k |
| Meshes.CubeFacesFlat | src/renderer/mesh.cpp:11-49 | the four vertices of each face share one normal and one colour |
| Meshes.CubeTriangles | src/renderer/mesh.cpp:11-66 | the index count is a whole number of triangles and no face has a zero normal |
| Meshes.CubeVertices | src/renderer/mesh.cpp:11-49 | generateCubeVertices' table; CubeTableSizes and CubeFacesFlat state it |
| Meshes.CubeIndices | src/renderer/mesh.cpp:51-66 | generateCubeIndices' table; CubeIndicesInRange, CubeFacePattern and CubeTriangles state it |
| Meshes.Mesh.constructor | src/renderer/mesh.cpp:5-6 | indexCount 0 and two null buffers |
| Meshes.Mesh.CreateCube | src/renderer/mesh.cpp:68-88 | indexCount becomes 36; on success the vertex and index buffers are live, sized sizeof(Vertex)·24 and 4·36 bytes, and hold the cube tables; success iff the allocator affords both GPU-only creates |
| Meshes.Mesh.Destroy | src/renderer/mesh.cpp:90-94 | both buffers null and indexCount 0; exactly the allocations of the two buffers are freed and the budget is kept |
| Meshes.Mesh.Draw | src/renderer/mesh.cpp:103-105 | exactly one indexed draw of indexCount indices, one instance, zero offsets, appended |
| Materials.Names | src/renderer/materialmanager.cpp:102-103 | one name per material, in list order |
| Materials.Token | src/renderer/materialmanager.cpp:110-118 | the k-th whitespace token of a line, the empty string once the line is exhausted, as `iss >> token` yields |
| Materials.FreshMaterial | src/renderer/materialmanager.cpp:120-124 | the material a `newmtl` line opens: its name, no texture, no descriptor set, zero colour, hasTexture false |
| Materials.Finalize | src/renderer/materialmanager.cpp:96-106 | the finalizeMaterial closure on the parser's state; FinalizeProperties and FinalizeKeepsIndex state what it does |
| Materials.Step | src/renderer/materialmanager.cpp:110-140 | one iteration of the line loop; StepProperties, IgnoredLinesChangeNothing, MapKdLastWins and MapKdBeforeNewmtlIgnored state what it does |
| Materials.Steps | src/renderer/materialmanager.cpp:109-141 | the line loop over a whole file; StepsProperties and StepsTrackTextures state what it does |
| Materials.Parse | src/renderer/materialmanager.cpp:109-143 | the loop then the final finalizeMaterial; ParseFromEmpty and ParseTextures state its result |
| Materials.FinalizeProperties | src/renderer/materialmanager.cpp:96-106 | finalizeMaterial keeps the material invariants, appends exactly the open material's name (nothing when none is open), closes it, and leaves earlier materials and the texture cache untouched |
| Materials.FinalizeKeepsIndex | src/renderer/materialmanager.cpp:97-104 | storing the open material under its name at the list's end keeps the name index sound and complete |
| Materials.StepProperties | src/renderer/materialmanager.cpp:109-141 | one line keeps the invariants, adds exactly the token after `newmtl` to the names output or opened, and never alters stored materials |
| Materials.StepsProperties | src/renderer/materialmanager.cpp:109-141 | the line loop keeps the invariants and outputs the `newmtl` names in file order, earlier output untouched |
| Materials.ParseFromEmpty | src/renderer/materialmanager.cpp:75-150 | after clearing, one material per `newmtl` line, named by its token, in file order; the index is sound and complete; every material has a texture (ParseTextures says which), hasTexture false and no descriptor set |
| Materials.IndexDesignatesLast | src/renderer/materialmanager.cpp:102 | when a name repeats, the index does not designate the earlier material |
| Materials.IgnoredLinesChangeNothing | src/renderer/materialmanager.cpp:137-140 | a line that is neither `newmtl` nor an applicable `map_Kd` changes no parser state |
| Materials.MapKdLastWins | src/renderer/materialmanager.cpp:128-135 | of two `map_Kd` lines for one material the second sets the texture |
| Materials.MapKdBeforeNewmtlIgnored | src/renderer/materialmanager.cpp:128 | a `map_Kd` before any `newmtl` is ignored |
| Materials.StepsExtend | src/renderer/materialmanager.cpp:109-141 | the loop over a prefix plus one line is the prefix's state stepped once |
| Materials.NewmtlAt | src/renderer/materialmanager.cpp:114 | the positions of the `newmtl` lines, in order, each in range and each a `newmtl` line |
| Materials.LastMapKd | src/renderer/materialmanager.cpp:128-134 | the last `map_Kd` line of a range, with no `map_Kd` line after it in the range; None exactly when the range holds no `map_Kd` line |
| Materials.LastMapKdAgree | src/renderer/materialmanager.cpp:128-134 | the last `map_Kd` line below a position depends only on the lines below it |
| Materials.SectionEnd | src/renderer/materialmanager.cpp:114-115 | where material i's section ends: at the next `newmtl` line, which finalizes it, or at the end of the file |
| Materials.MapKdTexture | src/renderer/materialmanager.cpp:129-134 | the texture a `map_Kd` line yields: loadTexture of the base path followed by its path token |
| Materials.SectionTexture | src/renderer/materialmanager.cpp:96-134 | the reference definition of material i's texture: the default texture when no `map_Kd` line lies in its section, otherwise what the last one there yields |
| Materials.OpenTexture | src/renderer/materialmanager.cpp:120-134 | the open material's texture so far: none until a `map_Kd` line of its section, then what the last such line yields |
| Materials.SectionTextureExtend | src/renderer/materialmanager.cpp:109-141 | one more line of the file leaves the section texture of every closed section unchanged |
| Materials.StoredSectionsExtend | src/renderer/materialmanager.cpp:109-141 | one more line keeps every stored material's texture equal to its section's |
| Materials.CloseSection | src/renderer/materialmanager.cpp:96-115 | a `newmtl` line ends the open section: the material it stores has that section's texture, the default one when it had none |
| Materials.NewmtlTracksTextures | src/renderer/materialmanager.cpp:114-124 | a `newmtl` line keeps every stored texture equal to its section's and opens a section with no texture |
| Materials.OtherLineTracksTextures | src/renderer/materialmanager.cpp:128-140 | any other line keeps the stored textures; a `map_Kd` line in a section sets the open texture to what loadTexture returns, whatever the cache held before |
| Materials.StepsTrackTextures | src/renderer/materialmanager.cpp:109-141 | across the whole loop from a cleared start, each stored material has its section's texture and the open one its section's texture so far |
| Materials.ParseTextures | src/renderer/materialmanager.cpp:75-150 | after clearing, material i has the default texture when no `map_Kd` line falls in its section, otherwise the texture of the section's last `map_Kd` line (cached, newly created, or the default when creation fails) |
| Materials.ExampleStep | src/renderer/materialmanager.cpp:109-141 | each line of a six-line example file moves the parser to the next expected state; one worked input, illustrating StepsProperties, ParseFromEmpty and ParseTextures |
| Materials.ExampleFileLoop | src/renderer/materialmanager.cpp:109-141 | the loop over the example file ends in the expected state; one worked input, illustrating StepsProperties, ParseFromEmpty and ParseTextures |
| Materials.ExampleFile | src/renderer/materialmanager.cpp:87-150 | two materials from the example: A's second `map_Kd` wins, B gets the default texture, ignored lines change nothing, and the cache gains both of A's paths; one worked input, illustrating StepsProperties, ParseFromEmpty and ParseTextures |
| Materials.MaterialManager.constructor | src/renderer/materialmanager.cpp:7-14 | no materials and an empty name index |
| Materials.MaterialManager.GetMaterial | src/renderer/materialmanager.cpp:60-65 | null exactly past the end, otherwise the material at that index |
| Materials.MaterialManager.GetMaterialByName | src/renderer/materialmanager.cpp:67-73 | null exactly for an unindexed name, otherwise a material with that name |
| Materials.MaterialManager.FinalizeMaterial | src/renderer/materialmanager.cpp:96-106 | the manager's list and index become those of finalizeMaterial on the open material |
| Materials.MaterialManager.ParseMtlFile | src/renderer/materialmanager.cpp:87-150 | a file that cannot be opened throws "Failed to open MTL file: " and its path, changing nothing; otherwise the list, index and texture cache become the parser's result, appended to the current list |
| Materials.MaterialManager.LoadMaterialsFromFile | src/renderer/materialmanager.cpp:75-85 | the list is cleared and re-parsed: names are the `newmtl` names; success iff the list is empty or both the descriptor pool and the sets are created, each failure with its own message; on success material i gets set i, otherwise none; an unopenable file throws with the list empty |
| Textures.DefaultPixelsFillImage | src/renderer/texturemanager.cpp:75-81 | the default image's byte size (1 × 1 × 4) is exactly its pixel array, and every pixel byte fits a byte |
| Textures.LoadProperties | src/renderer/texturemanager.cpp:219-236 | the cache only grows; a returned cache reference is valid; a hit returns the cached texture and changes nothing; a created texture is what the reference then designates; a failure returns the default texture and leaves the cache as it was |
| Textures.LoadThenReload | src/renderer/texturemanager.cpp:219-236 | after a successful load the same path always hits, whatever creation would now yield; after a failure the path is still absent |
| Textures.Load | src/renderer/texturemanager.cpp:219-236 | loadTexture on values: a hit returns the cached path; a miss caches what creation yields; a failed creation returns the default texture and leaves the cache; LoadProperties and LoadThenReload state it |
| Textures.Deref | src/renderer/texturemanager.cpp:215-236 | the texture a returned reference designates: the cached texture of its path, or the default texture |
| Textures.Resolved | src/renderer/texturemanager.cpp:219-236 | what loading a path yields relative to the cache a run of loads started from: the path when it was cached or its creation succeeds, the default texture otherwise |
| Textures.LoadResolves | src/renderer/texturemanager.cpp:219-236 | after any earlier loads, a load returns what Resolved names and the cache has only gained created paths |
| Textures.TextureHandles | src/renderer/texturemanager.cpp:26-32 | a texture's non-null handles in the order cleanup destroys them: the view, then the image |
| Textures.CacheHandles | src/renderer/texturemanager.cpp:25-33 | the handles the cleanup loop destroys, visiting the keys in order, at most two per texture |
| Textures.CacheHandlesCover | src/renderer/texturemanager.cpp:25-33 | every non-null handle of every visited texture is among the handles the loop destroys |
| Textures.TransitionBarrier | src/renderer/texturemanager.cpp:400-417 | a barrier exactly for UNDEFINED→TRANSFER_DST and TRANSFER_DST→SHADER_READ_ONLY, with the source's access masks and stages; invalid_argument for every other pair |
| Textures.UploadBarriersChain | src/renderer/texturemanager.cpp:403-414 | the second upload barrier waits on exactly the access and stage the first made available, and the first waits on nothing |
| Textures.TextureManager.constructor | src/renderer/texturemanager.cpp:10-20 | an empty cache, the sampler, and a 1×1 default texture with the created image and view |
| Textures.TextureManager.GetDefaultTexture | src/renderer/texturemanager.cpp:215-217 | the reference to the default texture |
| Textures.TextureManager.LoadTexture | src/renderer/texturemanager.cpp:219-236 | cache and result are those of the cache-or-create-or-default rule; the default texture, sampler and destroyed handles unchanged |
| Textures.TextureManager.DestroyTexture | src/renderer/texturemanager.cpp:26-32 | destroys the texture's non-null view, then its non-null image; nothing else changes |
| Textures.TextureManager.DestroyDefaultTexture | src/renderer/texturemanager.cpp:36-44 | destroys the default texture's non-null view then image and nulls both; cache and sampler unchanged |
| Textures.TextureManager.Cleanup | src/renderer/texturemanager.cpp:24-49 | the destroyed handles grow by exactly: each cached texture's non-null view then image, visiting the cache in the map's order, then the default texture's view and image, then the sampler; the cache is emptied and the default texture's handles and the sampler nulled |
| Textures.CleanupTwice | src/renderer/texturemanager.cpp:24-49 | a second cleanup destroys nothing: after both, the destroyed handles are exactly those the first cleanup appended |
| Shaders.GetProperties | src/renderer/shadermanager.cpp:13-29 | a hit reads nothing and changes nothing; a miss reads only "shaders/" + name; a failure leaves the cache as it was; a success caches the module under the bare name and keeps every other entry |
| Shaders.GetTwice | src/renderer/shadermanager.cpp:13-29 | after a success, a second call with the same name returns the same module, reads no file and leaves the cache as it was |
| Shaders.Get | src/renderer/shadermanager.cpp:13-29 | getShaderModule on values: a hit returns the cached module and reads nothing; a miss reads "shaders/" + name and caches the created module; an unreadable file or a failed creation throws; GetProperties and GetTwice state it |
| Shaders.Modules | src/renderer/shadermanager.cpp:32-34 | the cached modules in the visiting order, one per key |
| Shaders.ShaderManager.constructor | src/renderer/shadermanager.cpp:6-7 | an empty cache, nothing read, nothing destroyed |
| Shaders.ShaderManager.GetShaderModule | src/renderer/shadermanager.cpp:13-29 | cache, result and files read are those of the memo rule; nothing destroyed |
| Shaders.ShaderManager.Cleanup | src/renderer/shadermanager.cpp:31-37 | every cached module destroyed exactly once, in the map's visiting order; cache emptied |
| Shaders.CleanupTwice | src/renderer/shadermanager.cpp:9-11 | the destructor's cleanup after an explicit one destroys nothing more |
| Scenes.ConcatLayout | src/core/scene.cpp:209-210 | element k of part i of a concatenation sits at the total length of the parts before i, plus k |
| Scenes.OffsetsStep | src/core/scene.cpp:154-160 | the running totals after model i are the totals before it plus its vertex and index counts, wrapped to uint32 at every step |
| Scenes.OffsetsNext | src/core/scene.cpp:155-159 | a model without a mesh leaves the running offsets unchanged; one with a mesh adds its counts |
| Scenes.UnifiedVertexLayout | src/core/scene.cpp:203-210 | the unified vertex array is as long as all vertices together, and vertex k of model i sits at the vertex count of the models before it, plus k |
| Scenes.UnifiedIndexLayout | src/core/scene.cpp:203-210 | the same layout for the unified index array |
| Scenes.UnifiedVertices | src/core/scene.cpp:203-210 | allVertices: every mesh's vertices in model order; UnifiedVertexLayout and UnifiedLengths state its layout |
| Scenes.UnifiedIndices | src/core/scene.cpp:203-210 | allIndices: every mesh's indices, unshifted, in model order; UnifiedIndexLayout and UnifiedLengths state its layout |
| Scenes.OffsetsAfter | src/core/scene.cpp:145-160 | the uint32 running totals of the vertex and index counts of the earlier models that have a mesh; OffsetsStep and OffsetsNext state it |
| Scenes.UnifiedLengths | src/core/scene.cpp:203-211 | the unified arrays' lengths are the sums of the models' vertex and index counts |
| Scenes.ModelRequests | src/core/scene.cpp:174-188 | one draw request per submesh of the model |
| Scenes.DrawRequestsStep | src/core/scene.cpp:169-189 | extending the model prefix by one model appends exactly that model's draws; a model without a mesh adds none |
| Scenes.DrawRequestsCount | src/core/scene.cpp:169-189 | there are as many draw requests as submeshes over all models |
| Scenes.DrawRequestsPrefix | src/core/scene.cpp:169-189 | the draws of a model prefix are a prefix of all draws |
| Scenes.DrawRequestsOfModel | src/core/scene.cpp:169-189 | model i's draws occupy one contiguous stretch after the earlier models' submeshes, built with model i's offsets |
| Scenes.DrawRequests | src/core/scene.cpp:169-189 | every submesh's draw, in model order then submesh order; DrawRequestsCount, DrawRequestsPrefix and DrawRequestsOfModel state it |
| Scenes.Group | src/core/scene.cpp:176-187 | the batches: each draw appended to its material's batch, created on its first draw; GroupContents and GroupTotal state it |
| Scenes.Batches | src/core/scene.cpp:169-189 | the batches of a full build; BatchesCoverSubmeshes states that they hold one draw per submesh |
| Scenes.GroupContents | src/core/scene.cpp:176-187 | a batch exists exactly for the keys some submesh resolved to (null included), holding that key's draws in submesh order, so none is empty |
| Scenes.TotalOverRemove | src/core/scene.cpp:191-193 | the total draw count over a set of batches does not depend on the order keys are taken |
| Scenes.TotalDrawsAppend | src/core/scene.cpp:186-187 | appending one draw to one batch adds one to the total |
| Scenes.GroupTotal | src/core/scene.cpp:169-189 | every draw lands in exactly one batch: the batches hold as many draws as there were requests |
| Scenes.BatchesCoverSubmeshes | src/core/scene.cpp:169-189 | a build's batches hold as many draws as there are submeshes |
| Scenes.SecondModelOffsets | src/core/scene.cpp:151-160 | model A with 300 vertices and 600 indices followed by B: B's draws have vertexOffset 300 and firstIndex its local offset + 600; one worked input, illustrating OffsetsNext |
| Scenes.FindModel | src/core/scene.cpp:100-101 | Some exactly when a model has the name, and then the first one such |
| Scenes.MaterialBindTrace | src/core/scene.cpp:55-70 | binding a material records no draw |
| Scenes.HasDescriptorSet | src/core/scene.cpp:55 | a batch key designates a material that has a descriptor set; see "## Left out" for keys a reload leaves behind |
| Scenes.BatchTrace | src/core/scene.cpp:55-77 | one batch's commands: the material's set and constants when it has a descriptor set, then each draw; BatchTraceDraws states its draws |
| Scenes.DrawAllTrace | src/core/scene.cpp:54-78 | each batch's commands in visiting order; DrawAllTraceStep, DrawAllDraws and DrawAllCoversSubmeshes state it |
| Scenes.BatchTraceDraws | src/core/scene.cpp:72-77 | one batch of drawAll issues one submesh draw per command |
| Scenes.SumAlongTotal | src/core/scene.cpp:54 | summing batch sizes along any enumeration of the keys gives the total |
| Scenes.DrawAllTraceStep | src/core/scene.cpp:54-78 | visiting one more key appends that key's batch trace |
| Scenes.DrawAllDraws | src/core/scene.cpp:54-78 | drawAll issues one draw per command of every batch it visits |
| Scenes.DrawAllCoversSubmeshes | src/core/scene.cpp:52-79 | drawing a full build over any iteration order issues exactly one draw per submesh |
| Scenes.UnifiedStep | src/core/scene.cpp:203-211 | gathering one more model appends exactly its vertices and indices |
| Scenes.GroupPrefixStep | src/core/scene.cpp:176-187 | grouping one more request appends its command to its key's batch |
| Scenes.GroupAppend | src/core/scene.cpp:178-187 | find-or-create then append: the key's batch grows by one command, the others stay |
| Scenes.HasGeometryMeaning | src/core/scene.cpp:140-143 | an empty model list has no geometry; geometry means non-zero true totals; below 2^32 the wrapped totals are the true ones |
| Scenes.HasGeometry | src/core/scene.cpp:140-143 | buildMaterialBatches gets past its early returns: the uint32 vertex and index totals are non-zero; HasGeometryMeaning states it |
| Scenes.Scene.constructor | src/core/scene.cpp:5-12 | no models, no batches, two null unified buffers |
| Scenes.Scene.CleanupBatches | src/core/scene.cpp:133-135 | every batch's indirect buffer handle is freed and nothing else |
| Scenes.Scene.ClearBatches | src/core/scene.cpp:133-138 | every batch cleaned up, the map emptied, both unified buffers destroyed, freeing exactly those handles; models kept |
| Scenes.Scene.DestroyUnified | src/core/scene.cpp:137-138 | both unified buffers null, freeing exactly the handles they held |
| Scenes.Scene.ComputeOffsets | src/core/scene.cpp:145-160 | exactly the models with a mesh get offsets, each the uint32 running totals of the earlier models; the totals are the wrapped sums |
| Scenes.Scene.ConcatenateMeshes | src/core/scene.cpp:200-211 | the concatenation of every mesh's vertices and indices in model order, of the summed lengths |
| Scenes.Scene.BuildUnifiedBuffers | src/core/scene.cpp:199-231 | nothing when either array is empty; otherwise success iff both GPU-only creates are affordable, and then both buffers hold the concatenated arrays |
| Scenes.Scene.AppendToBatch | src/core/scene.cpp:186-187 | only the key's batch gains one command |
| Scenes.Scene.CreateBatch | src/core/scene.cpp:178-184 | a fresh empty batch under the key; the others stay |
| Scenes.Scene.AddSubmeshDraw | src/core/scene.cpp:175-187 | the key gains a batch if it had none, and its batch gains the submesh's draw; the other batches stay |
| Scenes.Scene.GroupModel | src/core/scene.cpp:174-188 | the batches become the grouping of the earlier draws plus this model's draws |
| Scenes.Scene.GroupSubmesh | src/core/scene.cpp:175-187 | one more of the model's draws is grouped |
| Scenes.Scene.GroupSubmeshes | src/core/scene.cpp:169-189 | from no batches, the batches become the grouping of every submesh of every model by material |
| Scenes.Scene.BuildIndirectBuffers | src/core/scene.cpp:191-193 | success iff the allocator affords one buffer per batch; then every batch's indirect buffer holds its commands |
| Scenes.Scene.GroupAndBuildIndirect | src/core/scene.cpp:169-193 | grouped batches, then success iff one allocation per batch is affordable |
| Scenes.Scene.BuildAfterClear | src/core/scene.cpp:140-197 | without geometry nothing is built; otherwise success iff unified and indirect buffers are affordable, and then the batches are the full grouping and every buffer is built |
| Scenes.Scene.BuildMaterialBatches | src/core/scene.cpp:132-197 | teardown first; no batches and no unified buffers without geometry; otherwise success iff the allocations are affordable, and then the batches are the grouping of every submesh and all buffers hold their contents |
| Scenes.Scene.LoadModel | src/core/scene.cpp:18-50 | materials reloaded first, their failure swallowed: the names are the file's `newmtl` names, the index and texture cache those of the parse, and material i gets descriptor set i exactly when pool and sets are created; a mesh failure propagates with the list unchanged; otherwise the model is appended with identity transform and the batches rebuilt, succeeding with geometry iff the allocations are affordable |
| Scenes.Scene.Clear | src/core/scene.cpp:81-97 | no models, no batches, both unified buffers null; exactly the batch and unified handles are freed; the budget is kept |
| Scenes.Scene.RemoveModel | src/core/scene.cpp:99-114 | true iff a model has the name; then the first such is erased and the batches rebuilt, succeeding with geometry iff the allocations are affordable; otherwise the models, the batches and their draws, both unified buffers, the live allocations and the budget are unchanged |
| Scenes.Scene.IsModelLoaded | src/core/scene.cpp:116-123 | true iff some model has the name |
| Scenes.Scene.GetModelCount | src/core/scene.hpp:50 | the number of models |
| Scenes.Scene.GetModel | src/core/scene.cpp:125-130 | null exactly past the end, otherwise the model at the index |
| Scenes.Scene.DrawBatch | src/core/scene.cpp:55-77 | the material's set at slot 1 and its constants only when it has a descriptor set, then one bind and draw per command |
| Scenes.Scene.DrawInOrder | src/core/scene.cpp:54-78 | each visited key's batch trace, in the visiting order |
| Scenes.Scene.DrawAll | src/core/scene.cpp:52-79 | the trace of every batch, in the map's iteration order |
| Scenes.Scene.BindUnifiedBuffers | src/core/scene.cpp:233-242 | nothing without a unified vertex buffer; otherwise bind the vertex then the index buffer |
| Scenes.Scene.GetMaterialBatches | src/core/scene.hpp:53-59 | the batch map the build fills, one batch per key |
| Scenes.Scene.HasTransparentObjects | src/core/scene.hpp:65 | true iff the transparent map is non-empty, which never holds since nothing fills it |
| Scenes.Scene.GetVisibleCount | src/core/scene.hpp:76 | frame slot f of the visible counts, which stay 0 |
| FrameRecording.Target | src/renderer/commandbuffer.cpp:84-97 | a pass begins on the given render pass, on the framebuffer of the acquired image, over the whole extent, with the given clear values |
| FrameRecording.PassIsOnePass | src/renderer/commandbuffer.cpp:99-161 | a body without pass or command-buffer boundaries, bracketed by begin and end, is exactly one render pass on its target |
| FrameRecording.NoBoundaryOccurrences | src/renderer/commandbuffer.cpp:99-161 | commands without boundaries contain no end-of-pass and no command-buffer begin or end |
| FrameRecording.OnePassCounts | src/renderer/commandbuffer.cpp:99-161 | a single render pass ends exactly once and holds no command-buffer boundary |
| FrameRecording.ViewsOf | src/renderer/commandbuffer.cpp:122-124 | the batches visited in map order: one per key, each with that key's number of draw commands and its indirect buffer |
| FrameRecording.IndirectDraw | src/renderer/commandbuffer.cpp:150-156 | vkCmdDrawIndexedIndirect of a batch: its indirect buffer at offset 0, its command count, stride 20; DrawIfNonEmptyCounts states that it consumes exactly the batch's commands |
| FrameRecording.DrawIfNonEmpty | src/renderer/commandbuffer.cpp:148-157 | one indexed-indirect draw when the batch has commands, nothing when it is empty |
| FrameRecording.ViewTotalAlong | src/renderer/commandbuffer.cpp:122-157 | the batches' command counts, in visiting order, add up to the sizes of the batch map's command lists |
| FrameRecording.MaterialBindCommands | src/renderer/commandbuffer.cpp:125-146 | binding a material issues two commands (its set at slot 1 and its push constants) when it has a descriptor set and none otherwise, and draws nothing |
| FrameRecording.DrawIfNonEmptyCounts | src/renderer/commandbuffer.cpp:149-157 | a batch's draw step issues one draw when it has commands, and that draw consumes exactly its commands |
| FrameRecording.BatchCommandsInside | src/renderer/commandbuffer.cpp:124-158 | the batch loop opens or closes no pass and rebinds no vertex or index buffer |
| FrameRecording.BatchOccurrences | src/renderer/commandbuffer.cpp:124-158 | a command that is not a material binding or an indirect draw never appears in the batch loop |
| FrameRecording.GeometryBatchesTrace | src/renderer/commandbuffer.cpp:124-158 | the opaque batch loop's commands: per batch in visiting order, its material binding, then its indirect draw when it has commands; GeometryBatchesCounts and CommandBuffer.RecordGeometryBatches state it |
| FrameRecording.GeometryBatchesCounts | src/renderer/commandbuffer.cpp:124-158 | the opaque batch loop issues one draw per non-empty batch, its draws consume every batch command, and it issues nothing but bindings and draws |
| FrameRecording.GeometryPassProperties | src/renderer/commandbuffer.cpp:79-162 | the geometry pass is one render pass; without a usable scene it draws nothing; with one it binds the unified vertex and index buffers once each and its draws consume every batch command |
| FrameRecording.GeometryPassIsOnePass | src/renderer/commandbuffer.cpp:99-161 | the geometry pass begins and ends one render pass with no other boundary in between |
| FrameRecording.GeometryPassCounts | src/renderer/commandbuffer.cpp:99-161 | the pass's draws and buffer binds are those of its scene part |
| FrameRecording.GeometryPassBinds | src/renderer/commandbuffer.cpp:118-120 | the unified buffers are bound in the geometry pass as often as in its scene part |
| FrameRecording.GeometrySceneTrace | src/renderer/commandbuffer.cpp:118-159 | the scene part of the geometry pass: nothing without a usable scene, else the two unified-buffer binds then the batch loop; GeometrySceneProperties and CommandBuffer.RecordGeometryScene state it |
| FrameRecording.GeometrySceneProperties | src/renderer/commandbuffer.cpp:118-158 | the scene part binds the vertex and index buffers once each before the batch loop |
| FrameRecording.GeometryPreamble | src/renderer/commandbuffer.cpp:100-116 | the pipeline, the camera set at slot 0, and viewport and scissor over the whole extent |
| FrameRecording.GeometryPassTrace | src/renderer/commandbuffer.cpp:79-162 | recordGeometryPass's commands; GeometryPassProperties, GeometryPassCounts and GeometryPassBinds state them |
| FrameRecording.LightingPassProperties | src/renderer/commandbuffer.cpp:164-210 | the lighting pass is one render pass with exactly one draw (3 vertices, 1 instance), after the camera, G-buffer and light sets at slots 0, 1 and 2 |
| FrameRecording.LightingPassIsOnePass | src/renderer/commandbuffer.cpp:183-209 | the lighting pass begins and ends one render pass with no other boundary in between |
| FrameRecording.LightingPassCounts | src/renderer/commandbuffer.cpp:207 | the lighting pass issues exactly one draw, the full-screen triangle |
| FrameRecording.LightingSetup | src/renderer/commandbuffer.cpp:184-205 | the pipeline, the camera, G-buffer and light sets at slots 0, 1 and 2, then viewport and scissor |
| FrameRecording.LightingPassTrace | src/renderer/commandbuffer.cpp:164-210 | recordLightingPass's commands; LightingPassProperties and LightingPassCounts state them |
| FrameRecording.ForwardBatchesTrace | src/renderer/commandbuffer.cpp:262-295 | the transparent batch loop's commands: only batches whose material has a descriptor set bind it and draw when non-empty; ForwardBatchesCounts and CommandBuffer.RecordForwardBatches state it |
| FrameRecording.ForwardBatchesCounts | src/renderer/commandbuffer.cpp:262-295 | the transparent batch loop draws exactly the non-empty batches whose material has a descriptor set, issuing nothing but bindings and draws |
| FrameRecording.ForwardPassProperties | src/renderer/commandbuffer.cpp:212-299 | the forward pass is one render pass; without transparent work it is the bare begin and end; otherwise it draws exactly the drawable sorted batches |
| FrameRecording.ForwardPassIsOnePass | src/renderer/commandbuffer.cpp:228-298 | the forward pass begins and ends one render pass with no other boundary in between |
| FrameRecording.ForwardPassCounts | src/renderer/commandbuffer.cpp:231-296 | with transparent work, the forward pass's draw count is the number of drawable sorted batches |
| FrameRecording.ForwardSetup | src/renderer/commandbuffer.cpp:232-257 | the pipeline, the camera set at slot 0 and the light set at slot 2, viewport and scissor, then the unified buffers |
| FrameRecording.ForwardPassTrace | src/renderer/commandbuffer.cpp:212-299 | recordForwardPass's commands; ForwardPassProperties and ForwardPassCounts state them |
| FrameRecording.OverlayPassProperties | src/renderer/commandbuffer.cpp:301-322 | the overlay pass is one render pass and calls the overlay's render exactly when there is a layer |
| FrameRecording.OverlayPassTrace | src/renderer/commandbuffer.cpp:301-322 | recordImGuiPass's commands; OverlayPassProperties states them |
| FrameRecording.FrameProperties | src/renderer/commandbuffer.cpp:324-364 | a frame of four render passes begins and ends the command buffer once each, at its two ends, ends exactly four passes, and its draws are the passes' draws |
| FrameRecording.FrameBoundaries | src/renderer/commandbuffer.cpp:342-363 | a frame records one command-buffer begin, one end and four ends of pass |
| FrameRecording.FrameDraws | src/renderer/commandbuffer.cpp:346-359 | the frame's draws are the sum of the four passes' draws |
| FrameRecording.FrameTrace | src/renderer/commandbuffer.cpp:342-363 | recordFrame's commands: begin, the four passes, end; FrameProperties, FrameBoundaries and FrameDraws state them |
| FrameRecording.RecordOutcome | src/renderer/commandbuffer.cpp:342-363 | recordFrame's outcome: Ok iff both begin and end succeed; a failed begin throws "failed to begin recording command buffer!", a failed end "failed to record command buffer!" |
| FrameRecording.ValidSceneForwardEmpty | src/core/scene.hpp:65 | a scene whose transparent batch list is empty gives the forward pass nothing to draw |
| FrameRecording.GeometryCoversSubmeshes | src/renderer/commandbuffer.cpp:118-158 | whatever the batch map's iteration order, the geometry pass's indirect draws consume exactly one command per submesh of the grouped models |
| FrameRecording.SlotsBefore | src/renderer/commandbuffer.cpp:69-75 | the number of leading frame slots whose three creations all succeed, stopping at the first slot that fails |
| FrameRecording.Semaphores | src/renderer/commandbuffer.cpp:58-59 | a vector of MAX_FRAMES_IN_FLIGHT semaphores, the created handle in each filled slot and null after |
| FrameRecording.Fences | src/renderer/commandbuffer.cpp:60-72 | a vector of MAX_FRAMES_IN_FLIGHT fences, each filled slot's fence created signalled, null after |
| FrameRecording.SlotsBeforeFailure | src/renderer/commandbuffer.cpp:70-74 | once a slot fails after all earlier ones succeeded, no later slot is filled |
| FrameRecording.SlotStep | src/renderer/commandbuffer.cpp:69-75 | filling slot i after i filled slots gives the vectors for i + 1 filled slots |
| FrameRecording.AllSlotsFilled | src/renderer/commandbuffer.cpp:69-75 | when every slot succeeds, every semaphore and fence is non-null and every fence is signalled |
| FrameRecording.CommandBuffer.constructor | src/renderer/commandbuffer.cpp:10 | a command-buffer object with a null pool and empty vectors |
| FrameRecording.CommandBuffer.CreateCommandPool | src/renderer/commandbuffer.cpp:30-40 | succeeds exactly when the pool is created, failing with "failed to create command pool!", and changes nothing but the pool |
| FrameRecording.CommandBuffer.CreateCommandBuffers | src/renderer/commandbuffer.cpp:42-55 | MAX_FRAMES_IN_FLIGHT buffers; on success each holds the allocated handle, on failure "failed to allocate command buffers!" and all null; nothing else changes |
| FrameRecording.CommandBuffer.CreateSyncObjects | src/renderer/commandbuffer.cpp:57-77 | slots are filled in order until the first failed creation, which throws "failed to create synchronization objects!" leaving that slot's earlier semaphores in place; success iff every slot is filled |
| FrameRecording.CommandBuffer.Create | src/renderer/commandbuffer.cpp:9-17 | succeeds exactly when the pool, the buffers and every slot are created, and then every buffer, semaphore and fence is non-null and every fence signalled |
| FrameRecording.CommandBuffer.BindMaterial | src/renderer/commandbuffer.cpp:125-146 | appends the material's set and push constants when it has a descriptor set |
| FrameRecording.CommandBuffer.DrawBatchIndirect | src/renderer/commandbuffer.cpp:149-157 | appends the batch's indirect draw when it has commands |
| FrameRecording.CommandBuffer.RecordGeometryBatches | src/renderer/commandbuffer.cpp:124-158 | the loop appends exactly the opaque batch trace |
| FrameRecording.CommandBuffer.RecordForwardBatches | src/renderer/commandbuffer.cpp:262-295 | the loop appends exactly the transparent batch trace |
| FrameRecording.SceneDrawOf | src/renderer/commandbuffer.cpp:118-124 | what the passes read of a scene: its unified buffers, its batches in the visiting order and its materials; ReadGeometryDraw and GeometryCoversSubmeshes state it |
| FrameRecording.GeometryDrawOf | src/renderer/commandbuffer.cpp:118 | the geometry pass's scene draw: present exactly for a non-null scene with unified buffers; CommandBuffer.ReadGeometryDraw states it |
| FrameRecording.ForwardDrawOf | src/renderer/commandbuffer.cpp:231-260 | the forward pass's scene draw: present exactly for a non-null scene with transparent objects and unified buffers; CommandBuffer.ReadForwardDraw and ValidSceneForwardEmpty state it |
| FrameRecording.CommandBuffer.ReadGeometryDraw | src/renderer/commandbuffer.cpp:118-122 | reads the scene's unified buffers and batches exactly when the scene is non-null and has unified buffers |
| FrameRecording.CommandBuffer.ReadForwardDraw | src/renderer/commandbuffer.cpp:231-260 | reads the scene's buffers and sorted batches exactly when the scene is non-null, has transparent objects and has unified buffers |
| FrameRecording.CommandBuffer.RecordGeometry | src/renderer/commandbuffer.cpp:99-161 | appends exactly the geometry pass trace for the scene read |
| FrameRecording.CommandBuffer.RecordGeometryScene | src/renderer/commandbuffer.cpp:118-159 | appends the unified-buffer binds and the batch loop, or nothing |
| FrameRecording.CommandBuffer.RecordGeometryPass | src/renderer/commandbuffer.cpp:79-162 | appends exactly the geometry pass trace for the acquired image's framebuffer and the scene, beginning with three clear values: two opaque black colours and depth 1.0, stencil 0 |
| FrameRecording.CommandBuffer.RecordLightingPass | src/renderer/commandbuffer.cpp:164-210 | appends exactly the lighting pass trace for the acquired image's framebuffer, beginning with one clear value, opaque black |
| FrameRecording.CommandBuffer.RecordForward | src/renderer/commandbuffer.cpp:228-298 | appends exactly the forward pass trace for the scene read |
| FrameRecording.CommandBuffer.RecordForwardPass | src/renderer/commandbuffer.cpp:212-299 | appends exactly the forward pass trace for the acquired image's framebuffer and the scene, beginning with no clear values |
| FrameRecording.CommandBuffer.RecordOverlayPass | src/renderer/commandbuffer.cpp:301-322 | appends exactly the overlay pass trace for the acquired image's framebuffer, beginning with no clear values |
| FrameRecording.CommandBuffer.RecordPasses | src/renderer/commandbuffer.cpp:342-363 | appends begin, the four passes in order, and end |
| FrameRecording.CommandBuffer.RecordFrame | src/renderer/commandbuffer.cpp:324-364 | a failed begin throws with nothing recorded; otherwise the whole frame trace is recorded and the result fails exactly when ending the buffer fails; the outcome is RecordOutcome's |
| GpuCommands.CommandList.Record | src/renderer/commandbuffer.cpp:99 | recording a command appends it to the buffer's trace |
| ApplicationCore.LastSupporting | src/core/application.cpp:137-146 | the last family with the capability, no later family having it; none exactly when no family has it |
| ApplicationCore.ScanFrom | src/core/application.cpp:136-153 | the scan visits families in order and stops right after the first one at which both indices are set, or at the end of the list |
| ApplicationCore.SuitableIffCapable | src/core/application.cpp:121-125 | a device is suitable exactly when some family supports graphics and some family can present: the early stop loses nothing |
| ApplicationCore.QueueFamiliesFacts | src/core/application.cpp:136-153 | each index found is a visited family with that capability and no later visited family has it; an unset index means no visited family has it |
| ApplicationCore.IndicesStep | src/core/application.cpp:137-146 | visiting family i sets each index to i if the family has that capability and otherwise keeps it |
| ApplicationCore.Indices | src/core/application.cpp:137-146 | the indices after scanning some families: the last one supporting graphics and the last one supporting present; IndicesStep states it |
| ApplicationCore.QueueFamiliesOf | src/core/application.cpp:127-156 | findQueueFamilies' result: the indices when the scan stops, at the first complete prefix or the end; QueueFamiliesFacts states it |
| ApplicationCore.Suitable | src/core/application.cpp:121-125 | isDeviceSuitable: the scan found both families; SuitableIffCapable states when |
| ApplicationCore.FindQueueFamilies | src/core/application.cpp:127-156 | the loop returns the indices of the families up to the early stop, and they are complete exactly when the device has both capabilities |
| ApplicationCore.IsDeviceSuitable | src/core/application.cpp:121-125 | a device is suitable exactly when it has a graphics-capable family and a present-capable family |
| ApplicationCore.UniqueFamilies | src/core/application.cpp:162-165 | the set {graphics, present} in ascending order: one element when they coincide, two otherwise |
| ApplicationCore.QueueCreateInfos | src/core/application.cpp:159-176 | one entry per distinct family, ascending, each with one queue at priority 1.0; an unset index throws bad optional access |
| ApplicationCore.DrawFrameStep | src/core/application.cpp:269-365 | the slot advances modulo MAX_FRAMES_IN_FLIGHT exactly when an image was acquired and the frame, recording included, completed normally; the resize flag is never raised |
| ApplicationCore.AcquireFailureTouchesNothing | src/core/application.cpp:279-285 | a failed acquire resets no fence and submits nothing, and leaves the slot and the flag; out of date recreates and returns normally, any other error throws |
| ApplicationCore.RecordingFailureSubmitsNothing | src/core/application.cpp:286-322 | after an acquire and the fence reset, a recording failure stops the frame after recordFrame with its message: nothing is submitted or presented, and the slot and the flag stay |
| ApplicationCore.AcquiredFrameIsSubmitted | src/core/application.cpp:286-341 | after an acquire and a successful recording, the slot's fence is reset, the frame recorded and then submitted on the same slot, and no other step resets or submits; a failed submit throws and nothing is presented |
| ApplicationCore.SubmittedIffRecorded | src/core/application.cpp:286-341 | after an acquire, the frame is submitted exactly when recording it succeeded |
| ApplicationCore.PresentHandling | src/core/application.cpp:354-362 | out of date, suboptimal or a pending resize recreates the swap chain and clears the flag; any other present error throws unless a resize is pending |
| ApplicationCore.FrameSlotStaysInRange | src/core/application.cpp:364 | the slot stays below MAX_FRAMES_IN_FLIGHT, and only an out-of-date acquire returns normally without advancing it |
| ApplicationCore.Application.constructor | src/core/application.hpp:35-48 | no device chosen, slot 0, no pending resize |
| ApplicationCore.Application.PickPhysicalDevice | src/core/application.cpp:94-119 | no devices throws; otherwise the first suitable device in enumeration order is chosen; with none suitable the unset handle throws "failed to find a suitable gpu" |
| ApplicationCore.Application.FramebufferResizeCallback | src/core/application.cpp:414-417 | raises the resize flag and changes nothing else |
| ApplicationCore.Application.DrawFrame | src/core/application.cpp:269-365 | appends exactly the steps of the frame step function, including the stop after a failed recording, and takes its outcome, slot and flag; the slot stays in range |
| SwapChains.ChooseSwapSurfaceFormat | src/renderer/swapchain.cpp:128-136 | the preferred BGRA8 sRGB / sRGB non-linear format when it is offered, otherwise the first format offered |
| SwapChains.ChooseSwapPresentMode | src/renderer/swapchain.cpp:138-146 | mailbox exactly when mailbox is offered, otherwise FIFO |
| SwapChains.FormatFor | src/renderer/swapchain.cpp:128-136 | the preferred format when it is offered, otherwise the first one; ChooseSwapSurfaceFormat's scan is proved against it |
| SwapChains.PresentModeFor | src/renderer/swapchain.cpp:138-146 | mailbox when it is offered, otherwise FIFO; ChooseSwapPresentMode's scan is proved against it |
| SwapChains.Clamp | src/renderer/swapchain.cpp:161-166 | std::clamp for lo <= hi: inside the range, the value itself when already inside, and always one of value, lower or upper bound |
| SwapChains.ChooseSwapExtent | src/renderer/swapchain.cpp:148-170 | the surface's current extent unless its width is UINT32_MAX; then each axis is the framebuffer size cast to uint32_t or one of the bounds |
| SwapChains.ChosenExtentInRange | src/renderer/swapchain.cpp:152-169 | when the window decides and the range is well formed, the extent lies in [minImageExtent, maxImageExtent] on both axes, and a size already in range is kept |
| SwapChains.ImageCountBounds | src/renderer/swapchain.cpp:33-39 | the count is minImageCount + 1, capped at maxImageCount only when the surface has a maximum, so a well-formed range contains it |
| SwapChains.ImageCount | src/renderer/swapchain.cpp:33-39 | minImageCount + 1 in uint32_t arithmetic, capped at maxImageCount only when that is non-zero; ImageCountBounds states its range |
| SwapChains.RequestFor | src/renderer/swapchain.cpp:27-59 | the count, format, extent and present mode createSwapChain puts into its create info |
| SwapChains.Attempts | src/renderer/swapchain.cpp:80-102 | one answer per creation request, each the creation call's answer to that request |
| SwapChains.CreatedPrefix | src/renderer/swapchain.cpp:80-102 | the number of creations that succeed before the first failure |
| SwapChains.Resized | src/renderer/swapchain.cpp:78 | std::vector::resize: the kept prefix of the old contents, new slots null |
| SwapChains.Filled | src/renderer/swapchain.cpp:80-102 | the loop's vector after k stores: the first k results, the resized contents after them |
| SwapChains.SwapChain.constructor | src/renderer/swapchain.cpp:7-8 | no swap chain, no images, views or framebuffers |
| SwapChains.SwapChain.ViewRequests | src/renderer/swapchain.cpp:80-97 | one 2D colour view request per swap-chain image, in the swap chain's format, in image order |
| SwapChains.SwapChain.FramebufferRequests | src/renderer/swapchain.cpp:175-188 | one framebuffer request per view, with attachments [view, depth], the swap-chain extent and one layer |
| SwapChains.SwapChain.CreateSwapChain | src/renderer/swapchain.cpp:25-75 | asks for the chosen format, mode, extent and count; a failed creation throws "failed to create swap chain" and changes nothing; on success keeps the driver's images, format and extent |
| SwapChains.SwapChain.CreateImageViews | src/renderer/swapchain.cpp:77-103 | one view per image stored slot by slot; the first failure throws "failed to create image views" leaving the earlier views; success means every image has its view |
| SwapChains.SwapChain.CreateFramebuffers | src/renderer/swapchain.cpp:172-196 | one framebuffer per view stored slot by slot; the first failure throws "failed to create framebuffer"; success means every view has its framebuffer |
| SwapChains.SwapChain.Create | src/renderer/swapchain.cpp:7-11 | success iff the swap chain and every image's view are created; a failed swap-chain creation throws "failed to create swap chain" and changes nothing; otherwise the handle, the driver's images, the chosen format and extent are kept and the views filled slot by slot up to the first failure, which throws "failed to create image views"; on success slot i holds the view of image i |
| DebugDrawing.Face | src/ui/primitives/debugdraw.cpp:45-55 | a face of the box is four lines, eight vertices, all on box corners and parallel to an axis |
| DebugDrawing.Line | src/ui/primitives/debugdraw.cpp:39-42 | the two vertices a line appends, both in its colour |
| DebugDrawing.Verticals | src/ui/primitives/debugdraw.cpp:57-61 | the four vertical edges: eight vertices on box corners, each line parallel to an axis |
| DebugDrawing.BoxEdgesAppend | src/ui/primitives/debugdraw.cpp:44-62 | joining two lists of box-edge lines keeps every line on the box's edges |
| DebugDrawing.AABBLines | src/ui/primitives/debugdraw.cpp:44-62 | the twelve edges of the box: 24 vertices of the colour, every vertex a corner, every line parallel to an axis |
| DebugDrawing.AxisLines | src/ui/primitives/debugdraw.cpp:116-120 | three lines from the origin: red along X, green along Y, blue along Z, each of the given length |
| DebugDrawing.GridRows | src/ui/primitives/debugdraw.cpp:105-113 | n grid rows are 4n vertices: one line along X and one along Z per row |
| DebugDrawing.GridRowsFlat | src/ui/primitives/debugdraw.cpp:105-113 | every grid vertex has the grid's colour and lies in the horizontal plane through the centre |
| DebugDrawing.GridSpansSize | src/ui/primitives/debugdraw.cpp:102-106 | with a positive division count the first row lies at -size/2 and the last at +size/2 from the centre |
| DebugDrawing.GridStep | src/ui/primitives/debugdraw.cpp:103 | the spacing size / divisions, 0 for zero divisions (listed under Left out); GridSpansSize states that the rows then span the size |
| DebugDrawing.GridRow | src/ui/primitives/debugdraw.cpp:106-112 | grid row i: the line along X, then the line along Z, at offset i steps from the grid's edge; GridRows, GridRowsFlat and GridSpansSize state it |
| DebugDrawing.CircleLines | src/ui/primitives/debugdraw.cpp:74-80 | a circle of n segments is 2n vertices |
| DebugDrawing.CircleLinesJoin | src/ui/primitives/debugdraw.cpp:74-79 | line i joins rim points i and i + 1, so consecutive lines share an end point |
| DebugDrawing.SphereLines | src/ui/primitives/debugdraw.cpp:70-99 | three circles of `segments` lines each: 6 vertices per segment, none for a non-positive count |
| DebugDrawing.RequiredSize | src/ui/primitives/debugdraw.cpp:127-130 | the list's size in bytes, or INITIAL_BUFFER_SIZE for an empty list; never zero |
| DebugDrawing.DebugDraw.constructor | src/ui/primitives/debugdraw.cpp:10-14 | no vertices, a null buffer of size 0, not created |
| DebugDrawing.DebugDraw.DrawLine | src/ui/primitives/debugdraw.cpp:39-42 | appends the two end points in the colour, nothing else changes |
| DebugDrawing.DebugDraw.DrawAABB | src/ui/primitives/debugdraw.cpp:44-62 | appends the box's twelve edges, nothing else changes |
| DebugDrawing.DebugDraw.DrawBox | src/ui/primitives/debugdraw.cpp:64-68 | appends the edges of the box from centre - halfExtents to centre + halfExtents |
| DebugDrawing.DebugDraw.DrawSphere | src/ui/primitives/debugdraw.cpp:70-99 | appends the XY, XZ and YZ circles in that order, nothing else changes |
| DebugDrawing.DebugDraw.DrawCircle | src/ui/primitives/debugdraw.cpp:74-80 | one loop appends `segments` lines around the circle, none for a non-positive count |
| DebugDrawing.DebugDraw.DrawGrid | src/ui/primitives/debugdraw.cpp:101-114 | appends rows 0 to divisions inclusive, four vertices each, none for a negative count |
| DebugDrawing.DebugDraw.DrawAxis | src/ui/primitives/debugdraw.cpp:116-120 | appends the three coloured axis lines |
| DebugDrawing.DebugDraw.Clear | src/ui/primitives/debugdraw.cpp:122-124 | empties the list and keeps the buffer |
| DebugDrawing.DebugDraw.Cleanup | src/ui/primitives/debugdraw.cpp:29-37 | destroys a created non-null buffer and marks it not created, then empties the list |
| DebugDrawing.DebugDraw.CreateOrResizeBuffer | src/ui/primitives/debugdraw.cpp:126-159 | keeps a created buffer that is big enough; otherwise destroys the old one and asks for twice the required size; a failed creation throws "failed to create debug vertex buffer" after the size is set |
| DebugDrawing.DebugDraw.Upload | src/ui/primitives/debugdraw.cpp:161-172 | nothing for an empty list; otherwise a created buffer that is big enough is kept, else the old one is destroyed and a buffer of twice the required size takes its place, success iff that creation succeeds; on success the buffer is created, large enough, and holds the list |
| DebugDrawing.DebugDraw.Bind | src/ui/primitives/debugdraw.cpp:174-182 | binds the vertex buffer exactly when it is created and the list is non-empty |
| DebugDrawing.DebugDraw.Draw | src/ui/primitives/debugdraw.cpp:184-190 | draws every vertex as one instance exactly when the buffer is created and the list is non-empty |
| CameraControl.ClampPitch | src/core/camera.cpp:118-122 | the pitch is kept within ±89 degrees: unchanged inside the range, the nearer limit outside it |
| CameraControl.MouseLook | src/core/camera.cpp:100-122 | records the cursor position and clears the first-movement flag; the first movement leaves the angles; later ones turn by 0.15 × the offset, y inverted, with the pitch clamped |
| CameraControl.YawFollowsNetTravel | src/core/camera.cpp:107-115 | over any run of movements after the first, the yaw turns by 0.15 × the net horizontal cursor travel, and the last position is recorded |
| CameraControl.PitchStaysLimited | src/core/camera.cpp:116-122 | after any non-empty run of movements the pitch lies within ±89 degrees |
| CameraControl.MouseLookAll | src/core/camera.cpp:92-123 | a run of cursor movements; YawFollowsNetTravel and PitchStaysLimited state it |
| CameraControl.NoKeysNoMove | src/core/camera.cpp:75-90 | with no movement key held the position does not change |
| CameraControl.ForwardBackCancel | src/core/camera.cpp:78-81 | holding W and S together moves the camera as if neither were held |
| CameraControl.LeftRightCancel | src/core/camera.cpp:82-85 | holding A and D together moves the camera as if neither were held |
| CameraControl.UpDownCancel | src/core/camera.cpp:86-89 | holding Space and left Ctrl together moves the camera as if neither were held |
| CameraControl.SingleKeyMoves | src/core/camera.cpp:75-90 | one key held moves by speed × deltaTime along +front, -front, -right, +right, +worldUp or -worldUp |
| CameraControl.KeyboardMove | src/core/camera.cpp:75-90 | the position after processKeyboard's six key tests in their order; NoKeysNoMove, the three Cancel lemmas and SingleKeyMoves state it |
| CameraControl.AspectRatio | src/core/camera.cpp:140-148 | width over height, with a zero height taken as 1 |
| CameraControl.Camera.constructor | src/core/camera.cpp:12-27 | position at the origin, world up +Y, yaw -90, pitch 0, first movement pending, cursor released, no overlay, movement speed 500, basis computed from the angles |
| CameraControl.Camera.SetImGuiLayer | src/core/camera.cpp:40-42 | records whether there is an overlay layer and changes nothing else |
| CameraControl.Camera.SetupInputCallbacks | src/core/camera.cpp:153-159 | shows the cursor and marks it released |
| CameraControl.Camera.HandleCursorCapture | src/core/camera.cpp:189-193 | captures and hides the cursor and makes the next movement a first one |
| CameraControl.Camera.HandleCursorRelease | src/core/camera.cpp:195-198 | releases and shows the cursor, look state unchanged |
| CameraControl.Camera.MouseButtonCallback | src/core/camera.cpp:161-173 | a left press while released captures the cursor, unless the overlay wants the mouse; anything else changes nothing |
| CameraControl.Camera.KeyCallback | src/core/camera.cpp:175-187 | Escape pressed while captured releases the cursor, unless the overlay wants the keyboard; anything else changes nothing |
| CameraControl.Camera.ProcessMouseMovement | src/core/camera.cpp:92-123 | nothing while released; otherwise one mouse-look step from the cursor position |
| CameraControl.Camera.SetMovementSpeed | src/core/camera.hpp:37 | a write through `getSpeedPtr`: the speed becomes the new value; position, angles, basis and cursor state are kept |
| CameraControl.Camera.ProcessKeyboard | src/core/camera.cpp:75-90 | the position after the six key tests in source order, at velocity movementSpeed × deltaTime; the speed and the basis are kept |
| CameraControl.Camera.Update | src/core/camera.cpp:44-52 | while captured, the keyboard move with the old basis at the current speed, then the mouse-look step; while released nothing moves; either way the basis is recomputed from yaw and pitch |
| ConsoleLog.Newest | src/ui/consolecapture.hpp:43-45 | the last n lines in order, all of them when there are at most n |
| ConsoleLog.NewestAbsorbs | src/ui/consolecapture.hpp:43-45 | trimming, appending and trimming again keeps the same lines as one trim after the append |
| ConsoleLog.Captured | src/ui/consolecapture.hpp:29-41 | one line per non-empty buffer, stdout's first, stderr's behind "[ERROR] "; no line is empty |
| ConsoleLog.ConsoleCapture.constructor | src/ui/consolecapture.hpp:58 | empty buffers and no lines |
| ConsoleLog.ConsoleCapture.WriteOut | src/ui/consolecapture.hpp:16-20 | text written to the redirected stdout is appended to its buffer |
| ConsoleLog.ConsoleCapture.WriteErr | src/ui/consolecapture.hpp:16-20 | text written to the redirected stderr is appended to its buffer |
| ConsoleLog.ConsoleCapture.Update | src/ui/consolecapture.hpp:26-46 | both buffers emptied, their lines appended, and only the newest 1000 lines kept |
| ConsoleLog.ConsoleCapture.GetLines | src/ui/consolecapture.hpp:48-50 | the current lines |
| ConsoleLog.ConsoleCapture.Clear | src/ui/consolecapture.hpp:52-55 | no lines, buffers untouched |
| ConsoleLog.UpdatesKeepNewest | src/ui/consolecapture.hpp:26-46 | however output is split across updates, the log holds the newest 1000 lines of everything captured, in order |
| ConsoleLog.UpdateAll | src/ui/consolecapture.hpp:26-46 | the lines after a run of updates; UpdatesKeepNewest states it |

## Left out

- Floating point: geometry uses exact reals, so rounding, NaN and infinity are not modelled.
- Normalisation: plane normalisation by the square root of the normal length is left out. `FrustumCulling.ScalingPreservesTest` shows that dividing by a positive factor leaves the test unchanged.
- Trigonometry: sphere rim points and the camera basis are parameters, `rim` and `basis`, instead of cos and sin.
- Matrices and casts: `lookAt`, `perspective`, `inverse`, the viewport's y flip and the float casts of the viewport are not modelled.
- DebugDrawing.GridStep: with zero divisions the source divides by zero and its offsets are not finite. The model takes a step of 0 there, so `DrawGrid` with zero divisions does not state the source's non-finite coordinates.
- I/O: the model does not open or read files. This covers the `.mtl` file, shader SPIR-V files, `stbi_load` and `Mesh::loadFromFile`. Their contents or outcomes are parameters.
- Console: stream redirection (`startCapture`, `stopCapture`) and the mutex of the console log are not modelled. Locking has no single-threaded meaning.
- Mesh loading: `Mesh::loadFromFile`, the mesh's own GPU buffers and `Mesh::bind` are not modelled. A loaded mesh is its vertex, index and submesh data.
- Missing bodies: per-frame culling, the transparent depth sort, visible counts, indirect-buffer staging copies and `AABB::transform` are declared but have no body in the source. The forward pass takes the sorted transparent batches as a parameter.
- Map order: the iteration order of `std::unordered_map` is a parameter, an enumeration of the map's keys. Results that do not depend on the order, such as draw totals, are proved for every enumeration.
- Destruction: destructors and `vkDeviceWaitIdle` are not modelled. Destruction is modelled only through the explicit `destroy` and `cleanup` methods.
- Single-time commands: `beginSingleTimeCommands` and `endSingleTimeCommands` are one opaque copy step in `GPUBuffer::copyBuffer`.
- Blocking: fence waits, `mainLoop` and `recreateSwapChain`'s wait loop block and are not modelled. `recreateSwapChain` is one step in the trace of `drawFrame`.
- Outside the core: ImGui frame calls, the uniform-buffer updates of the camera and the light, `setPosition`/`setRotation`, and descriptor set layout and pool details are not modelled.
- Logical device: only its unique queue families are modelled; device features, extensions and queue retrieval are not.
- GpuBuffers.Allocator: the outcome of `vmaCreateBuffer` is modelled as a budget of successful allocations that only goes down; `DestroyBuffer` does not give budget back. Once the budget is spent every allocation fails, so a failure followed by a success after a free, or a transient failure, is not modelled. The "succeeds iff the allocations are affordable" clauses of `GpuBuffers.GPUBuffer.Create`, `Meshes.Mesh.CreateCube`, `Scenes.Scene.BuildUnifiedBuffers`, `Scenes.Scene.BuildIndirectBuffers`, `Scenes.Scene.BuildMaterialBatches` and `IndirectDrawing.MaterialBatch.BuildIndirectBuffer` hold under this abstraction.
- GpuBuffers.GPUBuffer.Create: the buffer's memory is the whole data sequence, element by element. The byte count `size` is recorded but not tied to the data's length times the element size, because element byte sizes are not modelled; the `memcpy` of `size` bytes (gpubuffer.cpp:41, 81) copies all of the data when, as at every call site that passes data (mesh.cpp:74-84, scene.cpp:217-228, indirectdrawing.cpp:40-49), `size` is the element count times `sizeof` the element.
- Sizes: `VkDeviceSize` and `size_t` overflow in byte sizes is not modelled; sizes are unbounded naturals. Offsets and counts the source keeps in `uint32_t` wrap explicitly.
- Scenes.Scene.LoadModel: the message of a rethrown mesh failure comes from the mesh loader, which is not part of this model. The model fails with "Failed to load mesh", which is the line the source logs.
- Scenes.HasDescriptorSet: batches are keyed by `const Material*` into the material manager's vector (scene.cpp:176, scene.hpp:85-86), and the model keys them by index instead. When `loadModel` reloads the materials (scene.cpp:27) and the mesh load then throws (scene.cpp:46-48), the old batches keep pointers into the cleared vector, and reading them in `drawAll` is undefined behaviour. The model counts a key past the end of the new list as no material. An in-range stale key designates the material now at that position. `Scenes.Scene.DrawBatch` and `Scenes.Scene.DrawAll` inherit this reading.
- SwapChains.Clamp: for lo > hi `std::clamp` is undefined. The model then yields lo for values below lo and hi otherwise, and its range ensures covers only lo <= hi.
- Push constants: the fields are one opaque per-material command. Their layout (diffuse colour, texture flags, dissolve) is not modelled.
- Logging: `std::cout` and `std::cerr` logging is not modelled.

## Notes on the source

- Batch maps: `scene.cpp` fills one map, `materialBatches`, but `scene.hpp` declares `opaqueBatches` and `transparentBatches` instead. The model keeps the single map and returns it from both `getMaterialBatches` and `getOpaqueBatches` (`Scenes.Scene.GetMaterialBatches`). Nothing fills the transparent map, so in a valid scene `hasTransparentObjects` is false and the forward pass draws nothing (`FrameRecording.ValidSceneForwardEmpty`).
- `drawFrame`: when `framebufferResized` is set, any present result, even an error, leads to recreation rather than an exception (application.cpp:354-362). `ApplicationCore.PresentHandling` states this behaviour as written.
- `createOrResizeBuffer`: `bufferSize` is set to twice the required size before `vmaCreateBuffer` is called. When that call fails, the exception leaves the new size recorded. If the old buffer was created, `bufferCreated` also stays true although its buffer has been destroyed. The buffer is therefore created and large enough only on success, and `DebugDrawing.DebugDraw.CreateOrResizeBuffer` states exactly that.
- `createSyncObjects`: the three creations of a slot short-circuit. A failure inside a slot keeps the semaphores of that slot created before the failure.
