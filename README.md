# vulkaning, modelled in Dafny

This project models the core of `vulkaning`, a small Vulkan renderer written in Rust. The core is the logic around the Vulkan calls:

- the build script that splits combined shader files and names the compiled outputs;
- the directory setup in `lib.rs`;
- device, queue-family and swapchain selection;
- meshes, models and their vertex and index uploads, and OBJ de-indexing;
- vertex layouts: the `repr(C)` structs and their attribute descriptions;
- the three generations of render objects and the commands each records;
- the destruction and deletion queues and the named resource maps;
- buffers with dynamic offsets, descriptor layout builders and allocators;
- material (pipeline) builders and the `vkinit` info constructors;
- the egui texture manager and draw loop;
- the renderer's frame counter, shader toggle and shutdown.

The model proves properties of all of these.

Each Rust source file has one Dafny module of the same name, for example `src/renderer/egui.rs` becomes module `Egui` in `egui.dfy`. Three support modules are shared:

- `Vk` holds Vulkan handles as opaque naturals, the enumerations the core uses, `Option`, `Result` and the u32/u64 ranges.
- `Gpu` holds the device and the command buffer. Each is a class whose ghost trace records what the core asks of Vulkan: objects created and destroyed, and commands recorded.
- `Layout` computes `repr(C)` sizes and field offsets. The size and offset claims about the vertex and push-constant structs rest on it.

The model is abstracted in these ways:

- **Foreign calls.** What a Vulkan, allocator or asset-server call returns (a handle, success or failure, a loaded state) is a parameter of the operation that makes the call.
- **Panics.** A panic in the source (`unwrap`, an out-of-range index, `assert!`) becomes a precondition.
- **Errors.** A `?` error return becomes a `Result`.
- **Mutable structures.** Structures the source mutates in place are classes. Their fields are `seq` or `map` values that the methods reassign. Their loops carry invariants and are proved against specification functions.
- **Pure code.** Code that is pure in the source is written as functions.

Four defects of the source are logged under "## Findings". For each, the model has an as-written member with a lemma that shows the defect, and a corrected member that the rest of the model uses.

Some behaviours are modelled as written, with a lemma stating them, but are not counted as defects:

- **Index rebasing.** `Model::upload_indices` rebases each mesh's indices by the number of INDICES before it, not the number of vertices (`Model.IndexCountRebasingMissesVertices`). This is harmless for the meshes the OBJ loader produces, which have one vertex per index (`Model.RebasedIndicesAddressOwnVertices`), and for meshes loaded with the corrected OBJ index list.
- **Texture patches.** A patch to an existing egui texture blits the existing image onto itself (`Egui.PatchBlitsTextureOntoItself`).

## Model

| member | source | states |
|---|---|---|
| BuildScript.TrimStart | build.rs:104 | the trimmed line is a suffix of the line that does not begin with whitespace |
| BuildScript.TrimStartDropsOnlyWhitespace | build.rs:104 | everything `trim_start` removes is whitespace and the rest of the line is kept as it was |
| BuildScript.TokenLength | build.rs:105 | the length of the maximal leading run of non-whitespace characters: every character before it is not whitespace and the one at it (if any) is, so the token is non-empty exactly when the line starts with a non-whitespace character |
| BuildScript.Finish | build.rs:128-134 | an empty vertex text is reported first, with its message; an empty fragment text after a non-empty vertex text gets the fragment message; success exactly when both are non-empty, returning both |
| BuildScript.ParseCombinedShaderfile | build.rs:92-135 | the line loop returns what the line-by-line routing `SplitCombined` returns for the file's lines |
| BuildScript.RunAppend | build.rs:101-126 | the loop over two runs of lines is the loop over the first then over the second, and an error in the first stops it |
| BuildScript.RunIsRouting | build.rs:97-126 | when every directive names a type, each buffer holds exactly the non-directive lines routed to its stage, each followed by a newline, and the routing is the last directive's |
| BuildScript.StepIsRouting | build.rs:104-125 | one more line extends the routing of the lines before it |
| BuildScript.MissingTypeTokenIsError | build.rs:104-114 | the first `#shader` line without a type token stops the parse with "Invalid #shader type specifier: " and that line |
| BuildScript.PreambleDiscarded | build.rs:99-125 | lines before the first directive never reach either output |
| BuildScript.PreambleKeepsInitialState | build.rs:99-125 | a preamble without directives leaves both buffers empty and no routing |
| BuildScript.DirectivesNotRouted | build.rs:104-111 | a file of directive lines routes no text to either stage |
| BuildScript.PushPath | build.rs:81-82 | the pushed path ends with the file name |
| BuildScript.BuildShaders | build.rs:15-90 | the directory loop writes the paths `BuildFrom` lists and ends as it says, in directory order, stopping at the first parse error |
| BuildScript.AllOutputsAreSpirv | build.rs:59-84 | every path the build writes ends in `.spv` |
| BuildScript.EntryOutputsAreSpirv | build.rs:41-85 | the paths written for one entry all end in `.spv` |
| BuildScript.EntryNaming | build.rs:32-85 | a `.combined` file that parses writes `<dir>/<stem>-vert.spv` then `<dir>/<stem>-frag.spv`, a `.comp` file writes `<dir>/<stem>-comp.spv`, and directories, files without extension and other extensions write nothing |
| Lib.ArgOrEnv | src/lib.rs:30-49 | the command-line argument when present, else the environment variable, else the default |
| Lib.Directories | src/lib.rs:23-52 | more than three arguments is the "Too many args" error and anything else succeeds |
| Lib.Globals.SetDirectories | src/lib.rs:23-52 | sets both settings to the pair `Directories` gives, or fails with "Too many args" and leaves them unchanged |
| Lib.ProgramNameUnused | src/lib.rs:24-49 | the program name never changes the outcome |
| Lib.ArgumentsOverrideEnvironment | src/lib.rs:30-42 | with both arguments given, the environment is irrelevant and the arguments are the directories |
| Lib.EnvironmentFallback | src/lib.rs:34-48 | with no arguments the environment decides, and an empty environment gives "./shaderbuild" and "./assets" |
| Lib.ShaderArgumentAlone | src/lib.rs:30-48 | one argument sets the shader build directory only; the assets directory still comes from the environment |
| Buffer.AllocatedBuffer.constructor | src/renderer/buffer.rs:17-58 | a new buffer has the given handle and size and no offsets |
| Buffer.AllocatedBuffer.SetOffsets | src/renderer/buffer.rs:60-62 | the offsets become the given list and nothing else changes |
| Buffer.AllocatedBuffer.GetOffset | src/renderer/buffer.rs:64-71 | "No offsets set" when there are none, "Invalid offset index" past the end, otherwise the entry at the index |
| Buffer.AllocatedBuffer.Cleanup | src/renderer/buffer.rs:88-93 | the buffer is destroyed on the device, once |
| Buffer.SetThenGet | src/renderer/buffer.rs:60-71 | after setting a list, each index inside it reads back its own entry and each index past it is the index error |
| DeletionQueue.DeletionQueue.constructor | src/renderer/deletion_queue.rs:8-12 | a new queue is empty |
| DeletionQueue.DeletionQueue.Push | src/renderer/deletion_queue.rs:14-16 | appends at the back |
| DeletionQueue.DeletionQueue.Flush | src/renderer/deletion_queue.rs:18-22 | calls every queued function once, front to back, and leaves the queue empty |
| DestructionQueue.DestroyEvents | src/renderer/destruction_queue.rs:22-26 | one destroy event per queued object, in queue order |
| DestructionQueue.DestroyEventsAppend | src/renderer/destruction_queue.rs:22-26 | destroying two runs in turn is destroying their concatenation |
| DestructionQueue.DestructionQueue.constructor | src/renderer/destruction_queue.rs:12-16 | a new queue is empty |
| DestructionQueue.DestructionQueue.Push | src/renderer/destruction_queue.rs:18-20 | appends at the back |
| DestructionQueue.DestructionQueue.Flush | src/renderer/destruction_queue.rs:22-26 | destroys every queued object once, in queue order, and leaves the queue empty |
| DestructionQueue.PushPushFlushFlush | src/renderer/destruction_queue.rs:18-26 | two pushes then two flushes destroy each object once, in push order |
| Core.FindQueueFamilies | src/renderer/core.rs:520-559 | the loop returns exactly what `QueueFamilyIndices::new`'s scan returns for the same families |
| Core.ContainsAll | src/renderer/core.rs:489-494 | true exactly when every required name is available |
| Core.CheckRequiredValidationLayers | src/renderer/core.rs:352-371 | success without checking when validation is off; otherwise the enumeration's error, or success exactly when every required layer is available, else "Required validation layers are not all available" |
| Core.CheckRequiredDeviceExtensions | src/renderer/core.rs:478-497 | fails exactly when the extension query fails; otherwise true exactly when every required extension (the portability subset too on macOS) is present |
| Core.IsSuitable | src/renderer/core.rs:388-411 | an error exactly when one of the three queries fails; otherwise suitable exactly when the families are complete, the extensions are present and the surface has a format and a present mode |
| Core.FirstAccepted | src/renderer/core.rs:255-268 | the position of an accepted device with no accepted device before it, or none when no device is accepted |
| Core.DeviceTypeLabel | src/renderer/core.rs:427-434 | the five listed device types have their labels; any other type is the "Unknown device type" error |
| Core.LogPhysicalDeviceInfo | src/renderer/core.rs:413-476 | succeeds exactly when the device type is listed and the name converts; otherwise the type error first, then the name error |
| Core.CreatePhysicalDevice | src/renderer/core.rs:245-276 | the enumeration error is passed on; "Failed to find a GPU with Vulkan support" for no devices; "Failed to find a suitable GPU" when none is accepted; otherwise the first accepted device is logged, and its logging error is passed on or its position returned |
| Core.FailingQueryNeverChosen | src/renderer/core.rs:257-265 | a device whose suitability query fails is never the chosen one |
| Core.UniqueQueueFamilies | src/renderer/core.rs:291-298 | the graphics error when no graphics family, the present error when only that one is missing; otherwise the set of both families, of size one exactly when they coincide |
| Core.QueueCreateInfos | src/renderer/core.rs:300-309 | one create info per distinct family, each asking for one queue |
| QueueFamilyIndices.GetGraphicsFamily | src/renderer/queue_family_indices.rs:53-56 | the graphics family, or "No graphics family index found" exactly when there is none |
| QueueFamilyIndices.GetPresentFamily | src/renderer/queue_family_indices.rs:58-61 | the present family, or "No present family index found" exactly when there is none |
| QueueFamilyIndices.CompleteIffGettersSucceed | src/renderer/queue_family_indices.rs:53-65 | `is_complete` holds exactly when both getters succeed |
| QueueFamilyIndices.New | src/renderer/queue_family_indices.rs:11-51 | the enumerate loop with its `?` and `break` returns what the scan function `Scan` returns |
| QueueFamilyIndices.LastGraphics | src/renderer/queue_family_indices.rs:30-32 | the last graphics-capable family among the first n, or none when there is none |
| QueueFamilyIndices.LastPresent | src/renderer/queue_family_indices.rs:41-43 | the last family among the first n that reported present support, or none |
| QueueFamilyIndices.VisitedFrom | src/renderer/queue_family_indices.rs:27-48 | the loop visits at most the remaining families |
| QueueFamilyIndices.ScanFromIsLastOfVisited | src/renderer/queue_family_indices.rs:27-50 | from any point of the loop, it ends with the last graphics and last present family among the visited ones |
| QueueFamilyIndices.ScanIsLastOfVisited | src/renderer/queue_family_indices.rs:27-50 | without a failing support query, the scan returns the last graphics family and the last present family among the families up to the first complete prefix (a later family overwrites an earlier one) |
| QueueFamilyIndices.VisitedIsShortestComplete | src/renderer/queue_family_indices.rs:45-47 | the loop stops right after the first family that completes the pair |
| QueueFamilyIndices.ScanFromReportsFirstError | src/renderer/queue_family_indices.rs:34-40 | from any point of the loop, the first failing support query among the visited families is the error |
| QueueFamilyIndices.ScanReportsFirstError | src/renderer/queue_family_indices.rs:34-40 | a failing support query among the visited families aborts the scan with its error |
| QueueFamilyIndices.NoGraphicsFamilyScansAll | src/renderer/queue_family_indices.rs:27-50 | with no graphics-capable family every family is visited and the result has no graphics family |
| QueueFamilyIndices.NoGraphicsVisitsAll | src/renderer/queue_family_indices.rs:27-48 | with no graphics-capable family the loop never breaks early |
| QueueFamilyIndices.ScanIndicesInRange | src/renderer/queue_family_indices.rs:27-43 | every index the scan returns names one of the device's families |
| QueueFamilyIndices.ScanFromInRange | src/renderer/queue_family_indices.rs:27-43 | indices stay in range through the rest of the loop |
| Descriptors.WithStages | src/renderer/descriptors.rs:39-41 | one binding per binding, in the same order, each with the stages OR-ed into its flags |
| Descriptors.WithStagesIdempotent | src/renderer/descriptors.rs:39-41 | OR-ing the same stages in twice changes nothing more |
| Descriptors.WithStagesKeepsStages | src/renderer/descriptors.rs:39-41 | every requested stage ends up set, no stage a binding had is lost, and number, type and count are kept |
| Descriptors.DescriptorLayoutBuilder.constructor | src/renderer/descriptors.rs:9-13 | a new builder has no bindings |
| Descriptors.DescriptorLayoutBuilder.AddBinding | src/renderer/descriptors.rs:15-27 | appends one binding with that number and type, count 1 and no stages |
| Descriptors.DescriptorLayoutBuilder.Clear | src/renderer/descriptors.rs:29-32 | removes every binding |
| Descriptors.DescriptorLayoutBuilder.Build | src/renderer/descriptors.rs:34-51 | ORs the stages into every binding, hands all of them with their number to the device, and the device creates one layout |
| Descriptors.DuplicateBindingsKept | src/renderer/descriptors.rs:15-51 | two bindings with the same number both reach the layout, in order; the builder neither merges nor rejects them |
| Descriptors.CastToU32 | src/renderer/descriptors.rs:73 | `as u32` on a float: 0 for any value at or below 0, `u32::MAX` for any value at or above it, and the integer part in between |
| Descriptors.PoolInfoFor | src/renderer/descriptors.rs:64-82 | one pool size per ratio, in order, for the ratio's type with `ratio * max_sets` descriptors, and `max_sets` passed through |
| Descriptors.WholeRatioIsExact | src/renderer/descriptors.rs:73 | a whole-number ratio k gives exactly `k * max_sets` descriptors |
| VkUtils.PadUniformBufferSize | src/renderer/vkutils.rs:10-21 | the result fits in u64 and alignment 0 returns the size unchanged |
| VkUtils.PadPowerOfTwoClearsLowBits | src/renderer/vkutils.rs:15-17 | with alignment 2^k the mask clears exactly the low k bits of `size + 2^k - 1` |
| VkUtils.PadRoundsUpToPowerOfTwo | src/renderer/vkutils.rs:10-21 | with a power-of-two alignment the result is a multiple of it, at least the size and less than size plus alignment, and no smaller multiple is at least the size |
| VkUtils.PadIdempotent | src/renderer/vkutils.rs:10-21 | with a power-of-two alignment, padding a padded size changes nothing |
| VkUtils.PadTestVectorsPowerOfTwo | src/renderer/vkutils.rs:125-148 | the unit tests with alignments 0, 32 and 64 hold |
| VkUtils.PadNonPowerOfTwoIsNotMultiple | src/renderer/vkutils.rs:140-153 | the unit tests with alignment 54 hold, and their results 64 and 74 are not multiples of 54 |
| VkUtils.AsI32 | src/renderer/vkutils.rs:35-45 | `as i32` on a u32 is the value in the i32 range that agrees with it modulo 2^32 |
| VkUtils.CopyImageToImage | src/renderer/vkutils.rs:23-77 | one linear blit from the source in transfer-source layout to the destination in transfer-destination layout, covering each image from the origin to its size (depth 1, colour, mip 0, layer 0) |
| VkUtils.TransitionImageLayout | src/renderer/vkutils.rs:79-119 | nothing when the layouts are equal, otherwise one barrier over mip 0 and layer 0 of the image with the given aspect, from the old to the new layout |
| Utils.PadUniformBufferSize | src/renderer/utils.rs:9-20 | agrees with the vkutils.rs copy on every input |
| Utils.PadTestVectors | src/renderer/utils.rs:26-39 | the three unit tests hold |
| Egui.GetVertexDescAsWritten | src/renderer/egui.rs:294-333 | as written: one binding of stride 20, location 1 an R8G8B8A8 attribute at offset 8 and location 2 an R32G32 attribute at offset 16 |
| Egui.ColorAttributeOverrunsStride | src/renderer/egui.rs:298-325 | as written, location 2 reads bytes 16 to 24 of a 20-byte vertex, past its end |
| Egui.GetVertexDesc | src/renderer/egui.rs:294-333 | corrected: the same binding, with the two-float texture coordinate at offset 8 and the four-byte colour at offset 16, where `epaint::Vertex` puts them |
| Egui.VertexDescCoversVertex | src/renderer/egui.rs:294-333 | the corrected attributes are disjoint, lie inside the stride and end exactly at it |
| Egui.PixelBytes | src/renderer/egui.rs:429-433 | four bytes per pixel |
| Egui.BytesToPixels | src/renderer/egui.rs:429-433 | one pixel per four bytes |
| Egui.PixelBytesLayout | src/renderer/egui.rs:429-433 | byte 4i+c of the upload is channel c of pixel i, in RGBA order |
| Egui.PixelBytesRoundTrip | src/renderer/egui.rs:429-433 | the pixels can be read back from the uploaded bytes |
| Egui.UploadData | src/renderer/egui.rs:422-439 | four bytes per pixel of the image, colour or font |
| Egui.ColorUploadSize | src/renderer/egui.rs:424-433 | an image passing the size assertion uploads four bytes per texel of width times height |
| Egui.ExtentOf | src/renderer/egui.rs:445-447 | the `as u32` casts fit in u32 and keep any size below 2^32 |
| Egui.PartialEvents | src/renderer/egui.rs:441-468 | a making that fails at a call records the creations of the calls before it and destroys nothing |
| Egui.UpdateTextureStep | src/renderer/egui.rs:411-498 | the step fails exactly when making the new texture fails |
| Egui.UpdateTextureEffect | src/renderer/egui.rs:441-495 | a failed making leaves the map and the commands as they were, returns the failing call's error and records the creations made before it; a patch leaves the map as it was; a whole image puts the new texture under its id and keeps every other entry |
| Egui.LateFailureLeaksImage | src/renderer/egui.rs:441-468 | a failure at the upload, the sampler or `Texture::new` leaves the new image created and never destroyed, and out of the map; from the sampler on its upload too, and at `Texture::new` the sampler |
| Egui.PatchBlitsTextureOntoItself | src/renderer/egui.rs:474-487 | a patch of an existing texture records one blit whose source and destination are both the existing image, from the origin, so the new pixels are never read |
| Egui.UpdateReleasesOrKeeps | src/renderer/egui.rs:474-495 | nothing leaks: the new texture and every old one end up in the map or destroyed |
| Egui.SetsSucceedIffAllCreated | src/renderer/egui.rs:382-392 | the sets succeed exactly when every texture could be made |
| Egui.ApplySetsNext | src/renderer/egui.rs:382-392 | after an unbroken run, one more set entry applies `update_texture` to the map so far |
| Egui.FailureStops | src/renderer/egui.rs:382-392 | after the first failure nothing more happens |
| Egui.FreeAllRemovesListed | src/renderer/egui.rs:393-395 | the frees remove exactly the listed ids and leave every other entry as it was |
| Egui.FreedIdsAreGone | src/renderer/egui.rs:373-398 | when every set succeeds, none of the freed ids is left in the map |
| Egui.ManagedTextures.constructor | src/renderer/egui.rs:367-371 | no textures |
| Egui.ManagedTextures.FreeTexture | src/renderer/egui.rs:400-409 | a present id is removed and its texture destroyed; an absent id changes nothing |
| Egui.ManagedTextures.UpdateTexture | src/renderer/egui.rs:411-498 | result, map, device events and commands are those of `UpdateTextureStep` |
| Egui.ManagedTextures.FreeTextures | src/renderer/egui.rs:393-395 | the free loop does what `FreeAll` says |
| Egui.ManagedTextures.UpdateEach | src/renderer/egui.rs:382-392 | the set loop does what `ApplySets` says, stopping at the first error |
| Egui.ManagedTextures.UpdateTextures | src/renderer/egui.rs:373-398 | the sets in order, then the frees only if no set failed |
| Egui.ManagedTextures.Cleanup | src/renderer/egui.rs:500-504 | every texture destroyed once, in some order of its ids, and the map emptied |
| Egui.DestroyAll | src/renderer/egui.rs:501-503 | each texture of the map destroyed exactly once |
| Egui.CleanupAll | src/renderer/egui.rs:501-503 | two destroy events per texture |
| Egui.CleanupAllAppend | src/renderer/egui.rs:501-503 | one more texture destroyed adds its own two events |
| Egui.CleanupTexture | src/renderer/egui.rs:502 | the image, then the sampler, destroyed |
| Egui.VertexChunks | src/renderer/egui.rs:163-177 | one chunk per primitive |
| Egui.IndexChunks | src/renderer/egui.rs:163-177 | one chunk per primitive |
| Egui.OffsetMonotone | src/renderer/egui.rs:289-290 | the running bases never decrease |
| Egui.BasesAdvance | src/renderer/egui.rs:175-177 | a skipped mesh leaves both bases; a drawn one advances them by its vertex and index counts |
| Egui.WriteAt | src/renderer/egui.rs:218-219 | a write keeps the buffer's length |
| Egui.WriteAtEffect | src/renderer/egui.rs:218-219 | a write that fits replaces exactly its range; one that does not fit changes nothing (its error is dropped) |
| Egui.PlaceAtZero | src/renderer/egui.rs:218-219 | as written: every mesh written at element 0; keeps the buffer length |
| Egui.WritesAtZeroMissTheDraw | src/renderer/egui.rs:218-219 | as written, with two three-index meshes the second draw reads indices 3 to 5, where none of its indices were written |
| Egui.PlaceAtBases | src/renderer/egui.rs:218-219 | corrected: each mesh written at the base its draw uses; keeps the buffer length |
| Egui.ChunkIntactAtBase | src/renderer/egui.rs:218-219 | with the corrected writes, every chunk that fits reads back whole from its base |
| Egui.EveryDrawReadsItsOwnMesh | src/renderer/egui.rs:218-290 | with the corrected writes, each drawn mesh's indices and vertices sit exactly where its indexed draw reads them |
| Egui.IndicesAtBase | src/renderer/egui.rs:219-290 | the index half of that |
| Egui.VerticesAtBase | src/renderer/egui.rs:218-289 | the vertex half of that |
| Egui.MeshCommands | src/renderer/egui.rs:175-287 | two commands (the descriptor-set bind and the indexed draw) for a drawn mesh and none for a skipped one; the scissor and viewport commands are not recorded |
| Egui.DrawRecorded | src/renderer/egui.rs:175-290 | every drawn mesh gets an indexed draw of its index count at the bases of the meshes before it; a skipped mesh records nothing |
| Egui.RecordDraws | src/renderer/egui.rs:158-291 | the loop records `DrawCommands`; with the corrected writes it leaves the buffers as `PlaceAtBases` says (as written, the source writes each mesh at 0, `PlaceAtZero`) |
| Egui.DrawStep | src/renderer/egui.rs:163-291 | the loop's specification one primitive further on |
| Egui.DrawPrimitive | src/renderer/egui.rs:167-290 | one pass: the mesh's commands, the bases advanced, and, with the corrected writes, the mesh written at the running bases (as written, the source writes it at 0, `PlaceAtZero`) |
| Egui.EguiRenderer.constructor | src/renderer/egui.rs:90-101 | the given material, set and buffers, and no managed textures |
| Egui.EguiRenderer.DrawPrimitives | src/renderer/egui.rs:158-291 | the paint-job loop with the corrected writes at the bases (as written, the source writes each mesh at 0, `PlaceAtZero`); nothing else of the renderer changes |
| Egui.EguiRenderer.DrawEgui | src/renderer/egui.rs:105-292 | the texture updates (their result dropped), then the pipeline, vertex and index buffer, set and push-constant binds, then the loop with the corrected writes at the bases (as written, the source writes each mesh at 0, `PlaceAtZero`) |
| Material.DefaultsAgreeWithSetters | src/renderer/material.rs:124-158 | the builder starts with the depth state `depth_test_enable(true, None)` would set, and with alpha blending |
| Material.DepthTest | src/renderer/material.rs:261-282 | test and write both follow `enable`; the compare op is the given one or LESS_OR_EQUAL when enabled and ALWAYS when not; depth bounds 0 to 1; the other fields kept |
| Material.DepthTestMatchesCreateInfo | src/renderer/material.rs:261-282 | from the defaults the setter builds what `depth_stencil_create_info` builds, and with the test off the compare argument is ignored |
| Material.ShaderCleanup | src/renderer/material.rs:369 | a shader's cleanup destroys each of its modules once, in order |
| Material.BuildAsWritten | src/renderer/material.rs:299-376 | as written: the missing shader and missing layout errors, in that order, and success exactly when shader, layout and pipeline are all there, with the new pipeline, the layout and the builder's bind point |
| Material.FailedCreationLeaksLayout | src/renderer/material.rs:320-368 | as written, a failed pipeline creation loses the layout: it is neither in the result nor destroyed |
| Material.Build | src/renderer/material.rs:299-376 | corrected: a failed pipeline creation destroys the layout; otherwise the same as written |
| Material.BuildReleasesLayout | src/renderer/material.rs:299-376 | with the correction, a layout handed to the builder is owned by the material or destroyed, whatever fails |
| Material.GraphicsMaterialBuilder.constructor | src/renderer/material.rs:124-158 | the default configuration, no shader, no layout, no sets |
| Material.GraphicsMaterialBuilder.SetShader | src/renderer/material.rs:160-166 | the new shader replaces the old one, which is cleaned up |
| Material.GraphicsMaterialBuilder.SetPipelineLayout | src/renderer/material.rs:168-176 | the new layout replaces the old one, which is destroyed |
| Material.GraphicsMaterialBuilder.InputTopology | src/renderer/material.rs:178-182 | the topology set, primitive restart off, nothing else changed |
| Material.GraphicsMaterialBuilder.SetPolygonMode | src/renderer/material.rs:184-188 | the polygon mode set and the line width 1, nothing else changed |
| Material.GraphicsMaterialBuilder.CullMode | src/renderer/material.rs:190-198 | cull mode and front face set, nothing else changed |
| Material.GraphicsMaterialBuilder.DisableMultisampling | src/renderer/material.rs:200-209 | one sample, no sample shading, no alpha-to-coverage or alpha-to-one |
| Material.GraphicsMaterialBuilder.DisableBlending | src/renderer/material.rs:211-219 | all four channels written, blending off |
| Material.GraphicsMaterialBuilder.EnableAlphaBlending | src/renderer/material.rs:221-232 | the alpha blend state |
| Material.GraphicsMaterialBuilder.EnableAdditiveBlending | src/renderer/material.rs:234-245 | the additive blend state |
| Material.GraphicsMaterialBuilder.ColorAttachmentFormat | src/renderer/material.rs:247-254 | the colour format set, with one colour attachment |
| Material.GraphicsMaterialBuilder.DepthAttachmentFormat | src/renderer/material.rs:256-259 | the depth format set |
| Material.GraphicsMaterialBuilder.DepthTestEnable | src/renderer/material.rs:261-282 | the depth state becomes `DepthTest` of the old one |
| Material.GraphicsMaterialBuilder.VertexInput | src/renderer/material.rs:284-292 | the vertex description set |
| Material.GraphicsMaterialBuilder.DescSets | src/renderer/material.rs:294-297 | the descriptor sets replaced |
| Material.GraphicsMaterialBuilder.Drop | src/renderer/material.rs:443-457 | a layout still held is destroyed, then a shader still held is cleaned up |
| Material.GraphicsMaterialBuilder.BuildMaterial | src/renderer/material.rs:299-376 | result and device events are those of `Build` for the graphics builder, and the builder is left empty |
| Material.ComputeMaterialBuilder.constructor | src/renderer/material.rs:466-472 | no shader and no layout |
| Material.ComputeMaterialBuilder.SetShader | src/renderer/material.rs:474-480 | the new shader replaces the old one, which is cleaned up |
| Material.ComputeMaterialBuilder.SetPipelineLayout | src/renderer/material.rs:482-490 | the new layout replaces the old one, which is destroyed |
| Material.ComputeMaterialBuilder.Drop | src/renderer/material.rs:532-546 | a layout still held is destroyed, then a shader still held is cleaned up |
| Material.ComputeMaterialBuilder.BuildMaterial | src/renderer/material.rs:492-529 | result and device events are those of `Build` for the compute builder, and the builder is left empty |
| Material.CleanupShader | src/renderer/material.rs:369 | the device sees `ShaderCleanup` |
| Material.BuildWith | src/renderer/material.rs:299-376 | the device sees the events of `Build` and the result is its result |
| Material.MaterialConstantsSize | src/renderer/material.rs:548-553 | sixteen `Vec4`s packed 16 bytes apart fill exactly 256 bytes, as the padding comment says |
| Mesh.PushConstantsLayout | src/renderer/mesh.rs:10-15 | the data vector at offset 0, the matrix at 16, 80 bytes in all |
| Mesh.MeshEqIgnoresContents | src/renderer/mesh.rs:26-30 | two meshes with the same id are equal whatever they hold |
| Mesh.MeshIdCounter.constructor | src/renderer/mesh.rs:17 | the counter starts at 0 with no id handed out |
| Mesh.MeshIdCounter.New | src/renderer/mesh.rs:33-40 | the mesh gets the counter's value, which no earlier mesh had and which exceeds all of theirs, and the counter moves on by one |
| Mesh.MeshIdCounter.NewTriangle | src/renderer/mesh.rs:42-67 | a fresh id with the triangle's vertices and indices |
| Mesh.MeshIdCounter.NewQuad | src/renderer/mesh.rs:69-119 | a fresh id with the quad's vertices and indices |
| Mesh.TwoMeshesDiffer | src/renderer/mesh.rs:26-40 | two meshes made one after the other are never equal |
| Mesh.BuiltInMeshesAreWellFormed | src/renderer/mesh.rs:42-119 | the triangle and the quad index each of their vertices once, in order, in whole triangles |
| Mesh.QuadIsUnitSquare | src/renderer/mesh.rs:69-119 | every quad vertex faces +Y and lies in the z = 0 plane inside [-1, 1] |
| Model.ModelEqProperties | src/renderer/model.rs:19-26 | a model without meshes equals every model; equality is symmetric and reflexive |
| Model.ModelEqNotTransitive | src/renderer/model.rs:19-26 | because of the zip, equality is not transitive |
| Model.ModelEqIgnoresExtraMeshes | src/renderer/model.rs:19-26 | a model equals any extension of itself |
| Model.FirstWithoutVertices | src/renderer/model.rs:107-113 | the first mesh whose vertices are gone, every mesh before it having them |
| Model.FirstWithoutIndices | src/renderer/model.rs:184-191 | the first mesh whose indices are gone, every mesh before it having them |
| Model.TakeVertices | src/renderer/model.rs:107-113 | the first `n` meshes lose their vertices and the rest are untouched |
| Model.TakeIndices | src/renderer/model.rs:184-191 | the first `n` meshes lose their indices and the rest are untouched |
| Model.Shift | src/renderer/model.rs:188 | each index raised by the offset |
| Model.GatheredVerticesInPlace | src/renderer/model.rs:106-113 | vertex `j` of mesh `k` sits at the vertex count of the meshes before it plus `j` in the combined list |
| Model.GatheredLength | src/renderer/model.rs:106-113 | the combined list is exactly as long as all the meshes' vertices |
| Model.RebasedIndicesInPlace | src/renderer/model.rs:182-191 | index `j` of mesh `k` sits at the index count before it plus `j`, raised by that count |
| Model.RebasedLength | src/renderer/model.rs:182-191 | the combined index list is exactly as long as all the meshes' indices |
| Model.RebasedIndicesAddressOwnVertices | src/renderer/model.rs:182-191 | when every mesh has as many indices as vertices, the rebased indices address each mesh's own vertices in the combined buffer |
| Model.IndexCountRebasingMissesVertices | src/renderer/model.rs:187-190 | a quad of four vertices and six indices followed by a triangle: the triangle's indices become 6, 7, 8, past the seven vertices |
| Model.Model.constructor | src/renderer/model.rs:29-35 | the meshes, and no buffers |
| Model.Model.Draw | src/renderer/model.rs:37-87 | no vertex buffer: the error and nothing recorded; no index buffer: the error after the vertex bind (with its "No vertex buffer found" message); both: the two binds and one indexed draw of the summed index counts |
| Model.Model.UploadVertices | src/renderer/model.rs:100-174 | fails exactly when a mesh has no vertices, having taken those before and including it and touching nothing else; otherwise every mesh's vertices are taken, gathered in order and uploaded through a staging buffer into the existing or a new vertex buffer |
| Model.Model.UploadIndices | src/renderer/model.rs:176-251 | the same for indices, each mesh's raised by the index count before it |
| Model.Model.Upload | src/renderer/model.rs:89-98 | succeeds exactly when every mesh has vertices and indices; a missing vertex list is "No vertices found in mesh" with the buffers and the device untouched; a missing index list after a complete vertex upload is "No indices found in mesh" with only the vertex upload's events; success uploads both, vertex events before index events |
| Model.Model.Cleanup | src/renderer/model.rs:252-259 | the vertex buffer, then the index buffer, destroyed when present |
| Model.TakeAllVertices | src/renderer/model.rs:106-113 | the loop stops at the first missing list and otherwise gathers all vertices |
| Model.TakeAllIndices | src/renderer/model.rs:182-191 | the loop stops at the first missing list and otherwise gathers the rebased indices |
| Model.ShiftIndices | src/renderer/model.rs:188 | the loop computes `Shift` |
| Model.IndicesUntouched | src/renderer/model.rs:96 | taking the vertices does not change what the index upload then sees |
| Obj.VertexAt | src/renderer/plugins/assets/obj.rs:131-154 | the vertex for OBJ index `i`: position from the three floats at 3i, normal from the normals or zero when there are none, colour equal to the normal, texture coordinate from 2i with `v` flipped, or zero |
| Obj.Deindexed | src/renderer/plugins/assets/obj.rs:128-156 | one vertex per index, in index order |
| Obj.SharedIndexSharedVertex | src/renderer/plugins/assets/obj.rs:131-156 | two positions with the same OBJ index get the same vertex |
| Obj.LoadObjFromBytesAsWritten | src/renderer/plugins/assets/obj.rs:118-241 | a parse error is returned and no id is used; otherwise one mesh per OBJ model, in order, with consecutive fresh ids, the de-indexed vertices and, as written, the original indices |
| Obj.KeptIndicesMisdrawQuad | src/renderer/plugins/assets/obj.rs:131-155 | as written, an indexed draw of a de-indexed quad reads its sixth corner from OBJ position 0 instead of position 3 |
| Obj.CornerIndices | src/renderer/plugins/assets/obj.rs:155 | corrected: one index per corner, corner `k` addressing vertex `k` |
| Obj.CornerIndicesDrawEachCorner | src/renderer/plugins/assets/obj.rs:131-155 | corrected: every corner of an indexed draw reads the vertex made for that corner |
| Obj.LoadObjFromBytes | src/renderer/plugins/assets/obj.rs:118-241 | corrected: the same meshes and ids as written, but each with the corner indices |
| Obj.UpdatedEntry | src/renderer/plugins/assets/obj.rs:51-59 | a loaded entry is left alone; an entry ends loaded exactly when it was or the server reports its handle loaded |
| Obj.NextState.constructor | src/renderer/plugins/assets/obj.rs:26 | no state change pending |
| Obj.ObjAssetsLoading.constructor | src/renderer/plugins/assets/obj.rs:41-44 | no entries |
| Obj.ObjAssetsLoading.CheckAllObjModelsLoaded | src/renderer/plugins/assets/obj.rs:46-69 | every entry updated and no entry added or lost; the Loaded state requested exactly when every entry is then loaded, and nothing requested otherwise |
| Obj.LoadedNeverReverts | src/renderer/plugins/assets/obj.rs:52-54 | an entry once loaded stays loaded |
| Obj.EverythingReportedMeansAllLoaded | src/renderer/plugins/assets/obj.rs:46-69 | when the server reports every handle loaded, one pass makes every entry loaded |
| RenderObject.TotalVertices | src/renderer/render_object.rs:172-177 | the summed vertex count is at least the last mesh's count, and 0 without meshes |
| RenderObject.PushData | src/renderer/render_object.rs:72-75 | the push-constant block is a zero `Vec4` followed by the transform |
| RenderObject.SetBinds | src/renderer/render_object.rs:102-144 | sets 0 and 1, and set 2 when the object has a texture, each bound to the material's layout at its own index |
| RenderObject.DrawPlan | src/renderer/render_object.rs:37-183 | the recording is the pipeline part, the push, the sets part, the vertex part and the draw part, in that order |
| RenderObject.DrawPlanPromises | src/renderer/render_object.rs:37-183 | the pipeline bound first when it differs from the last one; the push always; the last material updated only when both model and material changed; failure exactly when a changed model has no vertex buffer, with its message and the last model kept; otherwise the draw of the summed vertex counts at the given instance comes last |
| RenderObject.DrawCache.constructor | src/renderer/render_object.rs:42-43 | nothing drawn yet |
| RenderObject.RecordPipelineAndPush | src/renderer/render_object.rs:49-86 | records the pipeline and push parts |
| RenderObject.RecordSets | src/renderer/render_object.rs:102-144 | records `SetBinds` |
| RenderObject.DrawObject | src/renderer/render_object.rs:37-183 | records what `DrawPlan` says and leaves the cache in its state |
| RenderObject.Kinds | src/renderer/render_object.rs:37-183 | the kind of each recorded command |
| RenderObject.KindsAppend | src/renderer/render_object.rs:37-183 | kinds of a concatenation are the concatenated kinds |
| RenderObject.PlanKinds | src/renderer/render_object.rs:37-183 | the kinds of the recording, part by part |
| RenderObject.SetsPartKinds | src/renderer/render_object.rs:100-147 | the sets part holds only set binds, and some exactly when model and material both changed |
| RenderObject.RecordedBinds | src/renderer/render_object.rs:37-183 | a pipeline bind iff the pipeline changed, always a push, set binds iff model and material changed, a vertex bind iff a changed model has its buffer, a draw iff the call succeeds |
| RenderObject.PlanSucceeds | src/renderer/render_object.rs:150-168 | a draw succeeds exactly when the model is unchanged or has a vertex buffer |
| RenderObject.RedrawRecordsOnlyPushAndDraw | src/renderer/render_object.rs:88-169 | drawing the same object again right after a successful draw that changed the model records only the push and the draw |
| RenderObject.StaleMaterialRebindsPipeline | src/renderer/render_object.rs:51-98 | when the model is unchanged the last material is never updated, so an object whose pipeline differs from it has the pipeline bound again on every draw |
| ArchiveRenderObject.DrawObject | archive/render_object.rs:36-182 | the archived draw records what `RenderObject.DrawPlan` says and leaves the cache in its state |
| ResourcesRenderObject.DrawPlan | src/renderer/resources/render_object.rs:32-134 | the push, then the sets, vertex and draw parts; no pipeline bind |
| ResourcesRenderObject.DrawPlanPromises | src/renderer/resources/render_object.rs:32-134 | the push comes first; failure exactly when a changed model has no vertex buffer, with its message and the last model kept; otherwise the last model updated when it changed and the draw comes last |
| ResourcesRenderObject.ModelCache.constructor | src/renderer/resources/render_object.rs:37 | no model drawn yet |
| ResourcesRenderObject.DrawObject | src/renderer/resources/render_object.rs:32-134 | records what `DrawPlan` says and leaves the cache in its state |
| ResourcesRenderObject.PlanKinds | src/renderer/resources/render_object.rs:32-134 | the kinds of the recording, part by part |
| ResourcesRenderObject.RecordedBinds | src/renderer/resources/render_object.rs:32-134 | never a pipeline bind, always a push, set binds iff the model changed, a vertex bind iff a changed model has its buffer, a draw iff the call succeeds |
| ResourcesRenderObject.RedrawRecordsOnlyPushAndDraw | src/renderer/resources/render_object.rs:61-120 | the same object drawn again after a successful model change records only the push and the draw |
| RenderResources.DrainEvents | src/renderer/render_resources.rs:36-52 | one destroy event per drained key, in drain order |
| RenderResources.MaterialDrainEvents | src/renderer/render_resources.rs:42-44 | two events per drained material |
| RenderResources.DrainHandles | src/renderer/render_resources.rs:36-52 | the drain visits every key once, in some order, and destroys each handle |
| RenderResources.DrainMaterials | src/renderer/render_resources.rs:42-44 | the drain visits every material once and cleans it up |
| RenderResources.CleanupMaterial | src/renderer/material.rs:48-54 | the pipeline layout, then the pipeline, destroyed |
| RenderResources.RenderResources.constructor | src/renderer/render_resources.rs:10-17 | all five maps empty |
| RenderResources.RenderResources.CreateSampler | src/renderer/render_resources.rs:20-33 | fails exactly when the filter already has a sampler, changing nothing; otherwise a sampler with the filter and REPEAT addressing is created and stored under the filter, and no other map changes |
| RenderResources.RenderResources.Cleanup | src/renderer/render_resources.rs:35-53 | models, textures, materials, samplers, then layouts, each drained in some order and destroyed, and every map left empty |
| RenderResources.DrainDestroysEachKeyOnce | src/renderer/render_resources.rs:35-53 | every entry of a drained map is destroyed during the drain |
| ResourcesVertex.GetVertexDesc | src/renderer/resources/vertex.rs:21-57 | one binding with a 36-byte stride, per vertex; three three-float attributes at offsets 0, 12 and 24 |
| ResourcesVertex.VertexLayout | src/renderer/resources/vertex.rs:12-18 | the `#[repr(C)]` layout puts the fields at 0, 12, 24 in 36 bytes |
| ResourcesVertex.VertexDescIsSound | src/renderer/resources/vertex.rs:21-57 | the attributes are disjoint and inside the stride |
| Vertex.GetVertexDesc | src/renderer/vertex.rs:30-73 | one binding with a 44-byte stride, per vertex; position, normal and colour at 0, 12 and 24, the two-float texture coordinate at 36 |
| Vertex.VertexLayout | src/renderer/vertex.rs:20-27 | the `#[repr(C)]` layout puts the fields at 0, 12, 24, 36 in 44 bytes |
| Vertex.VertexDescIsSound | src/renderer/vertex.rs:30-73 | the attributes are disjoint and inside the stride |
| Vertex.DefaultDescription | src/renderer/vertex.rs:14-18 | the default description is `get_vertex_desc`'s, and sound |
| Vertex.AsGpuData | src/renderer/vertex.rs:75-83 | the GPU vertex's colour is opaque |
| Vertex.GpuDataRoundTrip | src/renderer/vertex.rs:75-83 | position, normal, colour and texture coordinate can be read back from the GPU vertex |
| Vertex.GpuVertexLayout | src/renderer/vertex.rs:75-83 | the GPU vertex packs `uv_x` after the position and `uv_y` after the normal, 48 bytes in all |
| Swapchain.MinImageCount | src/renderer/swapchain.rs:81-92 | one more image than the minimum, lowered to the maximum when there is one and it is smaller; a u32, at least 1, never above the maximum, and within [min, max] when min ≤ max |
| Swapchain.MinImageCountIsLargestAllowed | src/renderer/swapchain.rs:81-92 | every count no larger than min + 1 and, when there is a maximum, no larger than it, is at most the chosen count |
| Swapchain.ChooseSharing | src/renderer/swapchain.rs:94-112 | CONCURRENT with the graphics and present families, in that order, exactly when they differ; otherwise EXCLUSIVE with no families; the count always matches the list |
| Swapchain.FirstPreferredIndex | src/renderer/swapchain.rs:190-193 | the first B8G8R8A8_SRGB / SRGB_NONLINEAR entry: it is one, and none comes before it |
| Swapchain.ChooseSurfaceFormat | src/renderer/swapchain.rs:187-196 | that format, taken from the list |
| Swapchain.ChoosePresentMode | src/renderer/swapchain.rs:198-209 | FIFO_RELAXED exactly when listed, FIFO exactly when not |
| Swapchain.Clamp | src/renderer/swapchain.rs:220-229 | `num::clamp`: the value when in range, else the nearer bound |
| Swapchain.ClampIsNearest | src/renderer/swapchain.rs:220-229 | no value in range is nearer than the clamped one |
| Swapchain.ChooseExtent | src/renderer/swapchain.rs:211-232 | the current extent unless its width is u32::MAX; then the window's width and height, each clamped to the surface's minimum and maximum image extent |
| Swapchain.FittingWindowKeepsItsSize | src/renderer/swapchain.rs:211-232 | a window already within the bounds keeps its size |
| Swapchain.ImageViewInfos | src/renderer/swapchain.rs:157-179 | one 2D colour view per image, in order, with the swapchain's format, one level and one layer |
| Swapchain.CollectViews | src/renderer/swapchain.rs:180-184 | succeeds exactly when every view was created, returning them in image order |
| Swapchain.CollectViewsReportsFirstError | src/renderer/swapchain.rs:182 | a failure returns the first creation error |
| VkInit.Bool32 | src/renderer/vkinit.rs:143-152 | TRUE exactly for true and FALSE exactly for false |
| VkInit.DepthStencil | src/renderer/vkinit.rs:137-164 | test and write flags as given; the compare op only with the test on, ALWAYS otherwise; bounds and stencil tests off, bounds [0, 1] |
| VkInit.DisabledTestIgnoresCompareOp | src/renderer/vkinit.rs:153-157 | with the test off, the compare argument makes no difference |
| VkInit.Attachment | src/renderer/vkinit.rs:260-280 | CLEAR exactly when a clear value is given, LOAD otherwise; always STORE; the default clear value when none is given |
| VkInit.SamplerCreate | src/renderer/vkinit.rs:218-230 | one filter for min and mag and one address mode for u, v and w |
| VkInit.SamplerInjective | src/renderer/vkinit.rs:218-230 | different filters or modes give different sampler infos |
| VkInit.SubresourceRangeOf | src/renderer/vkinit.rs:248-258 | the given aspect, mip 0 with one level, layer 0 with one layer |
| VkInit.ImageCreate | src/renderer/vkinit.rs:98-115 | a 2D optimal-tiling image of the given format, usage and extent, one mip level, one layer, one sample |
| VkInit.ImageViewCreate | src/renderer/vkinit.rs:117-135 | a 2D view of the image with that format over `SubresourceRangeOf` the aspect |
| VkInit.DescriptorSetLayoutBinding | src/renderer/vkinit.rs:166-178 | the given binding, type and stages, one descriptor |
| VkInit.WriteDescriptorBuffer | src/renderer/vkinit.rs:180-194 | one buffer descriptor of the given type into the given set and binding |
| VkInit.WriteDescriptorImage | src/renderer/vkinit.rs:232-246 | one image descriptor of the given type into the given set and binding |
| VkInit.Submit | src/renderer/vkinit.rs:205-216 | one command buffer, no wait or signal semaphores |
| VkInit.SeverityLabel | src/renderer/vkinit.rs:303-309 | "[Verbose]", "[Info]", "[Warning]" and "[Error]" for the four single flags, "[Unknown]" for any other value |
| VkInit.TypeLabel | src/renderer/vkinit.rs:310-315 | "[General]", "[Validation]" and "[Performance]" for the three single flags, "[Unknown]" for any other value |
| VkInit.DebugCallback | src/renderer/vkinit.rs:297-320 | the message is prefixed by the two labels, and the callback always returns FALSE |
| VkInit.CombinedSeverityIsUnknown | src/renderer/vkinit.rs:303-309 | a severity with two bits set is labelled "[Unknown]", since the match compares whole values |
| VkInit.SubscribedSeveritiesAreLabelled | src/renderer/vkinit.rs:282-309 | each severity the messenger subscribes to passes its mask and gets a real label |
| Misc.Toggled | src/renderer/plugins/misc.rs:18-19 | 1 exactly when the index was 0, otherwise 0 |
| Misc.ToggleTwice | src/renderer/plugins/misc.rs:18-19 | toggling twice restores an index of 0 or 1; any larger index becomes 0, then 1 |
| Misc.BackgroundSelector.constructor | src/renderer/plugins/misc.rs:15 | the given background index |
| Misc.ChangeBackgroundOnSpace | src/renderer/plugins/misc.rs:13-22 | a Space release this frame toggles the index; otherwise nothing changes |
| Misc.SpaceTwiceRestores | src/renderer/plugins/misc.rs:13-22 | two Space releases restore an index of 0 or 1 |
| Renderer.RustRem | src/renderer/mod.rs:110 | Rust's `%` on signed integers: the remainder takes the dividend's sign and is smaller than the divisor |
| Renderer.NextShader | src/renderer/mod.rs:110 | `(s + 1) % 2`: flips 0 and 1, and stays in {-1, 0, 1} for any other value |
| Renderer.ShaderToggleRestores | src/renderer/mod.rs:108-111 | from 0 or 1 the toggle changes the shader, and a second one restores it |
| Renderer.PipelineIndex | src/renderer/mod.rs:198-210 | pipeline 0 exactly when `selected_shader` is 0, pipeline 1 otherwise |
| Renderer.FrameCommands | src/renderer/mod.rs:174-216 | a frame records the render pass begin, the pipeline bind, a three-vertex draw and the render pass end |
| Renderer.Renderer.constructor | src/renderer/mod.rs:46-79 | frame number 0, shader 0, not destroyed, and the swapchain, command, sync and asset objects queued in that order |
| Renderer.Renderer.Destroy | src/renderer/mod.rs:266-285 | once destroyed, nothing happens; otherwise every queued object is destroyed in the order queued, then the core, and the flag set |
| Renderer.Renderer.Drop | src/renderer/mod.rs:288-292 | dropping destroys what `destroy` has not |
| Renderer.Renderer.DrawFrame | src/renderer/mod.rs:130-240 | an acquire error is returned with nothing recorded; otherwise the frame's commands with the selected pipeline, and the submit's error or the image index |
| Renderer.Renderer.PresentFrame | src/renderer/mod.rs:242-264 | the frame number moves on (modulo 2^32) only when presenting succeeds, whose result is returned |
| Renderer.Renderer.HandleEvent | src/renderer/mod.rs:81-128 | a close request or an Escape release destroys the renderer and exits; a Space release toggles the shader; a redraw records the frame with the old shader's pipeline and moves the frame number on; anything else changes nothing |
| Renderer.NewRenderer | src/renderer/mod.rs:46-79 | succeeds exactly when every part was created; otherwise the first failure, in creation order, is returned |
| Renderer.EscapeThenDrop | src/renderer/mod.rs:266-292 | Escape and then `Drop` destroy every queued object and the core exactly once |
| Inner.FrameSlot | src/renderer/inner.rs:213-215 | the frame used is always a valid index of the `FRAME_OVERLAP` frames |
| Inner.NextFrameNumber | src/renderer/inner.rs:137 | the u32 counter moves on by one, wrapping to 0 after u32::MAX |
| Inner.ConsecutiveFramesAlternate | src/renderer/inner.rs:213-215 | consecutive frame numbers use different frames and every second one the same, across the wrap too |
| Inner.CreateFrames | src/renderer/inner.rs:87-98 | `FRAME_OVERLAP` frames, in order, when all are created; otherwise the first creation error |
| Inner.AddLayout | src/renderer/inner.rs:251-259 | a one-binding layout of the recipe's type and stages stored under its name when created; the creation error and nothing changed otherwise |
| Inner.LayoutsReadyForMaterials | src/renderer/inner.rs:258-278 | after the three layouts are made, the "compute texture", "graphics texture" and "scene buffer" keys that `init_materials` indexes are present, with the layouts made, and no other key is added |
| Inner.InitDescSetLayouts | src/renderer/inner.rs:247-281 | the three layouts created and stored in order, or the first creation error; the other registry maps untouched |
| Inner.AssetData.constructor | src/renderer/inner.rs:119 | the models and textures to load |
| Inner.SamplerEvents | src/renderer/inner.rs:311-313 | one sampler creation with REPEAT addressing per filter created, in order |
| Inner.SamplersGrowBy | src/renderer/inner.rs:311-313 | adding a sampler for a missing filter keeps every sampler the registry had and records that filter as created |
| Inner.MadeTextures | src/renderer/inner.rs:310-322 | the textures stored for the names visited are exactly those whose creation succeeded |
| Inner.MakeReleasesLayout | src/renderer/inner.rs:338-354 | with the corrected `Material.Build` (as written, `build` loses the layout when pipeline creation fails): a failed layout creation records nothing; otherwise the layout ends up in the material or destroyed, every layout created is that one, and a material made is a graphics one |
| Inner.MakeGraphicsMaterial | src/renderer/inner.rs:338-354 | one material block: the device sees `MakeOutcome`'s events and the result is its result |
| Inner.ChainKeeps | src/renderer/inner.rs:355-393 | a material under a name the later blocks do not use is kept |
| Inner.ChainReleasesLayouts | src/renderer/inner.rs:338-393 | with the corrected `Material.Build`: every pipeline layout created by the material blocks is owned by a stored material or destroyed |
| Inner.InitMaterialsSucceedsIffAll | src/renderer/inner.rs:328-396 | `init_materials` succeeds exactly when the three blocks do, and then adds "default", "grid" and "textured", the last a graphics material |
| Inner.EnsureSampler | src/renderer/inner.rs:311-314 | a sampler is created only when the filter has none, after which the filter has one |
| Inner.ProvideSampler | src/renderer/inner.rs:311-314 | the texture's filter ends up with the sampler it keeps for the rest of the loop, and the loop's invariant holds |
| Inner.TakeTexture | src/renderer/inner.rs:311-321 | one texture: its outcome is that of its data and its filter's sampler, and a success is stored |
| Inner.ProgressWithSampler | src/renderer/inner.rs:311-314 | making sure of a sampler keeps the loop's invariant and gives the filter the sampler it will keep |
| Inner.ProgressWithTexture | src/renderer/inner.rs:315-321 | storing a made texture keeps the loop's invariant |
| Inner.DrainTextures | src/renderer/inner.rs:310-322 | the loop succeeds exactly when every texture was taken, and otherwise returns a texture's creation error |
| Inner.RendererInner.constructor | src/renderer/inner.rs:107-116 | frame number 0 with the frames and registry given |
| Inner.RendererInner.DrawFrame | src/renderer/inner.rs:127-140 | the current frame draws; the frame number moves on by one exactly when the draw succeeds, whose result is returned |
| Inner.RendererInner.InitModels | src/renderer/inner.rs:284-302 | the asset models are drained; success exactly when every upload and the quad's succeed, with every model stored under its name and then "quad"; on failure only the models uploaded before it are stored |
| Inner.RendererInner.InitTextures | src/renderer/inner.rs:304-325 | the asset textures are drained; success exactly when every texture can be made; samplers only added, one per new filter; each made texture stored under its name |
| Inner.RendererInner.InitResources | src/renderer/inner.rs:119-125 | models, then textures, then materials: a model failure stops before any texture or material work, a texture failure before any material work, and otherwise the result is the materials' |
| Inner.RendererInner.InitMaterials | src/renderer/inner.rs:328-396 | the three blocks in order over the registry's layouts; nothing but the materials and the device change |
| Inner.NewRendererInner | src/renderer/inner.rs:57-117 | succeeds exactly when the three layouts and both frames are created; then frame number 0, the frames in order, exactly the three layouts, and every other registry map empty |

## Left out

- Foreign calls that the model records only as trace events are assumed to succeed.
- RenderResources.RenderResources.CreateSampler: the device's own `create_sampler` failure (`?` at src/renderer/render_resources.rs:30) is not modelled. Only the existing-filter error is.
- Swapchain.MinImageCount: requires `min_image_count + 1` to fit in a u32. The source's addition overflows at `u32::MAX`.
- Swapchain.ChooseSurfaceFormat: requires that a preferred format is listed, where the source panics on `unwrap`.
- Swapchain.FirstPreferredIndex: the same requirement as `ChooseSurfaceFormat`.
- Swapchain.ChooseSharing: requires both queue families when they differ, where the source panics on `unwrap`.
- The device calls of `Swapchain::new` and `destroy` are not modelled, other than one image view per image in order.
- RenderObject.DrawPlan: requires the buffer offsets to be set and long enough when sets are bound, where the source panics on `unwrap` or indexing.
- ResourcesRenderObject.DrawPlan: the same requirement as `RenderObject.DrawPlan`.
- Model.Shift: the u32 addition `*i += offset` (src/renderer/model.rs:188) is over unbounded naturals; its overflow is not modelled.
- Model.RebasedIndices: the u32 running offset and the `as u32` index count (src/renderer/model.rs:187-190) are unbounded naturals; their overflow is not modelled.
- Model.Model.UploadIndices: the same u32 overflow as `Model.RebasedIndices` is not modelled.
- Model.ShiftIndices: the same u32 overflow as `Model.Shift` is not modelled.
- Model.Model.Draw: the u32 `sum()` of the index counts (src/renderer/model.rs:46) is an unbounded natural; its overflow is not modelled.
- Egui.DrawPrimitive: the running bases are an i32 vertex base fed by `len() as i32` and a u32 index base (src/renderer/egui.rs:289-290). The model keeps both as unbounded naturals, so the truncating cast and the i32 and u32 overflow are not modelled.
- Egui.RecordDraws: the same unbounded bases as `Egui.DrawPrimitive`.
- Egui.DrawRecorded: the same unbounded bases as `Egui.DrawPrimitive`.
- Egui.BasesAdvance: the same unbounded bases as `Egui.DrawPrimitive`.
- ResourcesRenderObject.DrawObject: `super::model::Model` (src/renderer/resources/render_object.rs:9-10) is not part of this model. Its model-change test is assumed to use the same zip equality as src/renderer/model.rs:19-26 (`RenderObject.SameModel`).
- Egui.MeshCommands: the `cmd_set_scissor` and `cmd_set_viewport` commands recorded for every drawn mesh (src/renderer/egui.rs:222-274) are not in the command trace, so the recorded commands of `Egui.EguiRenderer.DrawEgui` leave them out.
- RenderObject.TotalVertices: the `as u32` truncation and the overflow of the u32 sum are not modelled. Counts are unbounded naturals.
- Renderer.Renderer.HandleEvent: a redraw requires the acquire, submit and present results to be `Ok`, because the source unwraps them (src/renderer/mod.rs:116-118). The unwrapped fence wait in `destroy` (src/renderer/mod.rs:274-279) is not modelled.
- Renderer.NextShader: models Rust's truncating `%` on any i32. The i32 overflow of `selected_shader + 1` at `i32::MAX` is not modelled; the field stays in {0, 1}.
- Inner.NextFrameNumber: the u32 frame counter wraps to 0 after `u32::MAX`, as in a release build. A debug build would panic there instead.
- `default_sampler` (src/renderer/render_resources.rs:55-62) is private and never called, so it is not modelled.
- Model cleanup inside `RenderResources::cleanup` is one destroy event per model. The buffers inside each model are not traced there.
- HashMap iteration order is not modelled: drains and cleanups visit the keys in some order, which the proofs leave unconstrained.
- `RendererInner::new` also creates a command pool and a background texture (src/renderer/inner.rs:84-85, 100-105). These are foreign device calls and are not modelled. `RendererInner::cleanup` (src/renderer/inner.rs:142) is not modelled either.
- The background index that `plugins/misc.rs` reads and writes has no accessor in the renderer, so it is a field of a small `BackgroundSelector` class.
- Material.Build: corrects only the lost layout. A shader that `build` has taken out of the builder is not cleaned up when the layout is missing or pipeline creation fails. The definition of `GraphicsShader` is not part of this model, so whether dropping the shader frees its modules is not known here. The model records nothing for them on those paths, as written and in the corrected build alike.
- The device calls of `EguiRenderer::new` (buffers, pipeline, descriptors) are not modelled.
- Floating point is not modelled in these places: the flash colour (src/renderer/mod.rs:166), the egui scissor and viewport math (src/renderer/egui.rs:147-156, 222-274), the f32 rounding of the descriptor pool `ratio * max_sets` (computed over exact reals, then cast), the camera matrices and frame timing. Texture coordinates are reals.
- `RwLock`/`Mutex` poisoning and concurrency are not modelled. The mesh id counter is a plain counter field.
- These files are not part of this model:
  - frames, upload contexts, command and sync objects, images, memory and textures;
  - render pass and pipeline objects;
  - shader loading, `image::open` and the `tobj` parser;
  - the app, window and ECS plugin wiring, the camera and plain data declarations;
  - the obsolete `vk_initializers.rs`, which duplicates `vkinit.rs` and does not type-check.
- `c_char_to_string` and the message read in `debug_callback` dereference C strings. They are not modelled; the debug labels are.
- build.rs file reads and writes, the directory walk's I/O and shaderc compilation are not modelled. The parser works over a sequence of lines and the naming over (directory, stem, extension).

## Findings

| source | as written | input that shows it | evidently intended | confidence | as-written member | corrected member |
|---|---|---|---|---|---|---|
| src/renderer/material.rs:320-368 | `build` takes the pipeline layout out of the builder, then returns early with `?` when `create_graphics_pipelines` fails. The layout is neither in the result nor destroyed, and the builder's `Drop` no longer holds it. | a builder holding a shader and a layout, whose pipeline creation fails | the layout is destroyed on that path, as `Drop` would have done (`Material.BuildReleasesLayout`) | not executed | Material.BuildAsWritten | Material.Build |
| src/renderer/egui.rs:298-325 | The vertex stride is 20 bytes, with location 1 an R8G8B8A8 attribute at offset 8 and location 2 an R32G32 attribute at offset 16. Location 2 therefore reads bytes 16 to 24, past the end of the vertex (`Egui.ColorAttributeOverrunsStride`). | the description as written, with no other input | the texture coordinate (two floats) at offset 8 and the colour (four bytes) at offset 16, where `epaint::Vertex` stores them; every attribute then lies inside the stride (`Egui.VertexDescCoversVertex`) | not executed | Egui.GetVertexDescAsWritten | Egui.GetVertexDesc |
| src/renderer/egui.rs:218-219 | Every mesh's vertices and indices are written at element 0 of the shared buffers, while the indexed draw of each mesh reads from the accumulated vertex and index bases. | two meshes of three indices each: the second draw reads indices 3 to 5, which the writes never touched (`Egui.WritesAtZeroMissTheDraw`) | each mesh is written at the bases its draw uses, that is at byte offset `base * size_of::<T>()` of each buffer (`Egui.EveryDrawReadsItsOwnMesh`) | not executed | Egui.PlaceAtZero | Egui.PlaceAtBases |
| src/renderer/plugins/assets/obj.rs:131-155 | The loader de-indexes each mesh, making one vertex per corner, but then stores the parsed index list unchanged. An indexed draw of corner `k` therefore reads the vertex made for corner `indices[k]`, not the one made for corner `k`. | a quad parsed as four positions with indices [0, 1, 2, 0, 2, 3]: the sixth corner is drawn from position 0 instead of position 3 (`Obj.KeptIndicesMisdrawQuad`) | the index list numbers the corners 0 to n-1, so each corner is drawn from its own vertex (`Obj.CornerIndicesDrawEachCorner`) | not executed | Obj.LoadObjFromBytesAsWritten | Obj.LoadObjFromBytes |
