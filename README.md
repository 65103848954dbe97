# gfx: a verified model of the renderer's bookkeeping

gfx is a small Vulkan renderer (C++ over Vulkan, GLFW, ImGui and assimp)
together with a set of test programs under `tests/`. Most of its code
fills in structures for foreign APIs. Beneath those calls sit a few
small integer rules, and this project states those rules in Dafny and
proves them:

- **Mesh merging** (`MeshMerge`). `create_mesh` in graphics.cc and in
  tests/shared.h, and `load_mesh` in tests/shadows.h, are three copies of
  one algorithm. Each flattens the sub-meshes of an imported model into one
  vertex array and one index array. It counts first, allocates exactly
  that much, and then appends. Each sub-mesh's face indices are shifted by
  the number of vertices appended before it (the *index base*). The copies
  differ only in the V flip of texture coordinates: `-v` in graphics.cc,
  `1 - v` in the other two. `UVFlip` picks one.
- **Transforms** (`Transforms`): the default transform, and reading a
  transform from a scene description.
- **Input** (`Input`): the GLFW key and mouse-button callbacks, which keep
  one "held" flag per key and button, and the shift/control speed
  modifier.
- **Frame pacing** (`FramePacing`). There are two versions of the
  frames-in-flight bookkeeping:
  - the `frame_state` of tests/shared.h, whose per-image table holds fences
    with `VK_NULL_HANDLE` as "unset";
  - the `frame_sync` of tests/shadows.h, whose table holds frame indices
    with `CTK_U32_MAX` as "unset".

  Both advance a ring index after each frame. Fence waits, resets,
  submissions and presents become events appended to a log.
- **Scenes**. `ShadowScene` covers tests/shadows.h and `LightingScene`
  covers tests/lighting.h. Each keeps its entities and lights (and, in
  `ShadowScene`, its materials) in parallel fixed-capacity arrays that grow
  in lockstep. `LightingScene`
  also has the attenuation table and the keyboard controls: view mode and
  editing of the selected transform.
- **Device set-up** (`DeviceSetup`), from tests/barriers.h:
  - the validation-layer message callback;
  - the "last qualifying family" choice of the graphics and present queue
    families;
  - the one- or two-entry queue-create list;
  - the extension and layer lists of instance creation.
- **Descriptor configuration** (`DescriptorConfig`). This covers the
  descriptor and descriptor-set loops of `gfx_create_vulkan_state`:
  - the shader-stage mask as the OR of the listed stages;
  - the dispatch on descriptor type, with a fatal default;
  - the per-set instance count.

Conventions:

- ctk's fixed-capacity arrays are `Common.BoundedArray`. Appending to a
  full array is a precondition violation.
- `CTK_FATAL` and a failed `CTK_ASSERT` end the process. The model returns
  `Failure(...)` or `Fatal(...)` instead, carrying the reason.
- `u32` is a 32-bit newtype. Adding the index base to a face index wraps
  explicitly (`MeshMerge.WrapAdd`). For the vertex and index totals the
  model requires that they fit in 32 bits (see "## Left out").
- Float fields are exact reals.
- Vulkan handles are naturals, with 0 as `VK_NULL_HANDLE`.
- What a Vulkan, GLFW or assimp call would report is passed in as a
  parameter:
  - the imported scene;
  - queue-family properties and present support;
  - physical devices;
  - the created semaphores and fences;
  - the GLFW-required extensions.

## Model

| member | source | states |
|---|---|---|
| `Transforms.DefaultTransform` | tests/shared.h:129-131 | the default transform has zero position, zero rotation and unit scale (also `DEFAULT_TRANSFORM`, tests/shadows.h:1132) |
| `Transforms.LoadTransform` | tests/shared.h:133-146 | each of position, rotation and scale comes from the data when that key is present; otherwise it is the default transform's |
| `Transforms.LoadTransformOfNothing` | tests/shared.h:134 | data with none of the three keys yields exactly the default transform |
| `Transforms.LoadTransformIndependent` | tests/shared.h:136-144 | each property depends only on its own key: two inputs that agree on one key give transforms that agree on that property |
| `MeshMerge.MergedVertexes` | graphics.cc:72-94 | the merged vertex sequence (all sub-meshes' converted vertices, in order) has exactly the total vertex count |
| `MeshMerge.RebaseFaces` | graphics.cc:95-102 | the faces of one sub-mesh contribute exactly as many indices as their faces have |
| `MeshMerge.MergedIndexes` | graphics.cc:72-103 | the merged index sequence has exactly the total face-index count |
| `MeshMerge.CountMesh` | tests/shared.h:173-181 | the two u32 counting loops end with the sum of every sub-mesh's vertex count and the sum of every face's index count (the same loops are graphics.cc:55-65 and tests/shadows.h:372-379) |
| `MeshMerge.AppendVertexes` | tests/shadows.h:387-401 | appending one sub-mesh's vertices keeps the capacity and adds exactly that sub-mesh's converted vertices after the existing ones; no append exceeds capacity |
| `MeshMerge.AppendFaces` | tests/shadows.h:402-406 | appending one sub-mesh's faces keeps the capacity and adds, after the existing indices, every face index in order, each plus the index base in u32 arithmetic; no append exceeds capacity |
| `MeshMerge.CreateMesh` | graphics.cc:31-119 | the process stops exactly when the import returned no scene, no root node or an incomplete scene; otherwise the capacities equal the totals and the two arrays are exactly the merged vertices and merged indices, so the final counts equal the precomputed totals (tests/shared.h:152-228 and tests/shadows.h:361-423 are the same algorithm with the other UV flip) |
| `MeshMerge.MergedVertexAt` | graphics.cc:72-94 | vertex v of sub-mesh k is at position (vertices of sub-meshes before k) + v and is that vertex converted, so source order is kept |
| `MeshMerge.MissingTexCoordsGiveZeroUV` | graphics.cc:85-88 | every vertex from a sub-mesh without a texture-coordinate channel has UV (0, 0) |
| `MeshMerge.RebaseFacesAt` | graphics.cc:95-101 | index j of face f of a sub-mesh sits after the indices of faces 0 .. f-1 and holds the original index plus the base |
| `MeshMerge.MergedIndexAt` | graphics.cc:75-101 | index j of face f of sub-mesh k lands after all indices of earlier sub-meshes and earlier faces, and equals the original index plus the number of vertices of sub-meshes 0 .. k-1 |
| `MeshMerge.RebaseFacesBounds` | graphics.cc:100 | if a sub-mesh's face indices are below its vertex count n and base + n fits in 32 bits, every rebased index lies in [base, base + n) |
| `MeshMerge.MergedIndexesInRange` | graphics.cc:75-100 | if every face index is below its own sub-mesh's vertex count, every merged index is below the merged vertex count |
| `Input.HeldUnlessReleased` | graphics.cc:21 | of GLFW's three actions, the flag is set for PRESS and REPEAT and cleared only for RELEASE |
| `Input.InputState.constructor` | graphics.h:30-33 | one flag per key up to GLFW_KEY_LAST and per button up to GLFW_MOUSE_BUTTON_LAST, all starting cleared |
| `Input.InputState.KeyCallback` | graphics.cc:17-22 | as written: the addressed key's flag becomes true iff the action is PRESS or REPEAT, and no other key changes; the key must be a valid index |
| `Input.InputState.KeyCallbackChecked` | tests/shadows.h:45-48 | the corrected form of this callback (which, like graphics.cc:21, stores without a range check): the same update for keys with a flag, while an out-of-range key (such as GLFW_KEY_UNKNOWN) changes nothing |
| `Input.InputState.MouseButtonCallback` | graphics.cc:24-29 | the addressed button's flag becomes true iff the action is PRESS or REPEAT, and no other button changes (tests/shadows.h:50-53 is the same) |
| `Input.UnknownKeyIsNoIndex` | graphics.cc:21 | GLFW_KEY_UNKNOWN (-1) is not an index of the key array |
| `Input.SpeedModifier` | tests/shared.h:411-413 | the modifier is 4 iff shift is held, 1 iff control but not shift is held, and 2 iff neither is held; shift wins over control (the same rule is lighting.h:1010-1012 and shadows.h:1643-1645) |
| `FramePacing.NextFrameIndex` | tests/shared.h:528 | the next frame index is always below the frame count |
| `FramePacing.NextFrameAgrees` | tests/shadows.h:2093 | the shadows test's "wrap at frame_count - 1, else increment" equals (i + 1) mod count for every index in range |
| `FramePacing.CycleTimes` | tests/shared.h:526-529 | any number of cycles keeps the index below the frame count |
| `FramePacing.CycleTimesAdditive` | tests/shared.h:528 | cycling a + b times is cycling a times and then b times |
| `FramePacing.CycleTimesBeforeWrap` | tests/shared.h:528 | before the ring wraps, each cycle moves one frame on |
| `FramePacing.CycleReturnsToStart` | tests/shared.h:526-529 | after as many cycles as there are frames, the index is back where it started |
| `FramePacing.CollectCommandBuffers` | tests/shared.h:487-488 | exactly one command buffer per render pass is collected, in order, each that pass's buffer for the swapchain image |
| `FramePacing.FrameState.constructor` | tests/shared.h:316 | the frame state starts at frame 0 with every image's previous fence `VK_NULL_HANDLE`, meaning no frame has rendered to it yet |
| `FramePacing.FrameState.SynchronizeCurrentFrame` | tests/shared.h:460-473 | a wait on the image's previous fence is logged iff that entry was not null; the current frame's fence is then reset; the entry becomes the current frame's fence and no other entry changes |
| `FramePacing.FrameState.SubmitRenderPasses` | tests/shared.h:475-524 | one submission is logged, waiting on the frame's image-acquired semaphore, with the collected command buffers, signalling its render-finished semaphore and fence; then a present is logged that waits on the render-finished semaphore for the image |
| `FramePacing.FrameState.CycleFrame` | tests/shared.h:526-529 | the current frame becomes (old + 1) mod frame count, and the state stays valid |
| `FramePacing.FrameSync.constructor` | tests/shadows.h:266-273 | the frame-sync record starts zeroed: arrays empty, current frame and frame count 0 |
| `FramePacing.FrameSync.InitFrameSync` | tests/shadows.h:905-930 | frame_count is set to the image count, and the assertion fails iff that exceeds the arrays' capacity of 4; otherwise each frame holds the objects created for it, every image's previous frame is U32_MAX, and the record satisfies its invariant |
| `FramePacing.FrameSync.SyncFrame` | tests/shadows.h:1666-1672 | a wait on the previous frame's fence is logged iff the image's entry is not U32_MAX; the current fence is then reset; the entry becomes the current frame and no other entry changes |
| `FramePacing.FrameSync.CycleFrame` | tests/shadows.h:2092-2094 | the current frame wraps from frame_count - 1 to 0 and otherwise increments, which equals (old + 1) mod frame_count; it stays below frame_count |
| `ShadowScene.Scene.constructor` | tests/shadows.h:1113-1130 | a new scene has empty entity, light and material arrays and satisfies the parallel-array invariant |
| `ShadowScene.Scene.PushEntity` | tests/shadows.h:1134-1141 | fatal, with nothing changed, iff 1024 entities exist; otherwise `entities`, `entity.transforms` and `entity.model_ubos` grow by one each, the new transform is the default one and nothing else changes |
| `ShadowScene.Scene.PushLight` | tests/shadows.h:1143-1156 | fatal, with nothing changed, iff 16 lights exist; otherwise the four light arrays grow together, with the default transform, a white point-light ubo with normal bias 16 and ambient 0.3, and attenuation row 3 |
| `ShadowScene.Scene.PushMaterial` | tests/shadows.h:1158-1166 | fatal, with nothing changed, iff 16 materials exist, and the message speaks of lights and MAX_LIGHTS; otherwise one material with the given name and one ubo with shine exponent 2 are appended |
| `LightingScene.Scene.constructor` | tests/lighting.h:42-52 | a new scene is empty and its parallel arrays agree in length |
| `LightingScene.Scene.PushEntity` | tests/lighting.h:135-138 | one matrix ubo and one keyed (zeroed) entity are appended, so the entity map and the matrix array keep equal counts |
| `LightingScene.Scene.PushLight` | tests/lighting.h:140-145 | the matrix ubos, attenuation indexes, transforms and lights each grow by one, storing the given attenuation index and the default transform |
| `LightingScene.Scene.SetAttenuationValues` | tests/lighting.h:728-733 | the assertion fails iff the row is 12 or more; otherwise that row of the table becomes the light's linear and quadratic factors and nothing else changes |
| `LightingScene.ViewMode` | tests/lighting.h:995-998 | F1 always selects COMPOSITE; with none of F1 .. F4 held the mode is unchanged, and it changes only when one is held |
| `LightingScene.FirstHeld` | tests/lighting.h:995-998 | the first held key is held and every key before it is not; no result means no key is held |
| `LightingScene.ViewModeIsFirstHeldKey` | tests/lighting.h:995-998 | the new view mode is that of the first held key among F1 .. F4, so earlier keys take precedence |
| `LightingScene.WithProperty` | tests/lighting.h:1007-1009 | the property the transform mode selects (translate → position, rotate → rotation, else scale) gets the new value and the other two stay |
| `LightingScene.Nudge` | tests/lighting.h:1016-1021 | L adds and J subtracts on X, U adds and O subtracts on Y, I adds and K subtracts on Z; an axis with neither of its keys held is unchanged |
| `LightingScene.EditTransform` | tests/lighting.h:1004-1021 | only the selected property of the transform moves, by the mode's step times the speed modifier |
| `LightingScene.NoEditKeysNoEdit` | tests/lighting.h:1016-1021 | with no editing key held, the transform is unchanged |
| `LightingScene.State.constructor` | tests/lighting.h:64-90 | the state starts with an empty scene, entity mode, translation and the composite view |
| `LightingScene.State.Controls` | tests/lighting.h:990-1022 | the view mode is set from F1 .. F4; in entity mode only the selected entity's transform is edited, otherwise only the selected light's; the selection and all other arrays are unchanged |
| `DeviceSetup.DebugCallback` | tests/barriers.h:64-75 | stops iff the error bit is set, whatever else is set; otherwise it logs a warning iff the warning bit is set and info otherwise, with the formatted "VALIDATION LAYER [id]: message" text; it always returns VK_FALSE |
| `DeviceSetup.DeliveredSeverities` | tests/barriers.h:158-161 | the messenger leaves out info messages, so of every severity it delivers, exactly the verbose one is logged as information |
| `DeviceSetup.InstanceCreateRequest` | tests/barriers.h:154-173 | the extensions are the GLFW-required ones followed by the debug-utils extension; the only layer is the standard validation layer; plus the messenger's severity and type masks |
| `DeviceSetup.FindQueueFamilies` | tests/barriers.h:103-111 | the graphics family is the last family with the graphics bit and the present family is the last with present support; each is 0 when none qualifies |
| `DeviceSetup.DefaultQueueCreateInfo` | tests/barriers.h:77-88 | one queue at priority 1.0 from the given family, with the queue-create structure type and no flags |
| `DeviceSetup.QueueCreateInfos` | tests/barriers.h:116-119 | one entry when present equals graphics and two otherwise; graphics comes first, present is included, and the families are distinct |
| `DeviceSetup.CreateDevice` | tests/barriers.h:90-139 | the first physical device is used; the families are as above; the queue-create list has one default entry per distinct family, graphics first and present included; device creation asks for the swapchain extension and no layers; queue 0 of the graphics and present families is fetched |
| `DescriptorConfig.OrAllCovers` | graphics.cc:376-380 | every listed stage bit is in the mask |
| `DescriptorConfig.OrAllLeast` | graphics.cc:376-380 | the mask holds no other bit: it lies within any mask that holds every listed stage |
| `DescriptorConfig.ShaderStageMask` | graphics.cc:376-380 | the loop yields the OR of the listed stage bits: 0 for an empty list, and every listed bit included |
| `DescriptorConfig.DescriptorInfoFor` | graphics.cc:382-398 | a type other than uniform, dynamic uniform or combined image sampler is fatal; otherwise type, mask and count are copied, and the resource is the named uniform buffer iff the type is a uniform-buffer type and the named texture iff it is a combined image sampler |
| `DescriptorConfig.LoadDescriptorInfos` | graphics.cc:368-399 | fatal iff some descriptor has an unhandled type; otherwise the map holds, in order, each descriptor's key and its info |
| `DescriptorConfig.LoadDescriptorSetInfos` | graphics.cc:401-420 | the set map holds, in order, each set's key; its instance count is the frame count when its type is "dynamic" and 1 otherwise; its bindings are kept in order |

## Left out

- The Vulkan, GLFW, ImGui, assimp and stb_image calls. These are foreign
  APIs. Their results are parameters, and GPU work is recorded only as log
  events. Waiting on the GPU and concurrency with it are not modelled.
- Copying the merged arrays into device memory (graphics.cc:105-113) and
  releasing the import. This is foreign-API work.
- Float rounding. Floats are exact reals, so the 32-bit float constants of
  the attenuation table are their decimal values.
- glm matrix math, `camera_controls` translation and rotation, mouse deltas
  and the view and projection matrices. This is float and matrix work. Only
  the camera's speed-modifier rule is modelled.
- sync_shaders.js. It deletes old `.spv` files and launches the shader
  compiler, which is file-system and process I/O.
- The render-pass, pipeline, vertex-layout and descriptor-write set-up of
  `gfx_create_vulkan_state`, and of tests/depth_peeling.h,
  tests/transparency.h, tests/stencil.h, tests/default.h and tests/lighting.h.
  These only fill in foreign-API structures.
- Parsing of ctk data files and ctk's name lookups (`ctk::At` on the
  uniform-buffer, texture and descriptor maps). Parsed values are inputs: a
  descriptor's resource and a binding's descriptor are kept as the names
  they are looked up by.
- The vtk helpers that translate type and stage names to Vulkan values.
  Their results are inputs.
- gfx.h and graphics.h hold declarations only. main.cc and test.cc are
  entry points.
- Swapchain image acquisition. The swapchain image index is an input.
- The application-info and surface set-up of `init_vk`. They make no
  decisions.
- The ImGui controls that change the selection and the attenuation row.
  They are UI.
- `MeshMerge.CreateMesh` and `MeshMerge.CountMesh`: require the vertex and
  index totals to fit in 32 bits. The source's u32 counters would wrap
  beyond that and under-allocate; the model does not capture that wrap.
- `MeshMerge.MergedIndexes`: requires the vertex total to fit in 32 bits,
  so that every index base is a u32.
- `Input.InputState.KeyCallback`: requires the key to be a valid index. The
  source does not check it (see Findings).
- `Input.InputState.MouseButtonCallback`: requires the button to be in
  range. GLFW reports only buttons 0–7.
- `LightingScene.Scene.PushEntity`: requires room in the arrays. The source
  relies on ctk's push, which is not part of this model.
- `LightingScene.Scene.PushLight`: requires room in the arrays. The source
  relies on ctk's push.
- `LightingScene.State.Controls`: requires the selected entity or light to
  exist. The source indexes the array without checking.
- `FramePacing.FrameSync.InitFrameSync`: requires a non-zero image count
  and one set of created objects per image. A swapchain has at least one
  image.
- `FramePacing.FrameState.SubmitRenderPasses`: requires at most 4 render
  passes, the capacity of its command-buffer array.
- `DeviceSetup.CreateDevice`: requires at least one and at most 8 physical
  devices and at most 8 queue families, the capacity of the enumeration
  arrays. The source reads element 0 without checking.
- `DeviceSetup.InstanceCreateRequest`: requires fewer than 8 GLFW
  extensions, so that the debug-utils extension fits in the array.
- `DescriptorConfig.LoadDescriptorInfos` and
  `DescriptorConfig.LoadDescriptorSetInfos` require at most 8 entries, the
  capacity of their maps. The source pushes the descriptor info before it
  checks the type. Since an unhandled type stops the process, the model
  returns the failure without that entry.
- `LightingScene.Scene.PushEntity`, `LightingScene.Scene.PushLight` and
  `ShadowScene.Scene.PushLight` store every field the source does not set
  as zero. The source pushes a slot of zero-allocated state, which is zero
  the first time it is used; after a slot is reused it may not be.
- `FramePacing.FrameState.constructor` starts with every image's previous
  fence null and frame 0. The frame state is made by a library call
  (`vtk::create_frame_state`) that is not part of this model; the all-null
  start is assumed of it.

The ShadowScene `PushEntity` ignores its name argument and stores no name.
The fatal message of `PushMaterial` cites lights and `MAX_LIGHTS`. Both are
modelled as the source has them. The two constants are both 16, so the
limit is the same.

## Findings

| source | as written | input that shows it | evidently intended | confidence | as-written member | corrected member |
|---|---|---|---|---|---|---|
| graphics.cc:21 | the key callback stores into `KeyDown[Key]` without a range check (the same at tests/shadows.h:47) | a key GLFW has no code for is reported as GLFW_KEY_UNKNOWN (-1), which writes before the start of the array | keys outside the array are ignored | medium, not executed | `Input.InputState.KeyCallback` (with `Input.UnknownKeyIsNoIndex`) | `Input.InputState.KeyCallbackChecked` |
