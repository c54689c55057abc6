# Outline post-process: a Dafny model

This project models the core of a screen-space outline effect for Unity's Universal Render Pipeline. The effect has three parts:

- **The outline volume settings.** This is a volume component with 30 float parameters and one enum, the reference resolution. Each float is unconstrained, at least 0, or clamped to [0, 1]. The component also has colours, flags and textures, an `IsActive` gate, and a resolution enum whose values are pixel heights.
- **The outline render pass.** This is a render pass with four methods:
  - camera setup loads the compute shader lazily, derives two working-texture descriptors from the camera's and reallocates the textures when the descriptor changed, then sizes the dispatch grid;
  - `Execute` records the frame: keyword toggles and uniform uploads, the edge-detection dispatch, the draw dispatch and the final blit;
  - `Dispose` releases the source and the edge target;
  - `Setup` declares the camera buffers the pass needs.
- **The enqueue component.** It subscribes to the pipeline's begin-camera-rendering event. For each camera that passes its filter, it places the pass at the configured event plus offset and enqueues it on the camera's renderer.

The model has five modules.

- `Engine` (engine.dfy) holds the host-engine vocabulary the pass relies on:
  - render-texture descriptors and camera types;
  - a handle class for render textures;
  - the reallocate-if-needed slot contract;
  - unchecked 32-bit wrap-around.
- `VolumeSettings` (settings.dfy) holds:
  - the settings record as a datatype;
  - each float parameter's declared range, through a `FloatParam` selector with `Get`/`Set`;
  - the validity predicate, the defaults and the gate;
  - a small `OutlineVolume` class. It stands for the component object whose values the volume system overrides, clamping each written value into its declared range.
- `Frame` (frame.dfy) gives the commands `Execute` records for an active frame as a pure function, `FrameCommands`. It also gives the tables those commands must agree with:
  - `ExpectedUpload` maps each float uniform to its value;
  - `ExpectedColor` maps each colour uniform to its value;
  - `ExpectedBinding` maps each slot of each kernel to the texture bound there;
  - `KeywordOn` maps each shader keyword to its state.

  Five projections read a command list back: `GpuWork`, `KeywordAfter`, `UploadedValue`, `ColorValue` and `BoundTexture`. The lemmas connect the command list to the tables through these projections.
- `OutlinePass` (outline_render_pass.dfy) holds the `OutlineRenderPass` class, its group-count function and its descriptor functions.
- `Enqueue` (enqueue.dfy) holds:
  - the camera filter;
  - the `EnqueueOutlinePass` component;
  - the renderer's pass queue and the pipeline manager's event, each reduced to what the component touches.

Keyword switching is immediate and global in the source. It is modelled as `SetKeyword` entries placed in the frame's command list in the order they happen. The state a keyword ends in is the last toggle of it.

Three behaviours of the code shape the model:

- **A missing shader.** Camera setup ignores the result of loading the shader. After both textures have been reallocated, it looks up the kernels on the null shader, and that lookup throws. `Execute` throws at its first kernel texture binding on the null shader, before any GPU work. The model returns `ShaderMissing` and `Faulted` at those points.
- **What `Dispose` releases.** It releases the last camera colour handle used as `source`, and the edge target. It neither releases nor forgets the draw target.
- **The cached settings.** What is cached is a reference to the component object. The values behind it are read fresh every frame, so a later override through `OutlineVolume.Override` is seen.

## Model

All source paths below are under `Packages/outlines-v1.0.0/OccaSoftware-outlines-17a1be18c482ea6cdc0c9c74ff6bd89bfda1950e/Runtime/`, written out in full in the table.

| member | source | states |
|---|---|---|
| Engine.WrapInt32 | Packages/outlines-v1.0.0/OccaSoftware-outlines-17a1be18c482ea6cdc0c9c74ff6bd89bfda1950e/Runtime/EnqueueOutlinePass.cs:39 | The event-plus-offset sum wraps into the 32-bit range. It is congruent to the exact sum modulo 2^32, and equals the exact sum whenever that fits. |
| Engine.ReAllocateIfNeeded | Packages/outlines-v1.0.0/OccaSoftware-outlines-17a1be18c482ea6cdc0c9c74ff6bd89bfda1950e/Runtime/OutlineRenderPass.cs:55-69 | A slot is reallocated exactly when it is empty or was made for another descriptor; the old handle is then released and a fresh named handle takes its place. Otherwise the slot and its handle are untouched. Afterwards the slot always matches the descriptor. |
| VolumeSettings.PixelHeight | Packages/outlines-v1.0.0/OccaSoftware-outlines-17a1be18c482ea6cdc0c9c74ff6bd89bfda1950e/Runtime/OutlineVolumeSettings.cs:157-164 | A reference resolution's value is 0 exactly for `Disabled`; every other value is a pixel height between 720 and 2160. |
| VolumeSettings.PixelHeightRoundTrip | Packages/outlines-v1.0.0/OccaSoftware-outlines-17a1be18c482ea6cdc0c9c74ff6bd89bfda1950e/Runtime/OutlineVolumeSettings.cs:157-164 | Each enum value is recovered from its pixel height, and a height maps back to a value exactly when it is that value's height: the enum values are distinct. |
| VolumeSettings.Clamp | Packages/outlines-v1.0.0/OccaSoftware-outlines-17a1be18c482ea6cdc0c9c74ff6bd89bfda1950e/Runtime/OutlineVolumeSettings.cs:15-18 | A value written to a ranged parameter lands in its range, is kept when already inside it, and is otherwise the nearest point of the range. |
| VolumeSettings.RangeOf | Packages/outlines-v1.0.0/OccaSoftware-outlines-17a1be18c482ea6cdc0c9c74ff6bd89bfda1950e/Runtime/OutlineVolumeSettings.cs:15-133 | Every declared range is non-empty. |
| VolumeSettings.Default | Packages/outlines-v1.0.0/OccaSoftware-outlines-17a1be18c482ea6cdc0c9c74ff6bd89bfda1950e/Runtime/OutlineVolumeSettings.cs:12-142 | The defaults lie within every declared range. They are inactive, because the colour is opaque black but the maximum thickness is 0. The reference resolution defaults to 1080. |
| VolumeSettings.ValidParamInRange | Packages/outlines-v1.0.0/OccaSoftware-outlines-17a1be18c482ea6cdc0c9c74ff6bd89bfda1950e/Runtime/OutlineVolumeSettings.cs:15-133 | In valid settings each float parameter lies in its declared range. |
| VolumeSettings.ValidMeansInRange | Packages/outlines-v1.0.0/OccaSoftware-outlines-17a1be18c482ea6cdc0c9c74ff6bd89bfda1950e/Runtime/OutlineVolumeSettings.cs:15-133 | Settings are valid if and only if every float parameter lies in its declared range. |
| VolumeSettings.InRangeMeansValid | Packages/outlines-v1.0.0/OccaSoftware-outlines-17a1be18c482ea6cdc0c9c74ff6bd89bfda1950e/Runtime/OutlineVolumeSettings.cs:15-133 | Parameters that are all in range make the settings valid. |
| VolumeSettings.RangesBoundGlobalsAndDepth | Packages/outlines-v1.0.0/OccaSoftware-outlines-17a1be18c482ea6cdc0c9c74ff6bd89bfda1950e/Runtime/OutlineVolumeSettings.cs:15-45 | With every parameter in range, the maximum thickness, the frame rate and the depth threshold and softness are at least 0. The edge threshold and the depth and normal fractions are in [0,1]. |
| VolumeSettings.RangesBoundChannels | Packages/outlines-v1.0.0/OccaSoftware-outlines-17a1be18c482ea6cdc0c9c74ff6bd89bfda1950e/Runtime/OutlineVolumeSettings.cs:48-68 | With every parameter in range, the normal threshold and softness, the luma threshold and softness and the colour threshold are at least 0. The luma and colour fractions are in [0,1]. |
| VolumeSettings.RangesBoundFalloff | Packages/outlines-v1.0.0/OccaSoftware-outlines-17a1be18c482ea6cdc0c9c74ff6bd89bfda1950e/Runtime/OutlineVolumeSettings.cs:71-90 | With every parameter in range, the colour softness and both distances are at least 0. The near and far thickness fractions and alphas are in [0,1]. |
| VolumeSettings.RangesBoundTextures | Packages/outlines-v1.0.0/OccaSoftware-outlines-17a1be18c482ea6cdc0c9c74ff6bd89bfda1950e/Runtime/OutlineVolumeSettings.cs:94-133 | With every parameter in range, the two grazing-angle parameters, the offset strength and scale, the paper scale and the blur amount are at least 0. The paper strength is in [0,1]. |
| VolumeSettings.SetKeepsValid | Packages/outlines-v1.0.0/OccaSoftware-outlines-17a1be18c482ea6cdc0c9c74ff6bd89bfda1950e/Runtime/OutlineVolumeSettings.cs:15-133 | Writing any value to any parameter of valid settings stores its clamp and keeps the settings valid. |
| VolumeSettings.GetSet | Packages/outlines-v1.0.0/OccaSoftware-outlines-17a1be18c482ea6cdc0c9c74ff6bd89bfda1950e/Runtime/OutlineVolumeSettings.cs:15-133 | Reading a parameter back after writing it gives the clamp of the written value into its range. |
| VolumeSettings.SetLeavesOthers | Packages/outlines-v1.0.0/OccaSoftware-outlines-17a1be18c482ea6cdc0c9c74ff6bd89bfda1950e/Runtime/OutlineVolumeSettings.cs:15-133 | Writing one parameter leaves every other parameter unchanged. |
| VolumeSettings.SpeedsAreUnclamped | Packages/outlines-v1.0.0/OccaSoftware-outlines-17a1be18c482ea6cdc0c9c74ff6bd89bfda1950e/Runtime/OutlineVolumeSettings.cs:110-126 | The two texture speeds are stored as written, negative values included, and do not affect validity. |
| VolumeSettings.InactiveIffZeroThicknessOrInvisible | Packages/outlines-v1.0.0/OccaSoftware-outlines-17a1be18c482ea6cdc0c9c74ff6bd89bfda1950e/Runtime/OutlineVolumeSettings.cs:144 | Valid settings are inactive exactly when the maximum thickness is 0 or the colour's alpha is not positive. |
| VolumeSettings.ChannelRanges | Packages/outlines-v1.0.0/OccaSoftware-outlines-17a1be18c482ea6cdc0c9c74ff6bd89bfda1950e/Runtime/OutlineVolumeSettings.cs:31-68 | In valid settings every edge channel's thickness fraction is in [0,1], and its threshold and softness are at least 0. |
| VolumeSettings.OutlineVolume.Override | Packages/outlines-v1.0.0/OccaSoftware-outlines-17a1be18c482ea6cdc0c9c74ff6bd89bfda1950e/Runtime/OutlineVolumeSettings.cs:15-133 | Overriding a parameter on the component stores the clamped value, leaves the rest as they were and keeps valid settings valid. |
| Frame.ThicknessRatio | Packages/outlines-v1.0.0/OccaSoftware-outlines-17a1be18c482ea6cdc0c9c74ff6bd89bfda1950e/Runtime/OutlineRenderPass.cs:152-158 | The ratio is 1 when scaling is disabled. Otherwise it is the target height divided by the reference height, so it is 1 at the reference height itself. |
| Frame.ScaledThickness | Packages/outlines-v1.0.0/OccaSoftware-outlines-17a1be18c482ea6cdc0c9c74ff6bd89bfda1950e/Runtime/OutlineRenderPass.cs:152-163 | The uploaded maximum thickness is the configured one when scaling is disabled or the target is at the reference height. It is twice the configured one for a 2160-pixel target against the 1080 reference. |
| Frame.GpuWorkAppend | Packages/outlines-v1.0.0/OccaSoftware-outlines-17a1be18c482ea6cdc0c9c74ff6bd89bfda1950e/Runtime/OutlineRenderPass.cs:236-333 | The GPU work of two command lists recorded one after the other is the first list's work followed by the second's. |
| Frame.KeywordSettles | Packages/outlines-v1.0.0/OccaSoftware-outlines-17a1be18c482ea6cdc0c9c74ff6bd89bfda1950e/Runtime/OutlineRenderPass.cs:169-329 | A keyword toggled to one state and never to the other ends in that state, whatever it was before. |
| Frame.UploadSettles | Packages/outlines-v1.0.0/OccaSoftware-outlines-17a1be18c482ea6cdc0c9c74ff6bd89bfda1950e/Runtime/OutlineRenderPass.cs:160-329 | A uniform uploaded only with one value holds that value at the end of the list. |
| Frame.DetectionAgrees | Packages/outlines-v1.0.0/OccaSoftware-outlines-17a1be18c482ea6cdc0c9c74ff6bd89bfda1950e/Runtime/OutlineRenderPass.cs:141-234 | Every command of the edge-detection phase agrees with the upload and keyword tables, and none of them is GPU work. |
| Frame.DrawAgrees | Packages/outlines-v1.0.0/OccaSoftware-outlines-17a1be18c482ea6cdc0c9c74ff6bd89bfda1950e/Runtime/OutlineRenderPass.cs:238-329 | Every command of the draw phase agrees with the tables, and none of them is GPU work. |
| Frame.FrameGpuOrder | Packages/outlines-v1.0.0/OccaSoftware-outlines-17a1be18c482ea6cdc0c9c74ff6bd89bfda1950e/Runtime/OutlineRenderPass.cs:236-333 | An active frame's GPU work is exactly the edge dispatch, then the draw dispatch, both over (groupsX, groupsY, 1), then the blit of draw onto source. |
| Frame.FrameTogglesEveryKeyword | Packages/outlines-v1.0.0/OccaSoftware-outlines-17a1be18c482ea6cdc0c9c74ff6bd89bfda1950e/Runtime/OutlineRenderPass.cs:169-329 | An active frame sets every one of the eight keywords to its table state. |
| Frame.FrameAgrees | Packages/outlines-v1.0.0/OccaSoftware-outlines-17a1be18c482ea6cdc0c9c74ff6bd89bfda1950e/Runtime/OutlineRenderPass.cs:141-333 | Every float upload, colour, texture binding and keyword toggle of an active frame matches the tables. |
| Frame.FrameKeywords | Packages/outlines-v1.0.0/OccaSoftware-outlines-17a1be18c482ea6cdc0c9c74ff6bd89bfda1950e/Runtime/OutlineRenderPass.cs:169-329 | After an active frame each keyword is in its table state: a channel keyword is on exactly when that channel's fraction is positive, so it is off at 0. Offset and paper are on exactly when their texture is present and their strength is non-zero. Blur is on exactly when the amount is positive. Blur noise follows its switch. |
| Frame.FrameUploadsComplete | Packages/outlines-v1.0.0/OccaSoftware-outlines-17a1be18c482ea6cdc0c9c74ff6bd89bfda1950e/Runtime/OutlineRenderPass.cs:160-329 | Every uniform with a modelled value is uploaded with that value in an active frame. |
| Frame.FrameUploads | Packages/outlines-v1.0.0/OccaSoftware-outlines-17a1be18c482ea6cdc0c9c74ff6bd89bfda1950e/Runtime/OutlineRenderPass.cs:160-329 | A float upload appears in an active frame if and only if the table gives that value for that uniform. |
| Frame.FrameUniformValues | Packages/outlines-v1.0.0/OccaSoftware-outlines-17a1be18c482ea6cdc0c9c74ff6bd89bfda1950e/Runtime/OutlineRenderPass.cs:160-329 | After an active frame each float uniform holds exactly its table value, and a uniform with no modelled value was never uploaded as a float. |
| Frame.ColorSettles | Packages/outlines-v1.0.0/OccaSoftware-outlines-17a1be18c482ea6cdc0c9c74ff6bd89bfda1950e/Runtime/OutlineRenderPass.cs:215 | A colour uniform set only to one colour holds that colour at the end of the list. |
| Frame.BindingSettles | Packages/outlines-v1.0.0/OccaSoftware-outlines-17a1be18c482ea6cdc0c9c74ff6bd89bfda1950e/Runtime/OutlineRenderPass.cs:141-284 | A kernel slot bound only to one texture holds that texture at the end of the list. |
| Frame.FrameColorValues | Packages/outlines-v1.0.0/OccaSoftware-outlines-17a1be18c482ea6cdc0c9c74ff6bd89bfda1950e/Runtime/OutlineRenderPass.cs:215 | After an active frame the outline colour holds the configured colour, and no other colour uniform is set. |
| Frame.BindingsRecorded | Packages/outlines-v1.0.0/OccaSoftware-outlines-17a1be18c482ea6cdc0c9c74ff6bd89bfda1950e/Runtime/OutlineRenderPass.cs:141-284 | Every binding the table asks for is recorded before the draw dispatch. |
| Frame.EdgeDispatchBindings | Packages/outlines-v1.0.0/OccaSoftware-outlines-17a1be18c482ea6cdc0c9c74ff6bd89bfda1950e/Runtime/OutlineRenderPass.cs:141-236 | When the edge kernel is dispatched, its screen slot holds the camera colour and its output slot holds the edge target. |
| Frame.DrawDispatchBindings | Packages/outlines-v1.0.0/OccaSoftware-outlines-17a1be18c482ea6cdc0c9c74ff6bd89bfda1950e/Runtime/OutlineRenderPass.cs:141-331 | When the draw kernel is dispatched, every slot of every kernel holds the texture the table gives it, and slots the table leaves out are unbound. |
| Frame.KernelDataFlow | Packages/outlines-v1.0.0/OccaSoftware-outlines-17a1be18c482ea6cdc0c9c74ff6bd89bfda1950e/Runtime/OutlineRenderPass.cs:141-331 | The edge kernel writes the edge target. The draw kernel then reads that same edge target and writes the draw target. |
| Frame.DrawKernelSamples | Packages/outlines-v1.0.0/OccaSoftware-outlines-17a1be18c482ea6cdc0c9c74ff6bd89bfda1950e/Runtime/OutlineRenderPass.cs:238-284 | When dispatched, the draw kernel samples the camera colour. It also samples the offset texture, or black when none is set, and the paper texture, or white when none is set. |
| Frame.FrameBindingValues | Packages/outlines-v1.0.0/OccaSoftware-outlines-17a1be18c482ea6cdc0c9c74ff6bd89bfda1950e/Runtime/OutlineRenderPass.cs:141-333 | After an active frame every slot of every kernel holds the texture the table gives it. |
| Frame.FrameMaximumThickness | Packages/outlines-v1.0.0/OccaSoftware-outlines-17a1be18c482ea6cdc0c9c74ff6bd89bfda1950e/Runtime/OutlineRenderPass.cs:152-163 | The maximum thickness the kernels see is the configured one times the resolution ratio, and is doubled for a 2160-pixel target against the 1080 reference. |
| Frame.UploadNone | Packages/outlines-v1.0.0/OccaSoftware-outlines-17a1be18c482ea6cdc0c9c74ff6bd89bfda1950e/Runtime/OutlineRenderPass.cs:160-329 | A uniform never uploaded as a float has no value in the list. |
| OutlinePass.GetGroupCount | Packages/outlines-v1.0.0/OccaSoftware-outlines-17a1be18c482ea6cdc0c9c74ff6bd89bfda1950e/Runtime/OutlineRenderPass.cs:35-38 | For a positive dimension the count is the ceiling of dimension over group size: at least 1, and (n-1)·g < d ≤ n·g. Dimensions from 1-g to 0 give 0. |
| OutlinePass.DrawDescriptor | Packages/outlines-v1.0.0/OccaSoftware-outlines-17a1be18c482ea6cdc0c9c74ff6bd89bfda1950e/Runtime/OutlineRenderPass.cs:44-51 | The draw descriptor has depth 0, random write on, MSAA 1 and sRGB off. Width and height equal the camera's when those are positive, and are exactly 1 otherwise. The format and everything else are kept. |
| OutlinePass.TargetDescriptor | Packages/outlines-v1.0.0/OccaSoftware-outlines-17a1be18c482ea6cdc0c9c74ff6bd89bfda1950e/Runtime/OutlineRenderPass.cs:52-53 | The edge-target descriptor is in R16 and equals the draw descriptor in everything else. |
| OutlinePass.DescriptorsIdempotent | Packages/outlines-v1.0.0/OccaSoftware-outlines-17a1be18c482ea6cdc0c9c74ff6bd89bfda1950e/Runtime/OutlineRenderPass.cs:44-53 | Deriving a descriptor from an already derived one changes nothing: the clamps and fixed fields are stable. |
| OutlinePass.OutlineRenderPass.constructor | Packages/outlines-v1.0.0/OccaSoftware-outlines-17a1be18c482ea6cdc0c9c74ff6bd89bfda1950e/Runtime/OutlineRenderPass.cs:24-28 | A new pass holds two distinct fresh named handles with no texture behind them. It has no source, no shader and no settings, and uses the default event. |
| OutlinePass.OutlineRenderPass.LoadComputeShader | Packages/outlines-v1.0.0/OccaSoftware-outlines-17a1be18c482ea6cdc0c9c74ff6bd89bfda1950e/Runtime/OutlineRenderPass.cs:92-102 | A held shader is kept. Otherwise the asset lookup's result is taken, so a failed load leaves no shader and the next call tries again. The result is true exactly when a shader is held. |
| OutlinePass.OutlineRenderPass.AllocateTargets | Packages/outlines-v1.0.0/OccaSoftware-outlines-17a1be18c482ea6cdc0c9c74ff6bd89bfda1950e/Runtime/OutlineRenderPass.cs:55-69 | Both targets end up made for the camera's derived descriptors. A target that needed reallocation gets a fresh, named, unreleased handle, and its old handle is released. A kept target keeps its handle, and its released state is unchanged unless the same handle was replaced in the other field. Distinct handles stay distinct. |
| OutlinePass.OutlineRenderPass.OnCameraSetup | Packages/outlines-v1.0.0/OccaSoftware-outlines-17a1be18c482ea6cdc0c9c74ff6bd89bfda1950e/Runtime/OutlineRenderPass.cs:40-81 | The shader is loaded and both targets are reallocated for the derived descriptors, with the same guarantees as `AllocateTargets`: fresh handles for replaced targets, old handles released, kept handles untouched. This happens whether or not a shader is found. With a shader, the kernels are taken from it and the grid covers the target: at least one group each way, and (groups-1)·size < dimension ≤ groups·size. Without one, setup stops at the kernel lookup with kernels and grid unchanged. |
| OutlinePass.OutlineRenderPass.Setup | Packages/outlines-v1.0.0/OccaSoftware-outlines-17a1be18c482ea6cdc0c9c74ff6bd89bfda1950e/Runtime/OutlineRenderPass.cs:83-90 | The pass asks for exactly the colour, normal and depth buffers. |
| OutlinePass.OutlineRenderPass.Execute | Packages/outlines-v1.0.0/OccaSoftware-outlines-17a1be18c482ea6cdc0c9c74ff6bd89bfda1950e/Runtime/OutlineRenderPass.cs:106-339 | A settings reference already held is kept; otherwise the stack's is taken. With no settings, or inactive ones, nothing is recorded and the source is unchanged. Otherwise the source becomes the camera colour target. The result is then exactly `Faulted` when the shader is missing, and otherwise exactly the active frame's command list for the current handles, kernels and grid. An issued frame has its GPU order, keyword states, float uniform values, outline colour and texture bindings as in the tables. |
| OutlinePass.OutlineRenderPass.Dispose | Packages/outlines-v1.0.0/OccaSoftware-outlines-17a1be18c482ea6cdc0c9c74ff6bd89bfda1950e/Runtime/OutlineRenderPass.cs:343-352 | The source and edge-target handles are released and forgotten, and so is the shader. The draw target is left in place and untouched. Kernels, grid and settings stay. |
| Enqueue.ShouldEnqueueByType | Packages/outlines-v1.0.0/OccaSoftware-outlines-17a1be18c482ea6cdc0c9c74ff6bd89bfda1950e/Runtime/EnqueueOutlinePass.cs:31-37 | Preview and reflection cameras are never included. The scene view is included exactly when the scene-view switch is on. Game and VR cameras are always included. |
| Enqueue.ScriptableRenderer.EnqueuePass | Packages/outlines-v1.0.0/OccaSoftware-outlines-17a1be18c482ea6cdc0c9c74ff6bd89bfda1950e/Runtime/EnqueueOutlinePass.cs:41 | Enqueuing appends the pass to the renderer's queue for this frame. |
| Enqueue.EnqueueOutlinePass.constructor | Packages/outlines-v1.0.0/OccaSoftware-outlines-17a1be18c482ea6cdc0c9c74ff6bd89bfda1950e/Runtime/EnqueueOutlinePass.cs:11-14 | The defaults are the before-transparents event, offset 0 and the scene view included, with no pass yet. |
| Enqueue.EnqueueOutlinePass.OnEnable | Packages/outlines-v1.0.0/OccaSoftware-outlines-17a1be18c482ea6cdc0c9c74ff6bd89bfda1950e/Runtime/EnqueueOutlinePass.cs:16-20 | Enabling creates a new pass and adds one subscription of the handler to the event. The new pass has no cached settings, so its first frame asks the volume stack. It has two distinct fresh named targets with no texture behind them, zero kernels and grid, no inputs, no source and no shader. |
| Enqueue.EnqueueOutlinePass.OnDisable | Packages/outlines-v1.0.0/OccaSoftware-outlines-17a1be18c482ea6cdc0c9c74ff6bd89bfda1950e/Runtime/EnqueueOutlinePass.cs:22-26 | Disabling removes one subscription, if there is one. It then disposes the pass: its source and edge target are released and forgotten, and so is its shader, while its draw target stays, unreleased unless it was one of those handles. Kernels, grid, cached settings, event and inputs are unchanged. With no pass it faults after unsubscribing. |
| Enqueue.EnqueueOutlinePass.OnBeginCameraRendering | Packages/outlines-v1.0.0/OccaSoftware-outlines-17a1be18c482ea6cdc0c9c74ff6bd89bfda1950e/Runtime/EnqueueOutlinePass.cs:28-42 | A camera the filter excludes leaves the pass's event and inputs and the queue unchanged. Any other camera gets the pass: its event set to the wrapped event plus offset, its inputs set to colour, normal and depth, and the pass enqueued exactly once. The handles, shader, kernels, grid and cached settings of the pass never change. |

## Left out

- Hardware precision: thicknesses, strengths and ratios are real numbers, not 32-bit floats.
- GetGroupCount models the 64-bit truncating division exactly. It does not model the precision lost in the later conversion to a 32-bit float, which only matters above 2^24.
- The compute kernels, the command buffer's replay on the GPU and the blitter's internals are out of scope. Dispatches and the blit appear as commands whose meaning is not modelled.
- The volume system's blending of overrides is out of scope. The resolved component is an input to `Execute`; `OutlineVolume.Override` stands for one resolved write.
- The clock uniforms (time and frame count) are not modelled; they are parameters of the host.
- The depth-to-view parameters, the screen-size vector and the aspect ratio are not modelled, because they need trigonometry and floats.
- The reciprocals of the frame rate and of the texture scales: for a non-zero value x, 1/x is uploaded and modelled. At 0 the source uploads an IEEE infinity, which the model records as an unmodelled upload and claims nothing about.
- The profiler samples and the command-buffer pool are left out. On the faulting paths the source leaves a sample open and a buffer unreleased; the model does not track either.
- Shader.FindKernel on a shader that lacks a kernel name is not modelled. A held shader is taken to have both kernels.
- The renderer and the pipeline manager are reduced to the pass queue and the subscription count. Rendering the queued passes is not modelled.
- Frame.GpuWork: its own contract states only that the projection is no longer than its input. What it means is carried by GpuWorkAppend, GpuWorkNone and FrameGpuOrder.
- Engine.ReAllocateIfNeeded: a slot is reallocated only when it is empty or made for another descriptor. The host also reallocates a handle whose texture was released, and the model does not. The pass never holds such a handle in a target field: `Dispose` forgets the edge target it releases and never releases the draw target, and the two fields only hold one handle if they held one before, which the constructor and `AllocateTargets` rule out.
- The shader-parameter name table, the grass material editor, the interactive-grass publisher and the demo controllers are other files of the repository. They are not part of this model.
