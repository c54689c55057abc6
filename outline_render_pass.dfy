/**
 * The outline render pass: the object the renderer calls once per camera to
 * set up its two working textures and kernel launch sizes, then to record the
 * frame's commands, and finally to release its resources.
 */
module OutlinePass {
  import opened Engine
  import VS = VolumeSettings
  import opened Frame

  const TargetId: string := "_OutlineTarget"
  const OutlinesId: string := "_OutlineDrawTarget"

  /**
   * A loaded compute shader, reduced to what the pass asks of it: the indices
   * of its two kernels and the declared thread-group size of the edge kernel.
   */
  datatype ComputeShader = ComputeShader(
    computeKernel: int,
    drawKernel: int,
    threadGroupSizeX: Pos,
    threadGroupSizeY: Pos)

  /** How camera setup ended: configured, or stopped by a missing shader before the kernels were looked up. */
  datatype SetupOutcome = Configured | ShaderMissing

  /**
   * What one call of Execute did: nothing, a fault on the missing shader
   * before any GPU work, or the recording of a whole frame.
   */
  datatype FrameResult = Skipped | Faulted | Issued(commands: seq<Command>)

  /**
   * Thread groups needed to cover `textureDimension` pixels with groups of
   * `groupSize`: the sum is taken in 64 bits and divided with truncation
   * toward zero, so for a positive dimension it is the ceiling of the quotient.
   */
  function GetGroupCount(textureDimension: int, groupSize: Pos): (groups: int)
    ensures textureDimension >= 1 ==> groups >= 1
    ensures textureDimension >= 1 ==> (groups - 1) * groupSize < textureDimension <= groups * groupSize
    ensures 1 - groupSize <= textureDimension <= 0 ==> groups == 0
  {
    var n := textureDimension + groupSize - 1;
    if n >= 0 then n / groupSize else -((-n) / groupSize)
  }

  /** The descriptor of the draw target: the camera's, without depth, MSAA or sRGB, random-write, at least 1x1. */
  function DrawDescriptor(camera: RenderTextureDescriptor): (d: RenderTextureDescriptor)
    ensures d.depthBufferBits == 0 && d.enableRandomWrite && d.msaaSamples == 1 && !d.sRGB
    ensures d.width >= 1 && d.height >= 1
    ensures camera.width >= 1 ==> d.width == camera.width
    ensures camera.width < 1 ==> d.width == 1
    ensures camera.height >= 1 ==> d.height == camera.height
    ensures camera.height < 1 ==> d.height == 1
    ensures d.colorFormat == camera.colorFormat && d.others == camera.others
  {
    camera.(
      depthBufferBits := 0,
      enableRandomWrite := true,
      msaaSamples := 1,
      sRGB := false,
      width := if camera.width >= 1 then camera.width else 1,
      height := if camera.height >= 1 then camera.height else 1)
  }

  /** The descriptor of the edge target: the draw target's, in the single-channel 16-bit format. */
  function TargetDescriptor(camera: RenderTextureDescriptor): (d: RenderTextureDescriptor)
    ensures d.colorFormat == R16
    ensures d.(colorFormat := camera.colorFormat) == DrawDescriptor(camera)
  {
    DrawDescriptor(camera).(colorFormat := R16)
  }

  /** Preparing a descriptor that is already prepared changes nothing. */
  lemma DescriptorsIdempotent(camera: RenderTextureDescriptor)
    ensures DrawDescriptor(DrawDescriptor(camera)) == DrawDescriptor(camera)
    ensures TargetDescriptor(TargetDescriptor(camera)) == TargetDescriptor(camera)
  {
  }

  class OutlineRenderPass {
    var source: RtHandle?
    var compute: RtHandle?
    var draw: RtHandle?
    var shader: Option<ComputeShader>
    var computeKernel: int
    var drawKernel: int
    var groupsX: int
    var groupsY: int
    var outlineSettings: VS.OutlineVolume?
    /** The render-pass event the renderer sorts this pass by. */
    var renderPassEvent: int
    /** The camera buffers this pass asks the renderer to produce. */
    var input: set<PassInput>

    /** Both working handles start as named identifiers that own no texture yet. */
    constructor ()
      ensures fresh(compute) && compute.name == TargetId && compute.descriptor.None? && !compute.released
      ensures fresh(draw) && draw.name == OutlinesId && draw.descriptor.None? && !draw.released
      ensures compute != draw
      ensures source == null && shader.None? && outlineSettings == null
      ensures computeKernel == 0 && drawKernel == 0 && groupsX == 0 && groupsY == 0
      ensures renderPassEvent == AfterRenderingOpaques && input == {}
    {
      compute := new RtHandle(TargetId, None);
      draw := new RtHandle(OutlinesId, None);
      source := null;
      shader := None;
      computeKernel, drawKernel, groupsX, groupsY := 0, 0, 0, 0;
      outlineSettings := null;
      renderPassEvent := AfterRenderingOpaques;
      input := {};
    }

    /** The pass state and camera height a frame's commands are made from. */
    function Bindings(targetHeight: int): PassBindings
      reads this
    {
      PassBindings(computeKernel, drawKernel, groupsX, groupsY, source, compute, draw, targetHeight)
    }

    /**
     * Loads the shader asset once: a shader already held is kept, otherwise
     * `asset` (what the resource lookup finds, if anything) is taken.
     */
    method LoadComputeShader(asset: Option<ComputeShader>) returns (loaded: bool)
      modifies this`shader
      ensures shader == if old(shader).Some? then old(shader) else asset
      ensures loaded <==> shader.Some?
    {
      if shader.Some? {
        return true;
      }
      shader := asset;
      if shader.None? {
        return false;
      }
      return true;
    }

    /**
     * (Re)allocates both working textures for the camera: the edge target in
     * the single-channel format, the draw target in the camera's own format.
     * A handle already made for the same descriptor is kept untouched, and a
     * replaced one is released. Should both fields hold one handle, keeping it
     * for one target and replacing it for the other still releases it.
     */
    method AllocateTargets(camera: RenderTextureDescriptor)
      modifies this`compute, this`draw, compute, draw
      ensures compute != null && compute.descriptor == Some(TargetDescriptor(camera))
      ensures draw != null && draw.descriptor == Some(DrawDescriptor(camera))
      ensures NeedsReAlloc(old(compute), TargetDescriptor(camera)) ==>
        fresh(compute) && compute.name == TargetId && !compute.released
      ensures !NeedsReAlloc(old(compute), TargetDescriptor(camera)) ==> compute == old(compute)
      ensures NeedsReAlloc(old(draw), DrawDescriptor(camera)) ==>
        fresh(draw) && draw.name == OutlinesId && !draw.released
      ensures !NeedsReAlloc(old(draw), DrawDescriptor(camera)) ==> draw == old(draw)
      ensures old(compute) != null && NeedsReAlloc(old(compute), TargetDescriptor(camera)) ==> old(compute).released
      ensures old(draw) != null && NeedsReAlloc(old(draw), DrawDescriptor(camera)) ==> old(draw).released
      ensures !NeedsReAlloc(old(compute), TargetDescriptor(camera)) ==>
        (old(draw) != old(compute) || !NeedsReAlloc(old(draw), DrawDescriptor(camera))) ==>
        compute.released == old(compute.released)
      ensures !NeedsReAlloc(old(draw), DrawDescriptor(camera)) ==>
        (old(draw) != old(compute) || !NeedsReAlloc(old(compute), TargetDescriptor(camera))) ==>
        draw.released == old(draw.released)
      ensures old(compute) != old(draw) ==> compute != draw
    {
      var oldDraw := draw;
      var newCompute, _ := ReAllocateIfNeeded(compute, TargetDescriptor(camera), TargetId);
      compute := newCompute;
      var newDraw, _ := ReAllocateIfNeeded(oldDraw, DrawDescriptor(camera), OutlinesId);
      draw := newDraw;
    }

    /**
     * Per-camera setup: load the shader, (re)allocate both working textures
     * for the camera's descriptor, then look up the kernels and size the
     * dispatch grid so that it covers the whole target. With no shader the
     * kernel lookup fails after the textures were already (re)allocated, and
     * kernels and grid keep their old values.
     */
    method OnCameraSetup(camera: RenderTextureDescriptor, asset: Option<ComputeShader>) returns (outcome: SetupOutcome)
      modifies this, compute, draw
      ensures shader == if old(shader).Some? then old(shader) else asset
      ensures outcome == Configured <==> shader.Some?
      ensures compute != null && compute.descriptor == Some(TargetDescriptor(camera))
      ensures draw != null && draw.descriptor == Some(DrawDescriptor(camera))
      ensures NeedsReAlloc(old(compute), TargetDescriptor(camera)) ==>
        fresh(compute) && compute.name == TargetId && !compute.released
      ensures !NeedsReAlloc(old(compute), TargetDescriptor(camera)) ==> compute == old(compute)
      ensures NeedsReAlloc(old(draw), DrawDescriptor(camera)) ==>
        fresh(draw) && draw.name == OutlinesId && !draw.released
      ensures !NeedsReAlloc(old(draw), DrawDescriptor(camera)) ==> draw == old(draw)
      ensures old(compute) != null && NeedsReAlloc(old(compute), TargetDescriptor(camera)) ==> old(compute).released
      ensures old(draw) != null && NeedsReAlloc(old(draw), DrawDescriptor(camera)) ==> old(draw).released
      ensures !NeedsReAlloc(old(compute), TargetDescriptor(camera)) ==>
        (old(draw) != old(compute) || !NeedsReAlloc(old(draw), DrawDescriptor(camera))) ==>
        compute.released == old(compute.released)
      ensures !NeedsReAlloc(old(draw), DrawDescriptor(camera)) ==>
        (old(draw) != old(compute) || !NeedsReAlloc(old(compute), TargetDescriptor(camera))) ==>
        draw.released == old(draw.released)
      ensures old(compute) != old(draw) ==> compute != draw
      ensures outcome == Configured ==>
        && computeKernel == shader.value.computeKernel
        && drawKernel == shader.value.drawKernel
        && groupsX == GetGroupCount(DrawDescriptor(camera).width, shader.value.threadGroupSizeX)
        && groupsY == GetGroupCount(DrawDescriptor(camera).height, shader.value.threadGroupSizeY)
      ensures outcome == Configured ==>
        && (groupsX - 1) * shader.value.threadGroupSizeX < DrawDescriptor(camera).width
        && DrawDescriptor(camera).width <= groupsX * shader.value.threadGroupSizeX
        && (groupsY - 1) * shader.value.threadGroupSizeY < DrawDescriptor(camera).height
        && DrawDescriptor(camera).height <= groupsY * shader.value.threadGroupSizeY
      ensures outcome == Configured ==> groupsX >= 1 && groupsY >= 1
      ensures outcome == ShaderMissing ==>
        computeKernel == old(computeKernel) && drawKernel == old(drawKernel)
        && groupsX == old(groupsX) && groupsY == old(groupsY)
      ensures source == old(source) && outlineSettings == old(outlineSettings)
      ensures renderPassEvent == old(renderPassEvent) && input == old(input)
    {
      var _ := LoadComputeShader(asset);
      AllocateTargets(camera);
      if shader.None? {
        return ShaderMissing;
      }
      var descriptor := DrawDescriptor(camera);
      computeKernel := shader.value.computeKernel;
      drawKernel := shader.value.drawKernel;
      groupsX := GetGroupCount(descriptor.width, shader.value.threadGroupSizeX);
      groupsY := GetGroupCount(descriptor.height, shader.value.threadGroupSizeY);
      return Configured;
    }

    /** Asks the renderer for the colour, normal and depth buffers. */
    method Setup()
      modifies this`input
      ensures input == {ColorInput, NormalInput, DepthInput}
      ensures MotionInput !in input
    {
      input := {ColorInput, NormalInput, DepthInput};
    }

    /**
     * Records one frame. The volume component is taken from the volume stack
     * the first time and kept by reference afterwards; an absent or inactive
     * component records nothing; otherwise the camera colour target becomes
     * the source and the whole frame is recorded, unless the shader is missing,
     * in which case the first kernel binding faults before any GPU work.
     */
    method Execute(stackComponent: VS.OutlineVolume?, cameraColor: RtHandle?, targetHeight: int)
      returns (frame: FrameResult)
      modifies this`outlineSettings, this`source
      ensures outlineSettings == if old(outlineSettings) != null then old(outlineSettings) else stackComponent
      ensures outlineSettings == null || !outlineSettings.settings.IsActive() ==>
        frame == Skipped && source == old(source)
      ensures outlineSettings != null && outlineSettings.settings.IsActive() ==>
        && source == cameraColor
        && frame == if shader.None? then Faulted
                    else Issued(FrameCommands(outlineSettings.settings, Bindings(targetHeight)))
      ensures frame.Issued? ==>
        && outlineSettings != null && outlineSettings.settings.IsActive() && shader.Some?
        && frame.commands == FrameCommands(outlineSettings.settings, Bindings(targetHeight))
      ensures frame.Issued? ==>
        GpuWork(frame.commands) == [ Dispatch(computeKernel, groupsX, groupsY, 1),
                                     Dispatch(drawKernel, groupsX, groupsY, 1),
                                     Blit(draw, source) ]
      ensures frame.Issued? ==> forall prior, k ::
        KeywordAfter(prior, frame.commands, k) == KeywordOn(outlineSettings.settings, k)
      ensures frame.Issued? ==> forall u ::
        UploadedValue(frame.commands, u) == ExpectedUpload(outlineSettings.settings, Bindings(targetHeight), u)
      ensures frame.Issued? ==> forall u ::
        ColorValue(frame.commands, u) == ExpectedColor(outlineSettings.settings, u)
      ensures frame.Issued? ==> forall k, slot ::
        BoundTexture(frame.commands, k, slot) == ExpectedBinding(outlineSettings.settings, Bindings(targetHeight), k, slot)
    {
      if outlineSettings == null {
        outlineSettings := stackComponent;
      }
      if outlineSettings == null {
        return Skipped;
      }
      if !outlineSettings.settings.IsActive() {
        return Skipped;
      }
      source := cameraColor;
      if shader.None? {
        return Faulted;
      }
      var s := outlineSettings.settings;
      var b := Bindings(targetHeight);
      FrameGpuOrder(s, b);
      forall prior, k ensures KeywordAfter(prior, FrameCommands(s, b), k) == KeywordOn(s, k) {
        FrameKeywords(s, b, prior, k);
      }
      forall u ensures UploadedValue(FrameCommands(s, b), u) == ExpectedUpload(s, b, u) {
        FrameUniformValues(s, b, u);
      }
      forall u ensures ColorValue(FrameCommands(s, b), u) == ExpectedColor(s, u) {
        FrameColorValues(s, b, u);
      }
      forall k, slot ensures BoundTexture(FrameCommands(s, b), k, slot) == ExpectedBinding(s, b, k, slot) {
        FrameBindingValues(s, b, k, slot);
      }
      frame := Issued(FrameCommands(s, b));
    }

    /**
     * Releases the camera colour handle last used as source and the edge
     * target, and forgets both and the shader. The draw target is neither
     * released nor forgotten.
     */
    method Dispose()
      modifies this, source, compute
      ensures source == null && compute == null && shader.None?
      ensures old(source) != null ==> old(source).released
      ensures old(compute) != null ==> old(compute).released
      ensures draw == old(draw)
      ensures draw != null && draw != old(source) && draw != old(compute) ==> draw.released == old(draw.released)
      ensures computeKernel == old(computeKernel) && drawKernel == old(drawKernel)
      ensures groupsX == old(groupsX) && groupsY == old(groupsY)
      ensures outlineSettings == old(outlineSettings)
      ensures renderPassEvent == old(renderPassEvent) && input == old(input)
    {
      if source != null {
        source.Release();
      }
      source := null;
      if compute != null {
        compute.Release();
      }
      compute := null;
      shader := None;
    }
  }
}
