/**
 * What the outline pass records in one active frame, as a command trace:
 * uniform uploads, texture bindings, shader-keyword toggles, the two kernel
 * dispatches and the final blit, in the order the pass issues them. The
 * trace is a pure function of the resolved settings and of the pass state it
 * reads; the projections below recover from it the GPU work, the final
 * keyword state, the uploaded float values, the colour set for each colour
 * uniform and the texture bound to each kernel slot.
 */
module Frame {
  import opened Engine
  import VS = VolumeSettings

  /** Shader property names the pass writes. */
  datatype Uniform =
    | FrameId | DepthToViewParams | ScreenTexture | OutlineTarget | ScreenSizePx
    | MaximumOutlineThickness | ExcludeSkybox
    | DepthThreshold | DepthSoftness | DepthThickness
    | NormalThreshold | NormalSoftness | NormalThickness
    | LumaThreshold | LumaSoftness | LumaThickness
    | ColorThreshold | ColorSoftness | ColorThickness
    | OutlineColor | NearThickness | FarThickness | NearAlpha | FarAlpha
    | DistanceStart | DistanceEnd | GrazingAngleThreshold | GrazingAngleOffset
    | EdgeThreshold | PreviewOutlines
    | OutlineTargetResource | OutlineDrawTarget | Time | FrameRate | InverseFrameRate
    | OffsetTexture | TextureSpeed | TextureScale | TextureOffset | OffsetExcludeSkybox
    | PaperTexture | PaperTextureSpeed | PaperTextureScale | PaperTextureStrength | PaperExcludeSkybox
    | BlurAmount

  /** Global shader keywords selecting kernel code paths. */
  datatype Keyword =
    | DepthEnabled | NormalEnabled | LumaEnabled | ColorEnabled
    | OffsetEnabled | PaperEnabled | BlurEnabled | BlurNoiseEnabled

  /** A texture bound to a kernel slot. */
  datatype TextureRef = RenderTarget(handle: RtHandle?) | Asset(texture: Texture) | BlackTexture | WhiteTexture

  datatype Command =
    | SetFloat(uniform: Uniform, value: real)
    | SetColor(uniform: Uniform, color: Color)
      /** A value from the clock, from trigonometry, or a reciprocal of zero: not modelled. */
    | SetUnmodelled(uniform: Uniform)
    | BindTexture(kernel: int, slot: Uniform, texture: TextureRef)
    | SetKeyword(keyword: Keyword, enabled: bool)
    | Dispatch(kernel: int, x: int, y: int, z: int)
    | Blit(from: RtHandle?, to: RtHandle?)

  /** The pass state and camera data a frame's commands depend on. */
  datatype PassBindings = PassBindings(
    computeKernel: int,
    drawKernel: int,
    groupsX: int,
    groupsY: int,
    source: RtHandle?,
    compute: RtHandle?,
    draw: RtHandle?,
    targetHeight: int)

  /** A boolean uploaded as a float. */
  function Flag(b: bool): real
  {
    if b then 1.0 else 0.0
  }

  /** Uploading 1/x: a real reciprocal, except at 0 where the uploaded IEEE infinity is not modelled. */
  function Reciprocal(u: Uniform, x: real): Command
  {
    if x != 0.0 then SetFloat(u, 1.0 / x) else SetUnmodelled(u)
  }

  /**
   * The factor applied to the maximum thickness: 1 without resolution scaling,
   * otherwise the current target height over the reference height.
   */
  function ThicknessRatio(scaling: VS.ReferenceResolution, targetHeight: int): (ratio: real)
    ensures scaling == VS.Disabled ==> ratio == 1.0
    ensures scaling != VS.Disabled ==> ratio * VS.PixelHeight(scaling) as real == targetHeight as real
    ensures scaling != VS.Disabled && targetHeight == VS.PixelHeight(scaling) ==> ratio == 1.0
  {
    if scaling == VS.Disabled then 1.0
    else targetHeight as real / VS.PixelHeight(scaling) as real
  }

  /**
   * The maximum thickness handed to the kernels: the configured one scaled by
   * the resolution ratio, unchanged at the reference height, doubled when a
   * 1080-pixel reference meets a 2160-pixel target.
   */
  function ScaledThickness(s: VS.OutlineVolumeSettings, targetHeight: int): (t: real)
    ensures s.resolutionScaling == VS.Disabled ==> t == s.maximumOutlineThickness
    ensures targetHeight == VS.PixelHeight(s.resolutionScaling) ==> t == s.maximumOutlineThickness
    ensures s.resolutionScaling == VS.FullHD1080 && targetHeight == 2160 ==> t == 2.0 * s.maximumOutlineThickness
  {
    s.maximumOutlineThickness * ThicknessRatio(s.resolutionScaling, targetHeight)
  }

  function ChannelUniforms(ch: VS.EdgeChannel): (Uniform, Uniform, Uniform)
  {
    match ch
    case DepthEdges => (DepthThreshold, DepthSoftness, DepthThickness)
    case NormalEdges => (NormalThreshold, NormalSoftness, NormalThickness)
    case LumaEdges => (LumaThreshold, LumaSoftness, LumaThickness)
    case ColorEdges => (ColorThreshold, ColorSoftness, ColorThickness)
  }

  function ChannelKeyword(ch: VS.EdgeChannel): Keyword
  {
    match ch
    case DepthEdges => DepthEnabled
    case NormalEdges => NormalEnabled
    case LumaEdges => LumaEnabled
    case ColorEdges => ColorEnabled
  }

  /** Independent statement of when each keyword is on in an active frame. */
  function KeywordOn(s: VS.OutlineVolumeSettings, k: Keyword): bool
  {
    match k
    case DepthEnabled => s.depthThickness01 > 0.0
    case NormalEnabled => s.normalThickness01 > 0.0
    case LumaEnabled => s.lumaThickness01 > 0.0
    case ColorEnabled => s.colorThickness01 > 0.0
    case OffsetEnabled => s.offsetTexture.Some? && s.offsetTextureStrength != 0.0
    case PaperEnabled => s.paperTexture.Some? && s.paperTextureStrength != 0.0
    case BlurEnabled => s.blurAmount > 0.0
    case BlurNoiseEnabled => s.blurNoiseEnabled
  }

  /**
   * Independent statement of the value each float uniform receives in an
   * active frame; None for uniforms that are not uploaded as a modelled float.
   */
  function ExpectedUpload(s: VS.OutlineVolumeSettings, b: PassBindings, u: Uniform): Option<real>
  {
    match u
    case MaximumOutlineThickness =>
      Some(ScaledThickness(s, b.targetHeight))
    case ExcludeSkybox => Some(Flag(s.excludeSkybox))
    case DepthThreshold => Some(s.depthThreshold)
    case DepthSoftness => Some(s.depthSoftness)
    case DepthThickness => Some(s.depthThickness01)
    case NormalThreshold => Some(s.normalThreshold)
    case NormalSoftness => Some(s.normalSoftness)
    case NormalThickness => Some(s.normalThickness01)
    case LumaThreshold => Some(s.lumaThreshold)
    case LumaSoftness => Some(s.lumaSoftness)
    case LumaThickness => Some(s.lumaThickness01)
    case ColorThreshold => Some(s.colorThreshold)
    case ColorSoftness => Some(s.colorSoftness)
    case ColorThickness => Some(s.colorThickness01)
    case NearThickness => Some(s.nearThickness01)
    case FarThickness => Some(s.farThickness01)
    case NearAlpha => Some(s.nearAlpha)
    case FarAlpha => Some(s.farAlpha)
    case DistanceStart => Some(s.distanceStart)
    case DistanceEnd => Some(s.distanceEnd)
    case GrazingAngleThreshold => Some(s.grazingAngleThreshold)
    case GrazingAngleOffset => Some(s.grazingAngleOffset)
    case EdgeThreshold => Some(s.edgeThreshold)
    case PreviewOutlines => Some(Flag(s.previewOutlines))
    case FrameRate => Some(s.frameRate)
    case InverseFrameRate => if s.frameRate != 0.0 then Some(1.0 / s.frameRate) else None
    case TextureSpeed => Some(s.offsetTextureSpeed)
    case TextureScale => if s.offsetTextureScale != 0.0 then Some(1.0 / s.offsetTextureScale) else None
    case TextureOffset => Some(s.offsetTextureStrength)
    case OffsetExcludeSkybox => Some(Flag(s.offsetExcludeSkybox))
    case PaperTextureSpeed => Some(s.paperTextureSpeed)
    case PaperTextureScale => if s.paperTextureScale != 0.0 then Some(1.0 / s.paperTextureScale) else None
    case PaperTextureStrength => Some(s.paperTextureStrength)
    case PaperExcludeSkybox => Some(Flag(s.paperExcludeSkybox))
    case BlurAmount => Some(s.blurAmount)
    case _ => None
  }

  /** Independent statement of the colour uniforms of an active frame: only the outline colour is set. */
  function ExpectedColor(s: VS.OutlineVolumeSettings, u: Uniform): Option<Color>
  {
    if u == OutlineColor then Some(s.outlineColor) else None
  }

  /**
   * Independent statement of the texture bound to each slot of each kernel:
   * the edge kernel reads the camera colour and writes the edge target; the
   * draw kernel reads the camera colour and the edge target, writes the draw
   * target, and samples the offset texture (black when missing) and the paper
   * texture (white when missing). Every other slot is left unbound.
   */
  function ExpectedBinding(s: VS.OutlineVolumeSettings, b: PassBindings, kernel: int, slot: Uniform): Option<TextureRef>
  {
    match slot
    case ScreenTexture =>
      if kernel == b.computeKernel || kernel == b.drawKernel then Some(RenderTarget(b.source)) else None
    case OutlineTarget => if kernel == b.computeKernel then Some(RenderTarget(b.compute)) else None
    case OutlineTargetResource => if kernel == b.drawKernel then Some(RenderTarget(b.compute)) else None
    case OutlineDrawTarget => if kernel == b.drawKernel then Some(RenderTarget(b.draw)) else None
    case OffsetTexture => if kernel == b.drawKernel then Some(TextureOr(s.offsetTexture, BlackTexture)) else None
    case PaperTexture => if kernel == b.drawKernel then Some(TextureOr(s.paperTexture, WhiteTexture)) else None
    case _ => None
  }

  /**
   * One command that an active frame may record before its blit: no GPU work,
   * a float upload only with the value ExpectedUpload gives its uniform, a
   * colour only as ExpectedColor says, a texture binding only as
   * ExpectedBinding says, and a keyword toggle only to the value KeywordOn
   * gives its keyword.
   */
  ghost predicate CommandAgrees(s: VS.OutlineVolumeSettings, b: PassBindings, c: Command)
  {
    && !IsGpuWork(c)
    && (c.SetFloat? ==> ExpectedUpload(s, b, c.uniform) == Some(c.value))
    && (c.SetColor? ==> ExpectedColor(s, c.uniform) == Some(c.color))
    && (c.BindTexture? ==> ExpectedBinding(s, b, c.kernel, c.slot) == Some(c.texture))
    && (c.SetKeyword? ==> c.enabled == KeywordOn(s, c.keyword))
  }

  /** Every command of a phase agrees with the tables. */
  ghost predicate PieceAgrees(s: VS.OutlineVolumeSettings, b: PassBindings, t: seq<Command>)
  {
    forall i :: 0 <= i < |t| ==> CommandAgrees(s, b, t[i])
  }

  // ---- The trace, phase by phase, in issue order ----

  /** Frame id, depth-to-view vector, the compute kernel's textures and the screen size. */
  function ComputeSetup(b: PassBindings): seq<Command>
  {
    [ SetUnmodelled(FrameId),
      SetUnmodelled(DepthToViewParams),
      BindTexture(b.computeKernel, ScreenTexture, RenderTarget(b.source)),
      BindTexture(b.computeKernel, OutlineTarget, RenderTarget(b.compute)),
      SetUnmodelled(ScreenSizePx) ]
  }

  /** The scaled maximum thickness and the skybox switch. */
  function GlobalUniforms(s: VS.OutlineVolumeSettings, b: PassBindings): seq<Command>
  {
    [ SetFloat(MaximumOutlineThickness, ScaledThickness(s, b.targetHeight)),
      SetFloat(ExcludeSkybox, Flag(s.excludeSkybox)) ]
  }

  /** One edge channel: its three uniforms, then its keyword, on iff its thickness fraction is positive. */
  function ChannelCommands(s: VS.OutlineVolumeSettings, ch: VS.EdgeChannel): seq<Command>
  {
    var (threshold, softness, thickness) := ChannelUniforms(ch);
    [ SetFloat(threshold, VS.ChannelThreshold(s, ch)),
      SetFloat(softness, VS.ChannelSoftness(s, ch)),
      SetFloat(thickness, VS.ChannelThickness01(s, ch)),
      SetKeyword(ChannelKeyword(ch), VS.ChannelThickness01(s, ch) > 0.0) ]
  }

  /** Colour and distance falloff. */
  function FalloffUniforms(s: VS.OutlineVolumeSettings): seq<Command>
  {
    [ SetColor(OutlineColor, s.outlineColor),
      SetFloat(NearThickness, s.nearThickness01),
      SetFloat(FarThickness, s.farThickness01),
      SetFloat(NearAlpha, s.nearAlpha),
      SetFloat(FarAlpha, s.farAlpha),
      SetFloat(DistanceStart, s.distanceStart),
      SetFloat(DistanceEnd, s.distanceEnd) ]
  }

  /** Grazing angle, edge threshold and preview switch. */
  function ShadingUniforms(s: VS.OutlineVolumeSettings): seq<Command>
  {
    [ SetFloat(GrazingAngleThreshold, s.grazingAngleThreshold),
      SetFloat(GrazingAngleOffset, s.grazingAngleOffset),
      SetFloat(EdgeThreshold, s.edgeThreshold),
      SetFloat(PreviewOutlines, Flag(s.previewOutlines)) ]
  }

  /** Everything recorded before the edge-detection dispatch. */
  function DetectionPhase(s: VS.OutlineVolumeSettings, b: PassBindings): seq<Command>
  {
    ComputeSetup(b) + GlobalUniforms(s, b)
    + ChannelCommands(s, VS.DepthEdges) + ChannelCommands(s, VS.NormalEdges)
    + ChannelCommands(s, VS.LumaEdges) + ChannelCommands(s, VS.ColorEdges)
    + FalloffUniforms(s) + ShadingUniforms(s)
  }

  /** The draw kernel's textures, the clock and the animation frame rate. */
  function DrawSetup(s: VS.OutlineVolumeSettings, b: PassBindings): seq<Command>
  {
    [ BindTexture(b.drawKernel, ScreenTexture, RenderTarget(b.source)),
      BindTexture(b.drawKernel, OutlineTargetResource, RenderTarget(b.compute)),
      BindTexture(b.drawKernel, OutlineDrawTarget, RenderTarget(b.draw)),
      SetUnmodelled(Time),
      SetFloat(FrameRate, s.frameRate),
      Reciprocal(InverseFrameRate, s.frameRate) ]
  }

  /** The texture bound to a slot whose asset may be missing. */
  function TextureOr(t: Option<Texture>, fallback: TextureRef): TextureRef
  {
    if t.Some? then Asset(t.value) else fallback
  }

  /** The offset texture (black when missing), its uniforms and its keyword. */
  function OffsetCommands(s: VS.OutlineVolumeSettings, b: PassBindings): seq<Command>
  {
    [ BindTexture(b.drawKernel, OffsetTexture, TextureOr(s.offsetTexture, BlackTexture)),
      SetFloat(TextureSpeed, s.offsetTextureSpeed),
      Reciprocal(TextureScale, s.offsetTextureScale),
      SetFloat(TextureOffset, s.offsetTextureStrength),
      SetKeyword(OffsetEnabled, s.offsetTexture.Some? && s.offsetTextureStrength != 0.0),
      SetFloat(OffsetExcludeSkybox, Flag(s.offsetExcludeSkybox)) ]
  }

  /** The paper texture (white when missing), its uniforms and its keyword. */
  function PaperCommands(s: VS.OutlineVolumeSettings, b: PassBindings): seq<Command>
  {
    [ BindTexture(b.drawKernel, PaperTexture, TextureOr(s.paperTexture, WhiteTexture)),
      SetFloat(PaperTextureSpeed, s.paperTextureSpeed),
      Reciprocal(PaperTextureScale, s.paperTextureScale),
      SetFloat(PaperTextureStrength, s.paperTextureStrength),
      SetFloat(PaperExcludeSkybox, Flag(s.paperExcludeSkybox)),
      SetKeyword(PaperEnabled, s.paperTexture.Some? && s.paperTextureStrength != 0.0) ]
  }

  /** The blur amount and the two blur keywords. */
  function BlurCommands(s: VS.OutlineVolumeSettings): seq<Command>
  {
    [ SetFloat(BlurAmount, s.blurAmount),
      SetKeyword(BlurEnabled, s.blurAmount > 0.0),
      SetKeyword(BlurNoiseEnabled, s.blurNoiseEnabled) ]
  }

  /** Everything recorded between the two dispatches. */
  function DrawPhase(s: VS.OutlineVolumeSettings, b: PassBindings): seq<Command>
  {
    DrawSetup(s, b) + OffsetCommands(s, b) + PaperCommands(s, b) + BlurCommands(s)
  }

  /**
   * The whole trace of an active frame. Keyword toggles sit where the pass
   * makes them, but they act on the global keyword state at once, while the
   * recorded buffer runs only after the pass returns: both dispatches see the
   * state KeywordAfter gives for the whole trace, not the state at their
   * position in it.
   */
  function FrameCommands(s: VS.OutlineVolumeSettings, b: PassBindings): seq<Command>
  {
    DetectionPhase(s, b)
    + [Dispatch(b.computeKernel, b.groupsX, b.groupsY, 1)]
    + DrawPhase(s, b)
    + [Dispatch(b.drawKernel, b.groupsX, b.groupsY, 1)]
    + [Blit(b.draw, b.source)]
  }

  /** Everything recorded before the draw dispatch. */
  function DrawPrefix(s: VS.OutlineVolumeSettings, b: PassBindings): seq<Command>
  {
    DetectionPhase(s, b) + [Dispatch(b.computeKernel, b.groupsX, b.groupsY, 1)] + DrawPhase(s, b)
  }

  // ---- Projections of a trace ----

  predicate IsGpuWork(c: Command)
  {
    c.Dispatch? || c.Blit?
  }

  /** The dispatches and blits of a trace, in order. */
  function GpuWork(t: seq<Command>): (r: seq<Command>)
    ensures |r| <= |t|
  {
    if t == [] then []
    else (if IsGpuWork(t[0]) then [t[0]] else []) + GpuWork(t[1..])
  }

  /** The state of keyword `k` after the toggles of `t` are applied in order, starting from `prior`. */
  function KeywordAfter(prior: bool, t: seq<Command>, k: Keyword): bool
  {
    if t == [] then prior
    else
      var last := t[|t| - 1];
      if last.SetKeyword? && last.keyword == k then last.enabled
      else KeywordAfter(prior, t[..|t| - 1], k)
  }

  /** The last value uploaded to float uniform `u` by `t`, if any. */
  function UploadedValue(t: seq<Command>, u: Uniform): Option<real>
  {
    if t == [] then None
    else
      var last := t[|t| - 1];
      if last.SetFloat? && last.uniform == u then Some(last.value)
      else UploadedValue(t[..|t| - 1], u)
  }

  /** The last colour set for uniform `u` by `t`, if any. */
  function ColorValue(t: seq<Command>, u: Uniform): Option<Color>
  {
    if t == [] then None
    else
      var last := t[|t| - 1];
      if last.SetColor? && last.uniform == u then Some(last.color)
      else ColorValue(t[..|t| - 1], u)
  }

  /** The texture last bound to `slot` of `kernel` by `t`, if any. */
  function BoundTexture(t: seq<Command>, kernel: int, slot: Uniform): Option<TextureRef>
  {
    if t == [] then None
    else
      var last := t[|t| - 1];
      if last.BindTexture? && last.kernel == kernel && last.slot == slot then Some(last.texture)
      else BoundTexture(t[..|t| - 1], kernel, slot)
  }

  // ---- Lemmas about the projections ----

  lemma {:induction false} GpuWorkAppend(a: seq<Command>, b: seq<Command>)
    ensures GpuWork(a + b) == GpuWork(a) + GpuWork(b)
  {
    if a == [] {
      assert a + b == b;
    } else {
      var head := if IsGpuWork(a[0]) then [a[0]] else [];
      assert (a + b)[0] == a[0];
      assert (a + b)[1..] == a[1..] + b;
      GpuWorkAppend(a[1..], b);
      calc {
        GpuWork(a + b);
        head + GpuWork(a[1..] + b);
        head + (GpuWork(a[1..]) + GpuWork(b));
        (head + GpuWork(a[1..])) + GpuWork(b);
        GpuWork(a) + GpuWork(b);
      }
    }
  }

  lemma {:induction false} GpuWorkNone(t: seq<Command>)
    requires forall i :: 0 <= i < |t| ==> !IsGpuWork(t[i])
    ensures GpuWork(t) == []
  {
    if t != [] {
      GpuWorkNone(t[1..]);
    }
  }

  /** A command of an agreeing phase agrees. */
  lemma AgreesMember(s: VS.OutlineVolumeSettings, b: PassBindings, t: seq<Command>, c: Command)
    requires PieceAgrees(s, b, t) && c in t
    ensures CommandAgrees(s, b, c)
  {
    var i :| 0 <= i < |t| && t[i] == c;
  }

  lemma GpuWorkSingle(c: Command)
    ensures GpuWork([c]) == if IsGpuWork(c) then [c] else []
  {
    assert [c][1..] == [];
  }

  /**
   * When every toggle of `k` in `t` sets the same value `v` and there is at
   * least one, the keyword ends at `v`, whatever it was before.
   */
  lemma {:induction false} KeywordSettles(prior: bool, t: seq<Command>, k: Keyword, v: bool)
    requires SetKeyword(k, v) in t
    requires SetKeyword(k, !v) !in t
    ensures KeywordAfter(prior, t, k) == v
  {
    var last := t[|t| - 1];
    if !(last.SetKeyword? && last.keyword == k) {
      var init := t[..|t| - 1];
      assert t == init + [last];
      assert SetKeyword(k, v) in init;
      KeywordSettles(prior, init, k, v);
    }
  }

  /** When every upload to `u` in `t` carries `v` and there is at least one, `v` is the value left. */
  lemma {:induction false} UploadSettles(t: seq<Command>, u: Uniform, v: real)
    requires SetFloat(u, v) in t
    requires forall w :: SetFloat(u, w) in t ==> w == v
    ensures UploadedValue(t, u) == Some(v)
  {
    var last := t[|t| - 1];
    if !(last.SetFloat? && last.uniform == u) {
      var init := t[..|t| - 1];
      assert t == init + [last];
      assert SetFloat(u, v) in init;
      UploadSettles(init, u, v);
    }
  }

  /** When every colour set for `u` in `t` is `c` and there is at least one, `c` is the colour left. */
  lemma {:induction false} ColorSettles(t: seq<Command>, u: Uniform, c: Color)
    requires SetColor(u, c) in t
    requires forall d :: SetColor(u, d) in t ==> d == c
    ensures ColorValue(t, u) == Some(c)
  {
    var last := t[|t| - 1];
    if !(last.SetColor? && last.uniform == u) {
      var init := t[..|t| - 1];
      assert t == init + [last];
      assert SetColor(u, c) in init;
      ColorSettles(init, u, c);
    }
  }

  lemma {:induction false} ColorNone(t: seq<Command>, u: Uniform)
    requires forall d :: SetColor(u, d) !in t
    ensures ColorValue(t, u) == None
  {
    if t != [] {
      var init := t[..|t| - 1];
      assert t == init + [t[|t| - 1]];
      ColorNone(init, u);
    }
  }

  /** When every binding of `slot` of `kernel` in `t` is `x` and there is at least one, `x` stays bound. */
  lemma {:induction false} BindingSettles(t: seq<Command>, kernel: int, slot: Uniform, x: TextureRef)
    requires BindTexture(kernel, slot, x) in t
    requires forall y :: BindTexture(kernel, slot, y) in t ==> y == x
    ensures BoundTexture(t, kernel, slot) == Some(x)
  {
    var last := t[|t| - 1];
    if !(last.BindTexture? && last.kernel == kernel && last.slot == slot) {
      var init := t[..|t| - 1];
      assert t == init + [last];
      assert BindTexture(kernel, slot, x) in init;
      BindingSettles(init, kernel, slot, x);
    }
  }

  lemma {:induction false} BindingNone(t: seq<Command>, kernel: int, slot: Uniform)
    requires forall y :: BindTexture(kernel, slot, y) !in t
    ensures BoundTexture(t, kernel, slot) == None
  {
    if t != [] {
      var init := t[..|t| - 1];
      assert t == init + [t[|t| - 1]];
      BindingNone(init, kernel, slot);
    }
  }

  // ---- Each phase agrees with the tables ----

  lemma ComputeSetupAgrees(s: VS.OutlineVolumeSettings, b: PassBindings)
    ensures PieceAgrees(s, b, ComputeSetup(b))
  {
  }

  lemma GlobalUniformsAgree(s: VS.OutlineVolumeSettings, b: PassBindings)
    ensures PieceAgrees(s, b, GlobalUniforms(s, b))
  {
  }

  lemma ChannelCommandsAgree(s: VS.OutlineVolumeSettings, b: PassBindings, ch: VS.EdgeChannel)
    ensures PieceAgrees(s, b, ChannelCommands(s, ch))
  {
  }

  lemma FalloffUniformsAgree(s: VS.OutlineVolumeSettings, b: PassBindings)
    ensures PieceAgrees(s, b, FalloffUniforms(s))
  {
  }

  lemma ShadingUniformsAgree(s: VS.OutlineVolumeSettings, b: PassBindings)
    ensures PieceAgrees(s, b, ShadingUniforms(s))
  {
  }

  lemma DrawSetupAgrees(s: VS.OutlineVolumeSettings, b: PassBindings)
    ensures PieceAgrees(s, b, DrawSetup(s, b))
  {
  }

  lemma OffsetCommandsAgree(s: VS.OutlineVolumeSettings, b: PassBindings)
    ensures PieceAgrees(s, b, OffsetCommands(s, b))
  {
  }

  lemma PaperCommandsAgree(s: VS.OutlineVolumeSettings, b: PassBindings)
    ensures PieceAgrees(s, b, PaperCommands(s, b))
  {
  }

  lemma BlurCommandsAgree(s: VS.OutlineVolumeSettings, b: PassBindings)
    ensures PieceAgrees(s, b, BlurCommands(s))
  {
  }

  /** Agreement survives concatenation. */
  lemma AgreesAppend(s: VS.OutlineVolumeSettings, b: PassBindings, x: seq<Command>, y: seq<Command>)
    requires PieceAgrees(s, b, x) && PieceAgrees(s, b, y)
    ensures PieceAgrees(s, b, x + y)
  {
  }

  /** Everything recorded before the first dispatch agrees with the tables. */
  lemma DetectionAgrees(s: VS.OutlineVolumeSettings, b: PassBindings)
    ensures PieceAgrees(s, b, DetectionPhase(s, b))
  {
    ComputeSetupAgrees(s, b);
    GlobalUniformsAgree(s, b);
    ChannelCommandsAgree(s, b, VS.DepthEdges);
    ChannelCommandsAgree(s, b, VS.NormalEdges);
    ChannelCommandsAgree(s, b, VS.LumaEdges);
    ChannelCommandsAgree(s, b, VS.ColorEdges);
    FalloffUniformsAgree(s, b);
    ShadingUniformsAgree(s, b);
    var t := ComputeSetup(b);
    AgreesAppend(s, b, t, GlobalUniforms(s, b));
    t := t + GlobalUniforms(s, b);
    AgreesAppend(s, b, t, ChannelCommands(s, VS.DepthEdges));
    t := t + ChannelCommands(s, VS.DepthEdges);
    AgreesAppend(s, b, t, ChannelCommands(s, VS.NormalEdges));
    t := t + ChannelCommands(s, VS.NormalEdges);
    AgreesAppend(s, b, t, ChannelCommands(s, VS.LumaEdges));
    t := t + ChannelCommands(s, VS.LumaEdges);
    AgreesAppend(s, b, t, ChannelCommands(s, VS.ColorEdges));
    t := t + ChannelCommands(s, VS.ColorEdges);
    AgreesAppend(s, b, t, FalloffUniforms(s));
    t := t + FalloffUniforms(s);
    AgreesAppend(s, b, t, ShadingUniforms(s));
  }

  /** Everything recorded between the two dispatches agrees with the tables. */
  lemma DrawAgrees(s: VS.OutlineVolumeSettings, b: PassBindings)
    ensures PieceAgrees(s, b, DrawPhase(s, b))
  {
    DrawSetupAgrees(s, b);
    OffsetCommandsAgree(s, b);
    PaperCommandsAgree(s, b);
    BlurCommandsAgree(s, b);
    AgreesAppend(s, b, DrawSetup(s, b), OffsetCommands(s, b));
    AgreesAppend(s, b, DrawSetup(s, b) + OffsetCommands(s, b), PaperCommands(s, b));
    AgreesAppend(s, b, DrawSetup(s, b) + OffsetCommands(s, b) + PaperCommands(s, b), BlurCommands(s));
  }

  // ---- What an active frame does ----

  /**
   * The GPU work of an active frame is exactly: the edge-detection dispatch,
   * then the draw dispatch, both over (groupsX, groupsY, 1), then the blit of
   * the draw target onto the camera colour target.
   */
  lemma FrameGpuOrder(s: VS.OutlineVolumeSettings, b: PassBindings)
    ensures GpuWork(FrameCommands(s, b)) ==
      [ Dispatch(b.computeKernel, b.groupsX, b.groupsY, 1),
        Dispatch(b.drawKernel, b.groupsX, b.groupsY, 1),
        Blit(b.draw, b.source) ]
  {
    DetectionAgrees(s, b);
    DrawAgrees(s, b);
    GpuWorkNone(DetectionPhase(s, b));
    GpuWorkNone(DrawPhase(s, b));
    GpuWorkBetween(DetectionPhase(s, b), DrawPhase(s, b),
      Dispatch(b.computeKernel, b.groupsX, b.groupsY, 1),
      Dispatch(b.drawKernel, b.groupsX, b.groupsY, 1),
      Blit(b.draw, b.source));
  }

  /** GPU work interleaved with two stretches that hold none: only the GPU work remains, in order. */
  lemma GpuWorkBetween(detect: seq<Command>, draw: seq<Command>, d1: Command, d2: Command, blit: Command)
    requires GpuWork(detect) == [] && GpuWork(draw) == []
    requires IsGpuWork(d1) && IsGpuWork(d2) && IsGpuWork(blit)
    ensures GpuWork(detect + [d1] + draw + [d2] + [blit]) == [d1, d2, blit]
  {
    GpuWorkPush(detect, d1);
    GpuWorkAppend(detect + [d1], draw);
    GpuWorkPush(detect + [d1] + draw, d2);
    GpuWorkPush(detect + [d1] + draw + [d2], blit);
  }

  lemma GpuWorkPush(t: seq<Command>, c: Command)
    requires IsGpuWork(c)
    ensures GpuWork(t + [c]) == GpuWork(t) + [c]
  {
    GpuWorkSingle(c);
    GpuWorkAppend(t, [c]);
  }

  /** Every keyword is toggled in an active frame to the value KeywordOn gives. */
  lemma FrameTogglesEveryKeyword(s: VS.OutlineVolumeSettings, b: PassBindings, k: Keyword)
    ensures SetKeyword(k, KeywordOn(s, k)) in FrameCommands(s, b)
  {
    var c := SetKeyword(k, KeywordOn(s, k));
    match k
    case DepthEnabled => assert c in ChannelCommands(s, VS.DepthEdges);
    case NormalEnabled => assert c in ChannelCommands(s, VS.NormalEdges);
    case LumaEnabled => assert c in ChannelCommands(s, VS.LumaEdges);
    case ColorEnabled => assert c in ChannelCommands(s, VS.ColorEdges);
    case OffsetEnabled => assert c in OffsetCommands(s, b);
    case PaperEnabled => assert c in PaperCommands(s, b);
    case BlurEnabled => assert c in BlurCommands(s);
    case BlurNoiseEnabled => assert c in BlurCommands(s);
  }

  /**
   * After an active frame every keyword is on exactly when KeywordOn says:
   * each channel keyword iff its thickness fraction is positive (so off at
   * exactly 0), offset and paper iff the texture is present and the strength
   * non-zero, blur iff the amount is positive, blur noise iff its switch is set.
   */
  lemma FrameKeywords(s: VS.OutlineVolumeSettings, b: PassBindings, prior: bool, k: Keyword)
    ensures KeywordAfter(prior, FrameCommands(s, b), k) == KeywordOn(s, k)
  {
    FrameTogglesEveryKeyword(s, b, k);
    FrameAgrees(s, b);
    KeywordSettles(prior, FrameCommands(s, b), k, KeywordOn(s, k));
  }

  /** The uploads, colours, bindings and toggles of a whole active frame agree with the tables. */
  lemma FrameAgrees(s: VS.OutlineVolumeSettings, b: PassBindings)
    ensures forall u, w :: SetFloat(u, w) in FrameCommands(s, b) ==> ExpectedUpload(s, b, u) == Some(w)
    ensures forall u, c :: SetColor(u, c) in FrameCommands(s, b) ==> ExpectedColor(s, u) == Some(c)
    ensures forall k, slot, x :: BindTexture(k, slot, x) in FrameCommands(s, b) ==> ExpectedBinding(s, b, k, slot) == Some(x)
    ensures forall k, v :: SetKeyword(k, v) in FrameCommands(s, b) ==> v == KeywordOn(s, k)
  {
    DetectionAgrees(s, b);
    DrawAgrees(s, b);
    AgreesAround(s, b, DetectionPhase(s, b), DrawPhase(s, b),
      Dispatch(b.computeKernel, b.groupsX, b.groupsY, 1),
      Dispatch(b.drawKernel, b.groupsX, b.groupsY, 1),
      Blit(b.draw, b.source));
  }

  /** Two agreeing stretches around GPU work: every upload, colour, binding and toggle of the whole agrees. */
  lemma AgreesAround(s: VS.OutlineVolumeSettings, b: PassBindings, detect: seq<Command>, draw: seq<Command>,
                     d1: Command, d2: Command, blit: Command)
    requires PieceAgrees(s, b, detect) && PieceAgrees(s, b, draw)
    requires IsGpuWork(d1) && IsGpuWork(d2) && IsGpuWork(blit)
    ensures forall u, w :: SetFloat(u, w) in detect + [d1] + draw + [d2] + [blit] ==> ExpectedUpload(s, b, u) == Some(w)
    ensures forall u, c :: SetColor(u, c) in detect + [d1] + draw + [d2] + [blit] ==> ExpectedColor(s, u) == Some(c)
    ensures forall k, slot, x :: BindTexture(k, slot, x) in detect + [d1] + draw + [d2] + [blit] ==>
      ExpectedBinding(s, b, k, slot) == Some(x)
    ensures forall k, v :: SetKeyword(k, v) in detect + [d1] + draw + [d2] + [blit] ==> v == KeywordOn(s, k)
  {
    forall c | c in detect + [d1] + draw + [d2] + [blit] && !IsGpuWork(c)
      ensures CommandAgrees(s, b, c)
    {
      if c in detect {
        AgreesMember(s, b, detect, c);
      } else {
        AgreesMember(s, b, draw, c);
      }
    }
  }

  /** Every uniform the table gives a value is uploaded with it in an active frame. */
  lemma FrameUploadsComplete(s: VS.OutlineVolumeSettings, b: PassBindings, u: Uniform)
    requires ExpectedUpload(s, b, u).Some?
    ensures SetFloat(u, ExpectedUpload(s, b, u).value) in FrameCommands(s, b)
  {
    ExpectedUploadsGrouped(s, b, u);
    GlobalUploaded(s, b, u);
    DepthUploaded(s, b, u);
    NormalUploaded(s, b, u);
    LumaUploaded(s, b, u);
    ColorUploaded(s, b, u);
    FalloffUploaded(s, b, u);
    ShadingUploaded(s, b, u);
    DrawSetupUploaded(s, b, u);
    OffsetUploaded(s, b, u);
    PaperUploaded(s, b, u);
    BlurUploaded(s, b, u);
  }

  // ---- Every modelled uniform is uploaded, piece by piece ----

  const GlobalUploads: set<Uniform> := {MaximumOutlineThickness, ExcludeSkybox}
  const DepthUploads: set<Uniform> := {DepthThreshold, DepthSoftness, DepthThickness}
  const NormalUploads: set<Uniform> := {NormalThreshold, NormalSoftness, NormalThickness}
  const LumaUploads: set<Uniform> := {LumaThreshold, LumaSoftness, LumaThickness}
  const ColorUploads: set<Uniform> := {ColorThreshold, ColorSoftness, ColorThickness}
  const FalloffUploads: set<Uniform> := {NearThickness, FarThickness, NearAlpha, FarAlpha, DistanceStart, DistanceEnd}
  const ShadingUploads: set<Uniform> := {GrazingAngleThreshold, GrazingAngleOffset, EdgeThreshold, PreviewOutlines}
  const DrawSetupUploads: set<Uniform> := {FrameRate, InverseFrameRate}
  const OffsetUploads: set<Uniform> := {TextureSpeed, TextureScale, TextureOffset, OffsetExcludeSkybox}
  const PaperUploads: set<Uniform> := {PaperTextureSpeed, PaperTextureScale, PaperTextureStrength, PaperExcludeSkybox}
  const BlurUploads: set<Uniform> := {BlurAmount}

  /** The modelled uniforms of the maximum thickness and the skybox switch are uploaded with their values. */
  lemma GlobalUploaded(s: VS.OutlineVolumeSettings, b: PassBindings, u: Uniform)
    ensures u in GlobalUploads && ExpectedUpload(s, b, u).Some? ==>
      SetFloat(u, ExpectedUpload(s, b, u).value) in GlobalUniforms(s, b)
  {
    match u
    case MaximumOutlineThickness =>
    case ExcludeSkybox =>
    case _ =>
  }

  /** The modelled uniforms of the depth channel are uploaded with their values. */
  lemma DepthUploaded(s: VS.OutlineVolumeSettings, b: PassBindings, u: Uniform)
    ensures u in DepthUploads && ExpectedUpload(s, b, u).Some? ==>
      SetFloat(u, ExpectedUpload(s, b, u).value) in ChannelCommands(s, VS.DepthEdges)
  {
    match u
    case DepthThreshold =>
    case DepthSoftness =>
    case DepthThickness =>
    case _ =>
  }

  /** The modelled uniforms of the normal channel are uploaded with their values. */
  lemma NormalUploaded(s: VS.OutlineVolumeSettings, b: PassBindings, u: Uniform)
    ensures u in NormalUploads && ExpectedUpload(s, b, u).Some? ==>
      SetFloat(u, ExpectedUpload(s, b, u).value) in ChannelCommands(s, VS.NormalEdges)
  {
    match u
    case NormalThreshold =>
    case NormalSoftness =>
    case NormalThickness =>
    case _ =>
  }

  /** The modelled uniforms of the luma channel are uploaded with their values. */
  lemma LumaUploaded(s: VS.OutlineVolumeSettings, b: PassBindings, u: Uniform)
    ensures u in LumaUploads && ExpectedUpload(s, b, u).Some? ==>
      SetFloat(u, ExpectedUpload(s, b, u).value) in ChannelCommands(s, VS.LumaEdges)
  {
    match u
    case LumaThreshold =>
    case LumaSoftness =>
    case LumaThickness =>
    case _ =>
  }

  /** The modelled uniforms of the colour channel are uploaded with their values. */
  lemma ColorUploaded(s: VS.OutlineVolumeSettings, b: PassBindings, u: Uniform)
    ensures u in ColorUploads && ExpectedUpload(s, b, u).Some? ==>
      SetFloat(u, ExpectedUpload(s, b, u).value) in ChannelCommands(s, VS.ColorEdges)
  {
    match u
    case ColorThreshold =>
    case ColorSoftness =>
    case ColorThickness =>
    case _ =>
  }

  /** The modelled uniforms of the distance falloff are uploaded with their values. */
  lemma FalloffUploaded(s: VS.OutlineVolumeSettings, b: PassBindings, u: Uniform)
    ensures u in FalloffUploads && ExpectedUpload(s, b, u).Some? ==>
      SetFloat(u, ExpectedUpload(s, b, u).value) in FalloffUniforms(s)
  {
    match u
    case NearThickness =>
    case FarThickness =>
    case NearAlpha =>
    case FarAlpha =>
    case DistanceStart =>
    case DistanceEnd =>
    case _ =>
  }

  /** The modelled uniforms of the grazing angle, the edge threshold and the preview switch are uploaded with their values. */
  lemma ShadingUploaded(s: VS.OutlineVolumeSettings, b: PassBindings, u: Uniform)
    ensures u in ShadingUploads && ExpectedUpload(s, b, u).Some? ==>
      SetFloat(u, ExpectedUpload(s, b, u).value) in ShadingUniforms(s)
  {
    match u
    case GrazingAngleThreshold =>
    case GrazingAngleOffset =>
    case EdgeThreshold =>
    case PreviewOutlines =>
    case _ =>
  }

  /** The modelled uniforms of the frame rate are uploaded with their values. */
  lemma DrawSetupUploaded(s: VS.OutlineVolumeSettings, b: PassBindings, u: Uniform)
    ensures u in DrawSetupUploads && ExpectedUpload(s, b, u).Some? ==>
      SetFloat(u, ExpectedUpload(s, b, u).value) in DrawSetup(s, b)
  {
    match u
    case FrameRate =>
    case InverseFrameRate =>
    case _ =>
  }

  /** The modelled uniforms of the offset texture are uploaded with their values. */
  lemma OffsetUploaded(s: VS.OutlineVolumeSettings, b: PassBindings, u: Uniform)
    ensures u in OffsetUploads && ExpectedUpload(s, b, u).Some? ==>
      SetFloat(u, ExpectedUpload(s, b, u).value) in OffsetCommands(s, b)
  {
    match u
    case TextureSpeed =>
    case TextureScale =>
    case TextureOffset =>
    case OffsetExcludeSkybox =>
    case _ =>
  }

  /** The modelled uniforms of the paper texture are uploaded with their values. */
  lemma PaperUploaded(s: VS.OutlineVolumeSettings, b: PassBindings, u: Uniform)
    ensures u in PaperUploads && ExpectedUpload(s, b, u).Some? ==>
      SetFloat(u, ExpectedUpload(s, b, u).value) in PaperCommands(s, b)
  {
    match u
    case PaperTextureSpeed =>
    case PaperTextureScale =>
    case PaperTextureStrength =>
    case PaperExcludeSkybox =>
    case _ =>
  }

  /** The modelled uniforms of the blur are uploaded with their values. */
  lemma BlurUploaded(s: VS.OutlineVolumeSettings, b: PassBindings, u: Uniform)
    ensures u in BlurUploads && ExpectedUpload(s, b, u).Some? ==>
      SetFloat(u, ExpectedUpload(s, b, u).value) in BlurCommands(s)
  {
    match u
    case BlurAmount =>
    case _ =>
  }

  /** Every uniform with a modelled value is uploaded by some part of the frame. */
  lemma ExpectedUploadsGrouped(s: VS.OutlineVolumeSettings, b: PassBindings, u: Uniform)
    ensures ExpectedUpload(s, b, u).Some? ==>
      u in GlobalUploads || u in DepthUploads || u in NormalUploads || u in LumaUploads || u in ColorUploads || u in FalloffUploads
      || u in ShadingUploads || u in DrawSetupUploads || u in OffsetUploads || u in PaperUploads || u in BlurUploads
  {
  }

  /** The float uploads of an active frame are exactly those ExpectedUpload lists. */
  lemma FrameUploads(s: VS.OutlineVolumeSettings, b: PassBindings, u: Uniform, w: real)
    ensures SetFloat(u, w) in FrameCommands(s, b) <==> ExpectedUpload(s, b, u) == Some(w)
  {
    FrameAgrees(s, b);
    if ExpectedUpload(s, b, u) == Some(w) {
      FrameUploadsComplete(s, b, u);
    }
  }

  /** Every float uniform with a modelled value ends the frame holding exactly that value. */
  lemma FrameUniformValues(s: VS.OutlineVolumeSettings, b: PassBindings, u: Uniform)
    ensures UploadedValue(FrameCommands(s, b), u) == ExpectedUpload(s, b, u)
  {
    var t := FrameCommands(s, b);
    FrameAgrees(s, b);
    match ExpectedUpload(s, b, u)
    case Some(v) =>
      FrameUploadsComplete(s, b, u);
      UploadSettles(t, u, v);
    case None =>
      UploadNone(t, u);
  }

  /**
   * The maximum thickness the kernels see is the configured one times the
   * resolution ratio; with a reference of 1080 and a 2160-pixel target it is doubled.
   */
  lemma FrameMaximumThickness(s: VS.OutlineVolumeSettings, b: PassBindings)
    ensures UploadedValue(FrameCommands(s, b), MaximumOutlineThickness)
      == Some(s.maximumOutlineThickness * ThicknessRatio(s.resolutionScaling, b.targetHeight))
    ensures s.resolutionScaling == VS.FullHD1080 && b.targetHeight == 2160 ==>
      UploadedValue(FrameCommands(s, b), MaximumOutlineThickness) == Some(2.0 * s.maximumOutlineThickness)
  {
    FrameUniformValues(s, b, MaximumOutlineThickness);
  }

  lemma {:induction false} UploadNone(t: seq<Command>, u: Uniform)
    requires forall w :: SetFloat(u, w) !in t
    ensures UploadedValue(t, u) == None
  {
    if t != [] {
      var init := t[..|t| - 1];
      assert t == init + [t[|t| - 1]];
      UploadNone(init, u);
    }
  }

  // ---- Colours and texture bindings ----

  /** After an active frame the outline colour holds the configured colour, and no other colour uniform is set. */
  lemma FrameColorValues(s: VS.OutlineVolumeSettings, b: PassBindings, u: Uniform)
    ensures ColorValue(FrameCommands(s, b), u) == ExpectedColor(s, u)
  {
    FrameAgrees(s, b);
    if u == OutlineColor {
      assert SetColor(u, s.outlineColor) in FalloffUniforms(s);
      assert SetColor(u, s.outlineColor) in FrameCommands(s, b);
      ColorSettles(FrameCommands(s, b), u, s.outlineColor);
    } else {
      ColorNone(FrameCommands(s, b), u);
    }
  }

  /** Every binding the table asks for is recorded before the draw dispatch. */
  lemma BindingsRecorded(s: VS.OutlineVolumeSettings, b: PassBindings, k: int, slot: Uniform)
    ensures ExpectedBinding(s, b, k, slot).Some? ==>
      BindTexture(k, slot, ExpectedBinding(s, b, k, slot).value) in DrawPrefix(s, b)
  {
    match slot
    case ScreenTexture =>
      if k == b.computeKernel {
        assert BindTexture(k, slot, RenderTarget(b.source)) in ComputeSetup(b);
      } else if k == b.drawKernel {
        assert BindTexture(k, slot, RenderTarget(b.source)) in DrawSetup(s, b);
      }
    case OutlineTarget =>
      assert BindTexture(b.computeKernel, slot, RenderTarget(b.compute)) in ComputeSetup(b);
    case OutlineTargetResource =>
      assert BindTexture(b.drawKernel, slot, RenderTarget(b.compute)) in DrawSetup(s, b);
    case OutlineDrawTarget =>
      assert BindTexture(b.drawKernel, slot, RenderTarget(b.draw)) in DrawSetup(s, b);
    case OffsetTexture =>
      assert BindTexture(b.drawKernel, slot, TextureOr(s.offsetTexture, BlackTexture)) in OffsetCommands(s, b);
    case PaperTexture =>
      assert BindTexture(b.drawKernel, slot, TextureOr(s.paperTexture, WhiteTexture)) in PaperCommands(s, b);
    case _ =>
  }

  /** A binding recorded before the draw dispatch is the one the table gives. */
  lemma PrefixBindingAgrees(s: VS.OutlineVolumeSettings, b: PassBindings, k: int, slot: Uniform, y: TextureRef)
    requires BindTexture(k, slot, y) in DrawPrefix(s, b)
    ensures ExpectedBinding(s, b, k, slot) == Some(y)
  {
    FrameAgrees(s, b);
    assert BindTexture(k, slot, y) in FrameCommands(s, b);
  }

  /**
   * When the draw kernel is dispatched, every slot of every kernel holds the
   * texture the table gives it, and slots the table leaves out are unbound.
   */
  lemma DrawDispatchBindings(s: VS.OutlineVolumeSettings, b: PassBindings, k: int, slot: Uniform)
    ensures BoundTexture(DrawPrefix(s, b), k, slot) == ExpectedBinding(s, b, k, slot)
  {
    BindingsRecorded(s, b, k, slot);
    forall y | BindTexture(k, slot, y) in DrawPrefix(s, b)
      ensures ExpectedBinding(s, b, k, slot) == Some(y)
    {
      PrefixBindingAgrees(s, b, k, slot, y);
    }
    match ExpectedBinding(s, b, k, slot)
    case Some(x) =>
      BindingSettles(DrawPrefix(s, b), k, slot, x);
    case None =>
      BindingNone(DrawPrefix(s, b), k, slot);
  }

  /**
   * The data flow between the two kernels: the edge kernel writes the edge
   * target when it is dispatched, and when the draw kernel is dispatched it
   * reads that same edge target and writes the draw target.
   */
  lemma KernelDataFlow(s: VS.OutlineVolumeSettings, b: PassBindings)
    ensures BoundTexture(DetectionPhase(s, b), b.computeKernel, OutlineTarget) == Some(RenderTarget(b.compute))
    ensures BoundTexture(DrawPrefix(s, b), b.drawKernel, OutlineTargetResource) == Some(RenderTarget(b.compute))
    ensures BoundTexture(DrawPrefix(s, b), b.drawKernel, OutlineDrawTarget) == Some(RenderTarget(b.draw))
  {
    EdgeDispatchBindings(s, b);
    DrawDispatchBindings(s, b, b.drawKernel, OutlineTargetResource);
    DrawDispatchBindings(s, b, b.drawKernel, OutlineDrawTarget);
  }

  /**
   * What the draw kernel samples when it is dispatched: the camera colour,
   * the offset texture or black when none is set, and the paper texture or
   * white when none is set.
   */
  lemma DrawKernelSamples(s: VS.OutlineVolumeSettings, b: PassBindings)
    ensures BoundTexture(DrawPrefix(s, b), b.drawKernel, ScreenTexture) == Some(RenderTarget(b.source))
    ensures BoundTexture(DrawPrefix(s, b), b.drawKernel, OffsetTexture) ==
      Some(if s.offsetTexture.Some? then Asset(s.offsetTexture.value) else BlackTexture)
    ensures BoundTexture(DrawPrefix(s, b), b.drawKernel, PaperTexture) ==
      Some(if s.paperTexture.Some? then Asset(s.paperTexture.value) else WhiteTexture)
  {
    DrawDispatchBindings(s, b, b.drawKernel, ScreenTexture);
    DrawDispatchBindings(s, b, b.drawKernel, OffsetTexture);
    DrawDispatchBindings(s, b, b.drawKernel, PaperTexture);
  }

  /** The edge kernel's two slots are bound before its dispatch, as the table says. */
  lemma EdgeDispatchBindings(s: VS.OutlineVolumeSettings, b: PassBindings)
    ensures BoundTexture(DetectionPhase(s, b), b.computeKernel, ScreenTexture) == Some(RenderTarget(b.source))
    ensures BoundTexture(DetectionPhase(s, b), b.computeKernel, OutlineTarget) == Some(RenderTarget(b.compute))
  {
    var t := DetectionPhase(s, b);
    DetectionAgrees(s, b);
    forall slot, y | BindTexture(b.computeKernel, slot, y) in t
      ensures ExpectedBinding(s, b, b.computeKernel, slot) == Some(y)
    {
      AgreesMember(s, b, t, BindTexture(b.computeKernel, slot, y));
    }
    assert BindTexture(b.computeKernel, ScreenTexture, RenderTarget(b.source)) in ComputeSetup(b);
    assert BindTexture(b.computeKernel, OutlineTarget, RenderTarget(b.compute)) in ComputeSetup(b);
    BindingSettles(t, b.computeKernel, ScreenTexture, RenderTarget(b.source));
    BindingSettles(t, b.computeKernel, OutlineTarget, RenderTarget(b.compute));
  }

  /** After an active frame every slot of every kernel holds the texture the table gives it. */
  lemma FrameBindingValues(s: VS.OutlineVolumeSettings, b: PassBindings, k: int, slot: Uniform)
    ensures BoundTexture(FrameCommands(s, b), k, slot) == ExpectedBinding(s, b, k, slot)
  {
    var t := FrameCommands(s, b);
    var d2 := Dispatch(b.drawKernel, b.groupsX, b.groupsY, 1);
    assert t[..|t| - 1] == DrawPrefix(s, b) + [d2];
    assert (DrawPrefix(s, b) + [d2])[..|t| - 2] == DrawPrefix(s, b);
    DrawDispatchBindings(s, b, k, slot);
  }
}
