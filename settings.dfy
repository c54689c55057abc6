/**
 * The outline volume settings: every parameter with its default and its
 * declared range, the write-time clamping that keeps each value inside its
 * range, the activity gate and the reference-resolution enumeration.
 */
module VolumeSettings {
  import opened Engine

  /** Reference resolutions for thickness scaling; each value is a pixel height. */
  datatype ReferenceResolution = Disabled | HD720 | FullHD1080 | QHD1440 | UHD2160

  /** The integer value of an enumerator: the pixel height it names, 0 for Disabled. */
  function PixelHeight(r: ReferenceResolution): (h: nat)
    ensures h == 0 <==> r == Disabled
    ensures r != Disabled ==> 720 <= h <= 2160
  {
    match r
    case Disabled => 0
    case HD720 => 720
    case FullHD1080 => 1080
    case QHD1440 => 1440
    case UHD2160 => 2160
  }

  /** The enumerator whose integer value is `h`, if there is one. */
  function FromPixelHeight(h: int): Option<ReferenceResolution>
  {
    if h == 0 then Some(Disabled)
    else if h == 720 then Some(HD720)
    else if h == 1080 then Some(FullHD1080)
    else if h == 1440 then Some(QHD1440)
    else if h == 2160 then Some(UHD2160)
    else None
  }

  /** Distinct enumerators have distinct values, and every value names its enumerator back. */
  lemma PixelHeightRoundTrip(r: ReferenceResolution, h: int)
    ensures FromPixelHeight(PixelHeight(r)) == Some(r)
    ensures FromPixelHeight(h) == Some(r) <==> PixelHeight(r) == h
  {
  }

  /** The declared range of a float parameter. */
  datatype Range = Unbounded | AtLeast(min: real) | Between(min: real, max: real)
  {
    predicate WellFormed()
    {
      Between? ==> min <= max
    }

    predicate Contains(v: real)
    {
      match this
      case Unbounded => true
      case AtLeast(lo) => lo <= v
      case Between(lo, hi) => lo <= v <= hi
    }
  }

  function Distance(x: real, y: real): real
  {
    if x <= y then y - x else x - y
  }

  /**
   * What a parameter's setter stores when given `v`: the value itself when it
   * lies in the range, otherwise the nearest bound.
   */
  function Clamp(range: Range, v: real): (r: real)
    requires range.WellFormed()
    ensures range.Contains(r)
    ensures range.Contains(v) ==> r == v
    ensures forall x :: range.Contains(x) ==> Distance(r, v) <= Distance(x, v)
  {
    match range
    case Unbounded => v
    case AtLeast(lo) => if v < lo then lo else v
    case Between(lo, hi) => if v < lo then lo else if v > hi then hi else v
  }

  /** The float parameters of the settings record. */
  datatype FloatParam =
    | MaximumOutlineThicknessParam | EdgeThresholdParam | FrameRateParam
    | DepthThickness01Param | DepthThresholdParam | DepthSoftnessParam
    | NormalThickness01Param | NormalThresholdParam | NormalSoftnessParam
    | LumaThickness01Param | LumaThresholdParam | LumaSoftnessParam
    | ColorThickness01Param | ColorThresholdParam | ColorSoftnessParam
    | DistanceStartParam | DistanceEndParam
    | NearThickness01Param | FarThickness01Param | NearAlphaParam | FarAlphaParam
    | GrazingAngleThresholdParam | GrazingAngleOffsetParam
    | OffsetTextureStrengthParam | OffsetTextureScaleParam | OffsetTextureSpeedParam
    | PaperTextureStrengthParam | PaperTextureScaleParam | PaperTextureSpeedParam
    | BlurAmountParam

  const MinZero := AtLeast(0.0)
  const UnitInterval := Between(0.0, 1.0)

  /** The range each parameter is declared with. */
  function RangeOf(p: FloatParam): (range: Range)
    ensures range.WellFormed()
  {
    match p
    case MaximumOutlineThicknessParam => MinZero
    case EdgeThresholdParam => UnitInterval
    case FrameRateParam => MinZero
    case DepthThickness01Param => UnitInterval
    case DepthThresholdParam => MinZero
    case DepthSoftnessParam => MinZero
    case NormalThickness01Param => UnitInterval
    case NormalThresholdParam => MinZero
    case NormalSoftnessParam => MinZero
    case LumaThickness01Param => UnitInterval
    case LumaThresholdParam => MinZero
    case LumaSoftnessParam => MinZero
    case ColorThickness01Param => UnitInterval
    case ColorThresholdParam => MinZero
    case ColorSoftnessParam => MinZero
    case DistanceStartParam => MinZero
    case DistanceEndParam => MinZero
    case NearThickness01Param => UnitInterval
    case FarThickness01Param => UnitInterval
    case NearAlphaParam => UnitInterval
    case FarAlphaParam => UnitInterval
    case GrazingAngleThresholdParam => MinZero
    case GrazingAngleOffsetParam => MinZero
    case OffsetTextureStrengthParam => MinZero
    case OffsetTextureScaleParam => MinZero
    case OffsetTextureSpeedParam => Unbounded
    case PaperTextureStrengthParam => UnitInterval
    case PaperTextureScaleParam => MinZero
    case PaperTextureSpeedParam => Unbounded
    case BlurAmountParam => MinZero
  }

  /** The four edge-detection channels. */
  datatype EdgeChannel = DepthEdges | NormalEdges | LumaEdges | ColorEdges

  /** The resolved values of the settings for one frame. */
  datatype OutlineVolumeSettings = OutlineVolumeSettings(
    outlineColor: Color,
    maximumOutlineThickness: real,
    edgeThreshold: real,
    excludeSkybox: bool,
    resolutionScaling: ReferenceResolution,
    frameRate: real,
    depthThickness01: real,
    depthThreshold: real,
    depthSoftness: real,
    normalThickness01: real,
    normalThreshold: real,
    normalSoftness: real,
    lumaThickness01: real,
    lumaThreshold: real,
    lumaSoftness: real,
    colorThickness01: real,
    colorThreshold: real,
    colorSoftness: real,
    distanceStart: real,
    distanceEnd: real,
    nearThickness01: real,
    farThickness01: real,
    nearAlpha: real,
    farAlpha: real,
    grazingAngleThreshold: real,
    grazingAngleOffset: real,
    offsetTexture: Option<Texture>,
    offsetTextureStrength: real,
    offsetTextureScale: real,
    offsetTextureSpeed: real,
    offsetExcludeSkybox: bool,
    paperTexture: Option<Texture>,
    paperTextureStrength: real,
    paperTextureScale: real,
    paperTextureSpeed: real,
    paperExcludeSkybox: bool,
    blurAmount: real,
    blurNoiseEnabled: bool,
    previewOutlines: bool)
  {
    /** The effect draws only with a positive maximum thickness and a visible colour. */
    predicate IsActive()
    {
      maximumOutlineThickness > 0.0 && outlineColor.a > 0.0
    }

    /** The effect never declares itself compatible with tile-based rendering. */
    function IsTileCompatible(): bool
    {
      false
    }

    /** Every float parameter lies in its declared range. */
    predicate Valid()
    {
      && 0.0 <= maximumOutlineThickness
      && 0.0 <= edgeThreshold <= 1.0
      && 0.0 <= frameRate
      && 0.0 <= depthThickness01 <= 1.0
      && 0.0 <= depthThreshold
      && 0.0 <= depthSoftness
      && 0.0 <= normalThickness01 <= 1.0
      && 0.0 <= normalThreshold
      && 0.0 <= normalSoftness
      && 0.0 <= lumaThickness01 <= 1.0
      && 0.0 <= lumaThreshold
      && 0.0 <= lumaSoftness
      && 0.0 <= colorThickness01 <= 1.0
      && 0.0 <= colorThreshold
      && 0.0 <= colorSoftness
      && 0.0 <= distanceStart
      && 0.0 <= distanceEnd
      && 0.0 <= nearThickness01 <= 1.0
      && 0.0 <= farThickness01 <= 1.0
      && 0.0 <= nearAlpha <= 1.0
      && 0.0 <= farAlpha <= 1.0
      && 0.0 <= grazingAngleThreshold
      && 0.0 <= grazingAngleOffset
      && 0.0 <= offsetTextureStrength
      && 0.0 <= offsetTextureScale
      && 0.0 <= paperTextureStrength <= 1.0
      && 0.0 <= paperTextureScale
      && 0.0 <= blurAmount
    }
  }

  /** The settings as declared, before any volume overrides them. */
  function Default(): (s: OutlineVolumeSettings)
    ensures s.Valid()
    ensures !s.IsActive()
    ensures s.outlineColor == Black && s.outlineColor.a == 1.0 && s.maximumOutlineThickness == 0.0
    ensures s.resolutionScaling == FullHD1080 && PixelHeight(s.resolutionScaling) == 1080
  {
    OutlineVolumeSettings(
      outlineColor := Black,
      maximumOutlineThickness := 0.0,
      edgeThreshold := 0.0,
      excludeSkybox := true,
      resolutionScaling := FullHD1080,
      frameRate := 6.0,
      depthThickness01 := 1.0,
      depthThreshold := 1.0,
      depthSoftness := 0.1,
      normalThickness01 := 1.0,
      normalThreshold := 0.5,
      normalSoftness := 0.5,
      lumaThickness01 := 1.0,
      lumaThreshold := 0.2,
      lumaSoftness := 0.1,
      colorThickness01 := 1.0,
      colorThreshold := 0.2,
      colorSoftness := 0.1,
      distanceStart := 0.0,
      distanceEnd := 100.0,
      nearThickness01 := 1.0,
      farThickness01 := 1.0,
      nearAlpha := 1.0,
      farAlpha := 1.0,
      grazingAngleThreshold := 0.2,
      grazingAngleOffset := 3.0,
      offsetTexture := None,
      offsetTextureStrength := 0.0,
      offsetTextureScale := 3.0,
      offsetTextureSpeed := 10.0,
      offsetExcludeSkybox := true,
      paperTexture := None,
      paperTextureStrength := 0.0,
      paperTextureScale := 10.0,
      paperTextureSpeed := 0.0,
      paperExcludeSkybox := true,
      blurAmount := 0.0,
      blurNoiseEnabled := false,
      previewOutlines := false)
  }

  /** The value of a float parameter. */
  function Get(s: OutlineVolumeSettings, p: FloatParam): real
  {
    match p
    case MaximumOutlineThicknessParam => s.maximumOutlineThickness
    case EdgeThresholdParam => s.edgeThreshold
    case FrameRateParam => s.frameRate
    case DepthThickness01Param => s.depthThickness01
    case DepthThresholdParam => s.depthThreshold
    case DepthSoftnessParam => s.depthSoftness
    case NormalThickness01Param => s.normalThickness01
    case NormalThresholdParam => s.normalThreshold
    case NormalSoftnessParam => s.normalSoftness
    case LumaThickness01Param => s.lumaThickness01
    case LumaThresholdParam => s.lumaThreshold
    case LumaSoftnessParam => s.lumaSoftness
    case ColorThickness01Param => s.colorThickness01
    case ColorThresholdParam => s.colorThreshold
    case ColorSoftnessParam => s.colorSoftness
    case DistanceStartParam => s.distanceStart
    case DistanceEndParam => s.distanceEnd
    case NearThickness01Param => s.nearThickness01
    case FarThickness01Param => s.farThickness01
    case NearAlphaParam => s.nearAlpha
    case FarAlphaParam => s.farAlpha
    case GrazingAngleThresholdParam => s.grazingAngleThreshold
    case GrazingAngleOffsetParam => s.grazingAngleOffset
    case OffsetTextureStrengthParam => s.offsetTextureStrength
    case OffsetTextureScaleParam => s.offsetTextureScale
    case OffsetTextureSpeedParam => s.offsetTextureSpeed
    case PaperTextureStrengthParam => s.paperTextureStrength
    case PaperTextureScaleParam => s.paperTextureScale
    case PaperTextureSpeedParam => s.paperTextureSpeed
    case BlurAmountParam => s.blurAmount
  }

  /** Writing `v` to parameter `p`: the parameter's setter clamps it to the declared range. */
  function Set(s: OutlineVolumeSettings, p: FloatParam, v: real): OutlineVolumeSettings
  {
    var c := Clamp(RangeOf(p), v);
    match p
    case MaximumOutlineThicknessParam => s.(maximumOutlineThickness := c)
    case EdgeThresholdParam => s.(edgeThreshold := c)
    case FrameRateParam => s.(frameRate := c)
    case DepthThickness01Param => s.(depthThickness01 := c)
    case DepthThresholdParam => s.(depthThreshold := c)
    case DepthSoftnessParam => s.(depthSoftness := c)
    case NormalThickness01Param => s.(normalThickness01 := c)
    case NormalThresholdParam => s.(normalThreshold := c)
    case NormalSoftnessParam => s.(normalSoftness := c)
    case LumaThickness01Param => s.(lumaThickness01 := c)
    case LumaThresholdParam => s.(lumaThreshold := c)
    case LumaSoftnessParam => s.(lumaSoftness := c)
    case ColorThickness01Param => s.(colorThickness01 := c)
    case ColorThresholdParam => s.(colorThreshold := c)
    case ColorSoftnessParam => s.(colorSoftness := c)
    case DistanceStartParam => s.(distanceStart := c)
    case DistanceEndParam => s.(distanceEnd := c)
    case NearThickness01Param => s.(nearThickness01 := c)
    case FarThickness01Param => s.(farThickness01 := c)
    case NearAlphaParam => s.(nearAlpha := c)
    case FarAlphaParam => s.(farAlpha := c)
    case GrazingAngleThresholdParam => s.(grazingAngleThreshold := c)
    case GrazingAngleOffsetParam => s.(grazingAngleOffset := c)
    case OffsetTextureStrengthParam => s.(offsetTextureStrength := c)
    case OffsetTextureScaleParam => s.(offsetTextureScale := c)
    case OffsetTextureSpeedParam => s.(offsetTextureSpeed := c)
    case PaperTextureStrengthParam => s.(paperTextureStrength := c)
    case PaperTextureScaleParam => s.(paperTextureScale := c)
    case PaperTextureSpeedParam => s.(paperTextureSpeed := c)
    case BlurAmountParam => s.(blurAmount := c)
  }

  /** In valid settings a parameter lies in the range the table declares for it. */
  lemma ValidParamInRange(s: OutlineVolumeSettings, p: FloatParam)
    requires s.Valid()
    ensures RangeOf(p).Contains(Get(s, p))
  {
    match p
    case OffsetTextureSpeedParam =>
    case PaperTextureSpeedParam =>
    case _ =>
  }

  /** Validity is exactly "every parameter lies in the range the table declares for it". */
  lemma ValidMeansInRange(s: OutlineVolumeSettings)
    ensures s.Valid() <==> forall p :: RangeOf(p).Contains(Get(s, p))
  {
    if s.Valid() {
      forall p ensures RangeOf(p).Contains(Get(s, p)) {
        ValidParamInRange(s, p);
      }
    } else if forall p :: RangeOf(p).Contains(Get(s, p)) {
      InRangeMeansValid(s);
    }
  }

  lemma InRangeMeansValid(s: OutlineVolumeSettings)
    requires forall p :: RangeOf(p).Contains(Get(s, p))
    ensures s.Valid()
  {
    RangesBoundGlobalsAndDepth(s);
    RangesBoundChannels(s);
    RangesBoundFalloff(s);
    RangesBoundTextures(s);
  }

  /** Range membership of every parameter bounds the maximum thickness, edge threshold, frame rate and depth channel. */
  lemma RangesBoundGlobalsAndDepth(s: OutlineVolumeSettings)
    requires forall p :: RangeOf(p).Contains(Get(s, p))
    ensures 0.0 <= s.maximumOutlineThickness
    ensures 0.0 <= s.edgeThreshold <= 1.0
    ensures 0.0 <= s.frameRate
    ensures 0.0 <= s.depthThickness01 <= 1.0
    ensures 0.0 <= s.depthThreshold
    ensures 0.0 <= s.depthSoftness
    ensures 0.0 <= s.normalThickness01 <= 1.0
  {
    assert RangeOf(MaximumOutlineThicknessParam).Contains(Get(s, MaximumOutlineThicknessParam));
    assert RangeOf(EdgeThresholdParam).Contains(Get(s, EdgeThresholdParam));
    assert RangeOf(FrameRateParam).Contains(Get(s, FrameRateParam));
    assert RangeOf(DepthThickness01Param).Contains(Get(s, DepthThickness01Param));
    assert RangeOf(DepthThresholdParam).Contains(Get(s, DepthThresholdParam));
    assert RangeOf(DepthSoftnessParam).Contains(Get(s, DepthSoftnessParam));
    assert RangeOf(NormalThickness01Param).Contains(Get(s, NormalThickness01Param));
  }

  /** Range membership of every parameter bounds the normal, luma and colour channels. */
  lemma RangesBoundChannels(s: OutlineVolumeSettings)
    requires forall p :: RangeOf(p).Contains(Get(s, p))
    ensures 0.0 <= s.normalThreshold
    ensures 0.0 <= s.normalSoftness
    ensures 0.0 <= s.lumaThickness01 <= 1.0
    ensures 0.0 <= s.lumaThreshold
    ensures 0.0 <= s.lumaSoftness
    ensures 0.0 <= s.colorThickness01 <= 1.0
    ensures 0.0 <= s.colorThreshold
  {
    assert RangeOf(NormalThresholdParam).Contains(Get(s, NormalThresholdParam));
    assert RangeOf(NormalSoftnessParam).Contains(Get(s, NormalSoftnessParam));
    assert RangeOf(LumaThickness01Param).Contains(Get(s, LumaThickness01Param));
    assert RangeOf(LumaThresholdParam).Contains(Get(s, LumaThresholdParam));
    assert RangeOf(LumaSoftnessParam).Contains(Get(s, LumaSoftnessParam));
    assert RangeOf(ColorThickness01Param).Contains(Get(s, ColorThickness01Param));
    assert RangeOf(ColorThresholdParam).Contains(Get(s, ColorThresholdParam));
  }

  /** Range membership of every parameter bounds the distance falloff. */
  lemma RangesBoundFalloff(s: OutlineVolumeSettings)
    requires forall p :: RangeOf(p).Contains(Get(s, p))
    ensures 0.0 <= s.colorSoftness
    ensures 0.0 <= s.distanceStart
    ensures 0.0 <= s.distanceEnd
    ensures 0.0 <= s.nearThickness01 <= 1.0
    ensures 0.0 <= s.farThickness01 <= 1.0
    ensures 0.0 <= s.nearAlpha <= 1.0
    ensures 0.0 <= s.farAlpha <= 1.0
  {
    assert RangeOf(ColorSoftnessParam).Contains(Get(s, ColorSoftnessParam));
    assert RangeOf(DistanceStartParam).Contains(Get(s, DistanceStartParam));
    assert RangeOf(DistanceEndParam).Contains(Get(s, DistanceEndParam));
    assert RangeOf(NearThickness01Param).Contains(Get(s, NearThickness01Param));
    assert RangeOf(FarThickness01Param).Contains(Get(s, FarThickness01Param));
    assert RangeOf(NearAlphaParam).Contains(Get(s, NearAlphaParam));
    assert RangeOf(FarAlphaParam).Contains(Get(s, FarAlphaParam));
  }

  /** Range membership of every parameter bounds the grazing angle, the two textures and the blur. */
  lemma RangesBoundTextures(s: OutlineVolumeSettings)
    requires forall p :: RangeOf(p).Contains(Get(s, p))
    ensures 0.0 <= s.grazingAngleThreshold
    ensures 0.0 <= s.grazingAngleOffset
    ensures 0.0 <= s.offsetTextureStrength
    ensures 0.0 <= s.offsetTextureScale
    ensures 0.0 <= s.paperTextureStrength <= 1.0
    ensures 0.0 <= s.paperTextureScale
    ensures 0.0 <= s.blurAmount
  {
    assert RangeOf(GrazingAngleThresholdParam).Contains(Get(s, GrazingAngleThresholdParam));
    assert RangeOf(GrazingAngleOffsetParam).Contains(Get(s, GrazingAngleOffsetParam));
    assert RangeOf(OffsetTextureStrengthParam).Contains(Get(s, OffsetTextureStrengthParam));
    assert RangeOf(OffsetTextureScaleParam).Contains(Get(s, OffsetTextureScaleParam));
    assert RangeOf(PaperTextureStrengthParam).Contains(Get(s, PaperTextureStrengthParam));
    assert RangeOf(PaperTextureScaleParam).Contains(Get(s, PaperTextureScaleParam));
    assert RangeOf(BlurAmountParam).Contains(Get(s, BlurAmountParam));
  }

  /**
   * Writing a parameter stores the clamped value there, changes no other
   * parameter, and so keeps the settings valid.
   */
  lemma SetKeepsValid(s: OutlineVolumeSettings, p: FloatParam, v: real)
    requires s.Valid()
    ensures Get(Set(s, p, v), p) == Clamp(RangeOf(p), v)
    ensures Set(s, p, v).Valid()
  {
    match p
    case OffsetTextureSpeedParam =>
    case PaperTextureSpeedParam =>
    case _ =>
  }

  /** Reading back a parameter just written gives the clamped value. */
  lemma GetSet(s: OutlineVolumeSettings, p: FloatParam, v: real)
    ensures Get(Set(s, p, v), p) == Clamp(RangeOf(p), v)
  {
    match p
    case OffsetTextureSpeedParam =>
    case PaperTextureSpeedParam =>
    case _ =>
  }

  /** Writing one parameter leaves every other parameter as it was. */
  lemma SetLeavesOthers(s: OutlineVolumeSettings, p: FloatParam, v: real, q: FloatParam)
    requires q != p
    ensures Get(Set(s, p, v), q) == Get(s, q)
  {
    if p in {MaximumOutlineThicknessParam, EdgeThresholdParam, FrameRateParam, DepthThickness01Param, DepthThresholdParam, DepthSoftnessParam, NormalThickness01Param, NormalThresholdParam} {
      SetLeavesGlobalOthers(s, p, v, q);
    } else if p in {NormalSoftnessParam, LumaThickness01Param, LumaThresholdParam, LumaSoftnessParam, ColorThickness01Param, ColorThresholdParam, ColorSoftnessParam} {
      SetLeavesChannelOthers(s, p, v, q);
    } else if p in {DistanceStartParam, DistanceEndParam, NearThickness01Param, FarThickness01Param, NearAlphaParam, FarAlphaParam, GrazingAngleThresholdParam, GrazingAngleOffsetParam} {
      SetLeavesFalloffOthers(s, p, v, q);
    } else {
      SetLeavesTextureOthers(s, p, v, q);
    }
  }

  /** SetLeavesOthers for a write to one of the global, depth and normal-fraction parameters. */
  lemma SetLeavesGlobalOthers(s: OutlineVolumeSettings, p: FloatParam, v: real, q: FloatParam)
    requires q != p && p in {MaximumOutlineThicknessParam, EdgeThresholdParam, FrameRateParam, DepthThickness01Param, DepthThresholdParam, DepthSoftnessParam, NormalThickness01Param, NormalThresholdParam}
    ensures Get(Set(s, p, v), q) == Get(s, q)
  {
  }

  /** SetLeavesOthers for a write to one of the remaining channel parameters. */
  lemma SetLeavesChannelOthers(s: OutlineVolumeSettings, p: FloatParam, v: real, q: FloatParam)
    requires q != p && p in {NormalSoftnessParam, LumaThickness01Param, LumaThresholdParam, LumaSoftnessParam, ColorThickness01Param, ColorThresholdParam, ColorSoftnessParam}
    ensures Get(Set(s, p, v), q) == Get(s, q)
  {
  }

  /** SetLeavesOthers for a write to one of the falloff and grazing parameters. */
  lemma SetLeavesFalloffOthers(s: OutlineVolumeSettings, p: FloatParam, v: real, q: FloatParam)
    requires q != p && p in {DistanceStartParam, DistanceEndParam, NearThickness01Param, FarThickness01Param, NearAlphaParam, FarAlphaParam, GrazingAngleThresholdParam, GrazingAngleOffsetParam}
    ensures Get(Set(s, p, v), q) == Get(s, q)
  {
  }

  /** SetLeavesOthers for a write to one of the texture and blur parameters. */
  lemma SetLeavesTextureOthers(s: OutlineVolumeSettings, p: FloatParam, v: real, q: FloatParam)
    requires q != p && p in {OffsetTextureStrengthParam, OffsetTextureScaleParam, OffsetTextureSpeedParam, PaperTextureStrengthParam, PaperTextureScaleParam, PaperTextureSpeedParam, BlurAmountParam}
    ensures Get(Set(s, p, v), q) == Get(s, q)
  {
  }

  /** The two scroll speeds are unconstrained: a negative speed is stored as written. */
  lemma SpeedsAreUnclamped(s: OutlineVolumeSettings, v: real)
    ensures Set(s, OffsetTextureSpeedParam, v).offsetTextureSpeed == v
    ensures Set(s, PaperTextureSpeedParam, v).paperTextureSpeed == v
    ensures Set(s, OffsetTextureSpeedParam, v).Valid() == s.Valid()
    ensures Set(s, PaperTextureSpeedParam, v).Valid() == s.Valid()
  {
  }

  /** For valid settings, the only inactive thickness is exactly zero. */
  lemma InactiveIffZeroThicknessOrInvisible(s: OutlineVolumeSettings)
    requires s.Valid()
    ensures !s.IsActive() <==> s.maximumOutlineThickness == 0.0 || s.outlineColor.a <= 0.0
  {
  }

  /** The chosen channel's thickness fraction. */
  function ChannelThickness01(s: OutlineVolumeSettings, ch: EdgeChannel): real
  {
    match ch
    case DepthEdges => s.depthThickness01
    case NormalEdges => s.normalThickness01
    case LumaEdges => s.lumaThickness01
    case ColorEdges => s.colorThickness01
  }

  function ChannelThreshold(s: OutlineVolumeSettings, ch: EdgeChannel): real
  {
    match ch
    case DepthEdges => s.depthThreshold
    case NormalEdges => s.normalThreshold
    case LumaEdges => s.lumaThreshold
    case ColorEdges => s.colorThreshold
  }

  function ChannelSoftness(s: OutlineVolumeSettings, ch: EdgeChannel): real
  {
    match ch
    case DepthEdges => s.depthSoftness
    case NormalEdges => s.normalSoftness
    case LumaEdges => s.lumaSoftness
    case ColorEdges => s.colorSoftness
  }

  /** In valid settings every channel's fraction lies in [0,1] and its threshold and softness are non-negative. */
  lemma ChannelRanges(s: OutlineVolumeSettings, ch: EdgeChannel)
    requires s.Valid()
    ensures 0.0 <= ChannelThickness01(s, ch) <= 1.0
    ensures 0.0 <= ChannelThreshold(s, ch) && 0.0 <= ChannelSoftness(s, ch)
  {
  }

  /**
   * The volume component object itself. The render pass keeps a reference to
   * it, so parameter overrides made after the reference was taken are seen by
   * later frames.
   */
  class OutlineVolume {
    var settings: OutlineVolumeSettings

    constructor ()
      ensures settings == Default()
    {
      settings := Default();
    }

    /** A volume override of one float parameter: the declared range clamps the value. */
    method Override(p: FloatParam, v: real)
      modifies this
      ensures settings == Set(old(settings), p, v)
      ensures Get(settings, p) == Clamp(RangeOf(p), v)
      ensures old(settings).Valid() ==> settings.Valid()
    {
      if settings.Valid() {
        SetKeepsValid(settings, p, v);
      }
      GetSet(settings, p, v);
      settings := Set(settings, p, v);
    }
  }
}
