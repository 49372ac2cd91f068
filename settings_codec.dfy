/**
 * The settings codec of the path tracer's control panel. SaveSettings writes
 * the settings record as one flat JSON object, one member per setting;
 * LoadSettings merges such an object back into the live record, key by key,
 * keeping the current value of every setting whose key is missing.
 */
module SettingSaveLoad {
  import opened Numerics
  import opened MemberNames
  import opened Json
  import opened PathtracerUi
  import Maybe

  /** The settings the codec persists, one per saved member of the record, by group. */
  datatype Setting =
    | OfGeneric(generic: GenericSetting)
    | OfPathTracing(pathTracing: PathTracingSetting)
    | OfNrc(nrc: NrcSetting)
    | OfSharc(sharc: SharcSetting)
    | OfLighting(lighting: LightingSetting)
    | OfToneMapping(toneMapping: ToneMappingSetting)

  /** The groups SaveSettings and LoadSettings handle settings in, in order. */
  datatype Group = GenericGroup | PathTracingGroup | NrcGroup | SharcGroup | LightingGroup | ToneMappingGroup

  function GroupOf(s: Setting): Group
  {
    match s
    case OfGeneric(_) => GenericGroup
    case OfPathTracing(_) => PathTracingGroup
    case OfNrc(_) => NrcGroup
    case OfSharc(_) => SharcGroup
    case OfLighting(_) => LightingGroup
    case OfToneMapping(_) => ToneMappingGroup
  }

  datatype GenericSetting =
    | EnableVSync
    | EnableJitter
    | EnableRussianRoulette
    | EnableTransmission
    | EnableAnimations

  datatype PathTracingSetting =
    | TechSelectionSetting
    | DenoiserSelectionSetting
    | BouncesMax
    | SamplesPerPixel
    | ExposureAdjustment
    | RoughnessMin
    | RoughnessMax
    | MetalnessMin
    | MetalnessMax
    | PtDebugOutput

  datatype NrcSetting =
    | NrcTrainCache
    | NrcMaxTrainingBounces
    | NrcLearnIrradiance
    | NrcIncludeDirectIllumination
    | NrcSkipDeltaVertices
    | NrcSelfTrainingAttenuation
    | NrcTerminationHeuristicThreshold
    | NrcNumTrainingIterations
    | NrcProportionPrimarySegmentsToTrainOn
    | NrcProportionTertiaryPlusSegmentsToTrainOn
    | NrcProportionUnbiased
    | NrcProportionUnbiasedToSelfTrain
    | NrcMaxAverageRadiance
    | NrcResolveMode

  datatype SharcSetting =
    | SharcEnableClear
    | SharcEnableUpdate
    | SharcEnableResolve
    | SharcEnableAntiFireflyFilter
    | SharcUpdateViewCamera
    | SharcEnableMaterialDemodulation
    | SharcEnableDebug
    | SharcAccumulationFrameNum
    | SharcStaleFrameFrameNum
    | SharcDownscaleFactor
    | SharcSceneScale
    | SharcRoughnessThreshold

  datatype LightingSetting =
    | EnableSky
    | SkyColor
    | SkyIntensity
    | EnableEmissives
    | EnableLighting

  datatype ToneMappingSetting =
    | ToneMappingOperatorSetting
    | ToneMappingClamp

  /** The value of one setting, tagged with how the codec treats it. */
  datatype Value =
    | BoolV(b: bool)
    | IntV(i: Int32)
    | FloatV(f: Float32)
    | OrdinalV(n: Uint32)
    | ColorV(c: ColorSlots)

  /** The record field behind each setting. */
  function Get(u: UIData, s: Setting): Value
  {
    match s
    case OfGeneric(x) => GetGeneric(u, x)
    case OfPathTracing(x) => GetPathTracing(u, x)
    case OfNrc(x) => GetNrc(u, x)
    case OfSharc(x) => GetSharc(u, x)
    case OfLighting(x) => GetLighting(u, x)
    case OfToneMapping(x) => GetToneMapping(u, x)
  }

  function GetGeneric(u: UIData, s: GenericSetting): Value
  {
    match s
    case EnableVSync => BoolV(u.enableVSync.on)
    case EnableJitter => BoolV(u.enableJitter.on)
    case EnableRussianRoulette => BoolV(u.enableRussianRoulette.on)
    case EnableTransmission => BoolV(u.enableTransmission.on)
    case EnableAnimations => BoolV(u.enableAnimations.on)
  }

  function GetPathTracing(u: UIData, s: PathTracingSetting): Value
  {
    match s
    case TechSelectionSetting => OrdinalV(u.techSelection)
    case DenoiserSelectionSetting => OrdinalV(u.denoiserSelection)
    case BouncesMax => IntV(u.bouncesMax)
    case SamplesPerPixel => IntV(u.samplesPerPixel)
    case ExposureAdjustment => FloatV(u.exposureAdjustment)
    case RoughnessMin => FloatV(u.roughnessMin)
    case RoughnessMax => FloatV(u.roughnessMax)
    case MetalnessMin => FloatV(u.metalnessMin)
    case MetalnessMax => FloatV(u.metalnessMax)
    case PtDebugOutput => OrdinalV(u.ptDebugOutput)
  }

  function GetNrc(u: UIData, s: NrcSetting): Value
  {
    match s
    case NrcTrainCache => BoolV(u.nrcTrainCache.on)
    case NrcMaxTrainingBounces => IntV(u.nrcMaxTrainingBounces)
    case NrcLearnIrradiance => BoolV(u.nrcLearnIrradiance.on)
    case NrcIncludeDirectIllumination => BoolV(u.nrcIncludeDirectIllumination.on)
    case NrcSkipDeltaVertices => BoolV(u.nrcSkipDeltaVertices.on)
    case NrcSelfTrainingAttenuation => FloatV(u.nrcSelfTrainingAttenuation)
    case NrcTerminationHeuristicThreshold => FloatV(u.nrcTerminationHeuristicThreshold)
    case NrcNumTrainingIterations => IntV(u.nrcNumTrainingIterations)
    case NrcProportionPrimarySegmentsToTrainOn => FloatV(u.nrcProportionPrimarySegmentsToTrainOn)
    case NrcProportionTertiaryPlusSegmentsToTrainOn => FloatV(u.nrcProportionTertiaryPlusSegmentsToTrainOn)
    case NrcProportionUnbiased => FloatV(u.nrcProportionUnbiased)
    case NrcProportionUnbiasedToSelfTrain => FloatV(u.nrcProportionUnbiasedToSelfTrain)
    case NrcMaxAverageRadiance => FloatV(u.nrcMaxAverageRadiance)
    case NrcResolveMode => OrdinalV(u.nrcResolveMode)
  }

  function GetSharc(u: UIData, s: SharcSetting): Value
  {
    match s
    case SharcEnableClear => BoolV(u.sharcEnableClear.on)
    case SharcEnableUpdate => BoolV(u.sharcEnableUpdate.on)
    case SharcEnableResolve => BoolV(u.sharcEnableResolve.on)
    case SharcEnableAntiFireflyFilter => BoolV(u.sharcEnableAntiFireflyFilter.on)
    case SharcUpdateViewCamera => BoolV(u.sharcUpdateViewCamera.on)
    case SharcEnableMaterialDemodulation => BoolV(u.sharcEnableMaterialDemodulation.on)
    case SharcEnableDebug => BoolV(u.sharcEnableDebug.on)
    case SharcAccumulationFrameNum => IntV(u.sharcAccumulationFrameNum)
    case SharcStaleFrameFrameNum => IntV(u.sharcStaleFrameFrameNum)
    case SharcDownscaleFactor => IntV(u.sharcDownscaleFactor)
    case SharcSceneScale => FloatV(u.sharcSceneScale)
    case SharcRoughnessThreshold => FloatV(u.sharcRoughnessThreshold)
  }

  function GetLighting(u: UIData, s: LightingSetting): Value
  {
    match s
    case EnableSky => BoolV(u.enableSky.on)
    case SkyColor => ColorV(u.skyColor)
    case SkyIntensity => FloatV(u.skyIntensity)
    case EnableEmissives => BoolV(u.enableEmissives.on)
    case EnableLighting => BoolV(u.enableLighting.on)
  }

  function GetToneMapping(u: UIData, s: ToneMappingSetting): Value
  {
    match s
    case ToneMappingOperatorSetting => OrdinalV(u.toneMappingOperator)
    case ToneMappingClamp => BoolV(u.toneMappingClamp.on)
  }

  /** The member name SaveSettings writes each setting under. */
  function SaveKey(s: Setting): Name
  {
    match s
    case OfGeneric(x) => SaveKeyGeneric(x)
    case OfPathTracing(x) => SaveKeyPathTracing(x)
    case OfNrc(x) => SaveKeyNrc(x)
    case OfSharc(x) => SaveKeySharc(x)
    case OfLighting(x) => SaveKeyLighting(x)
    case OfToneMapping(x) => SaveKeyToneMapping(x)
  }

  function SaveKeyGeneric(s: GenericSetting): Name
  {
    match s
    case EnableVSync => KeyVSync
    case EnableJitter => KeyJitter
    case EnableRussianRoulette => KeyRussianRoulette
    case EnableTransmission => KeyTransmission
    case EnableAnimations => KeyAnimations
  }

  function SaveKeyPathTracing(s: PathTracingSetting): Name
  {
    match s
    case TechSelectionSetting => KeyTechSelection
    case DenoiserSelectionSetting => KeyDenoiserSelection
    case BouncesMax => KeyBouncesMax
    case SamplesPerPixel => KeySamplesPerPixel
    case ExposureAdjustment => KeyExposureAdjustment
    case RoughnessMin => KeyRoughnessMin
    case RoughnessMax => KeyRoughnessMax
    case MetalnessMin => KeyMetalnessMin
    case MetalnessMax => KeyMetalnessMax
    case PtDebugOutput => KeyPtDebugOutput
  }

  function SaveKeyNrc(s: NrcSetting): Name
  {
    match s
    case NrcTrainCache => KeyNrcTrainCache
    case NrcMaxTrainingBounces => KeyNrcTrainingBounces
    case NrcLearnIrradiance => KeyLearnIrradiance
    case NrcIncludeDirectIllumination => KeyIncludeDirectIllumination
    case NrcSkipDeltaVertices => KeySkipDeltaVertices
    case NrcSelfTrainingAttenuation => KeySelfTrainingAttenuation
    case NrcTerminationHeuristicThreshold => KeyHeuristicThreshold
    case NrcNumTrainingIterations => KeyNumTrainingIterations
    case NrcProportionPrimarySegmentsToTrainOn => KeyPrimarySegmentsToTrainOn
    case NrcProportionTertiaryPlusSegmentsToTrainOn => KeyTertiaryPlusSegmentsToTrainOn
    case NrcProportionUnbiased => KeyProportionUnbiased
    case NrcProportionUnbiasedToSelfTrain => KeyUnbiasedSelfTraining
    case NrcMaxAverageRadiance => KeyMaxAverageRadianceValue
    case NrcResolveMode => KeyResolveMode
  }

  function SaveKeySharc(s: SharcSetting): Name
  {
    match s
    case SharcEnableClear => KeySharcEnableClear
    case SharcEnableUpdate => KeyEnableUpdate
    case SharcEnableResolve => KeyEnableResolve
    case SharcEnableAntiFireflyFilter => KeyEnableAntiFirefly
    case SharcUpdateViewCamera => KeyUpdateViewCamera
    case SharcEnableMaterialDemodulation => KeyEnableMaterialDemodulation
    case SharcEnableDebug => KeyEnableDebug
    case SharcAccumulationFrameNum => KeyAccumulationFrameNumber
    case SharcStaleFrameFrameNum => KeyStaleFrameNumber
    case SharcDownscaleFactor => KeyDownscaleFactor
    case SharcSceneScale => KeySceneScale
    case SharcRoughnessThreshold => KeyRougnessThreshold
  }

  function SaveKeyLighting(s: LightingSetting): Name
  {
    match s
    case EnableSky => KeyEnableSky
    case SkyColor => KeySkyColor
    case SkyIntensity => KeySkyIntensity
    case EnableEmissives => KeyEnableEmissives
    case EnableLighting => KeyEnableLighting
  }

  function SaveKeyToneMapping(s: ToneMappingSetting): Name
  {
    match s
    case ToneMappingOperatorSetting => KeyToneMappingOperator
    case ToneMappingClamp => KeyToneMappingClamp
  }

  /**
   * The member name LoadSettings reads each setting from. It differs from
   * SaveKey for exactly one setting: the SHaRC clear flag is written as
   * "sharcEnableClear" (KeySharcEnableClear) but read as "Enable Clear"
   * (KeyEnableClear).
   */
  function LoadKey(s: Setting): Name
  {
    match s
    case OfSharc(SharcEnableClear) => KeyEnableClear
    case _ => SaveKey(s)
  }


  /** Whether a group is compiled in: NRC and SHaRC are feature-gated. */
  predicate GroupEnabled(g: Group)
  {
    match g
    case NrcGroup => ENABLE_NRC
    case SharcGroup => ENABLE_SHARC
    case _ => true
  }

  predicate Enabled(s: Setting)
  {
    GroupEnabled(GroupOf(s))
  }

  /** The generic members SaveSettings adds to `root`. */
  function EncodeGeneric(root: Document, u: UIData): Document
  {
    root
      [KeyVSync := JBool(u.enableVSync.on)]
      [KeyJitter := JBool(u.enableJitter.on)]
      [KeyRussianRoulette := JBool(u.enableRussianRoulette.on)]
      [KeyTransmission := JBool(u.enableTransmission.on)]
      [KeyAnimations := JBool(u.enableAnimations.on)]
  }

  /** The path tracing members SaveSettings adds to `root`. */
  function EncodePathTracing(root: Document, u: UIData): Document
  {
    root
      [KeyTechSelection := JInt(ToInt32(u.techSelection))]
      [KeyDenoiserSelection := JInt(ToInt32(u.denoiserSelection))]
      [KeyBouncesMax := JInt(u.bouncesMax)]
      [KeySamplesPerPixel := JInt(u.samplesPerPixel)]
      [KeyExposureAdjustment := JFloat(u.exposureAdjustment)]
      [KeyRoughnessMin := JFloat(u.roughnessMin)]
      [KeyRoughnessMax := JFloat(u.roughnessMax)]
      [KeyMetalnessMin := JFloat(u.metalnessMin)]
      [KeyMetalnessMax := JFloat(u.metalnessMax)]
      [KeyPtDebugOutput := JInt(ToInt32(u.ptDebugOutput))]
  }

  /** The NRC members SaveSettings adds to `root`. */
  function EncodeNrc(root: Document, u: UIData): Document
  {
    root
      [KeyNrcTrainCache := JBool(u.nrcTrainCache.on)]
      [KeyNrcTrainingBounces := JInt(u.nrcMaxTrainingBounces)]
      [KeyLearnIrradiance := JBool(u.nrcLearnIrradiance.on)]
      [KeyIncludeDirectIllumination := JBool(u.nrcIncludeDirectIllumination.on)]
      [KeySkipDeltaVertices := JBool(u.nrcSkipDeltaVertices.on)]
      [KeySelfTrainingAttenuation := JFloat(u.nrcSelfTrainingAttenuation)]
      [KeyHeuristicThreshold := JFloat(u.nrcTerminationHeuristicThreshold)]
      [KeyNumTrainingIterations := JInt(u.nrcNumTrainingIterations)]
      [KeyPrimarySegmentsToTrainOn := JFloat(u.nrcProportionPrimarySegmentsToTrainOn)]
      [KeyTertiaryPlusSegmentsToTrainOn := JFloat(u.nrcProportionTertiaryPlusSegmentsToTrainOn)]
      [KeyProportionUnbiased := JFloat(u.nrcProportionUnbiased)]
      [KeyUnbiasedSelfTraining := JFloat(u.nrcProportionUnbiasedToSelfTrain)]
      [KeyMaxAverageRadianceValue := JFloat(u.nrcMaxAverageRadiance)]
      [KeyResolveMode := JInt(ToInt32(u.nrcResolveMode))]
  }

  /** The SHaRC members SaveSettings adds to `root`. */
  function EncodeSharc(root: Document, u: UIData): Document
  {
    root
      [KeySharcEnableClear := JBool(u.sharcEnableClear.on)]
      [KeyEnableUpdate := JBool(u.sharcEnableUpdate.on)]
      [KeyEnableResolve := JBool(u.sharcEnableResolve.on)]
      [KeyEnableAntiFirefly := JBool(u.sharcEnableAntiFireflyFilter.on)]
      [KeyUpdateViewCamera := JBool(u.sharcUpdateViewCamera.on)]
      [KeyEnableMaterialDemodulation := JBool(u.sharcEnableMaterialDemodulation.on)]
      [KeyEnableDebug := JBool(u.sharcEnableDebug.on)]
      [KeyAccumulationFrameNumber := JInt(u.sharcAccumulationFrameNum)]
      [KeyStaleFrameNumber := JInt(u.sharcStaleFrameFrameNum)]
      [KeyDownscaleFactor := JInt(u.sharcDownscaleFactor)]
      [KeySceneScale := JFloat(u.sharcSceneScale)]
      [KeyRougnessThreshold := JFloat(u.sharcRoughnessThreshold)]
  }

  /** The lighting members SaveSettings adds to `root`. */
  function EncodeLighting(root: Document, u: UIData): Document
  {
    root
      [KeyEnableSky := JBool(u.enableSky.on)]
      [KeySkyColor := JArray([JFloat(u.skyColor.s0), JFloat(u.skyColor.s1), JFloat(u.skyColor.s2), JFloat(u.skyColor.s3)])]
      [KeySkyIntensity := JFloat(u.skyIntensity)]
      [KeyEnableEmissives := JBool(u.enableEmissives.on)]
      [KeyEnableLighting := JBool(u.enableLighting.on)]
  }

  /** The tone mapping members SaveSettings adds to `root`. */
  function EncodeToneMapping(root: Document, u: UIData): Document
  {
    root
      [KeyToneMappingOperator := JInt(ToInt32(u.toneMappingOperator))]
      [KeyToneMappingClamp := JBool(u.toneMappingClamp.on)]
  }

  /**
   * The object SaveSettings builds from a record: booleans, ints and floats
   * as themselves, enums as their `int` ordinal, and the sky colour as a
   * four-element array. Feature-gated groups are written when their flag is on.
   */
  function Encode(u: UIData): Document
  {
    var root := EncodeGeneric(map[], u);
    var root := EncodePathTracing(root, u);
    var root := if ENABLE_NRC then EncodeNrc(root, u) else root;
    var root := if ENABLE_SHARC then EncodeSharc(root, u) else root;
    var root := EncodeLighting(root, u);
    EncodeToneMapping(root, u)
  }

  /** LOAD_BOOL: `var = root.get(key, var).asBool()`. */
  function LoadBool(root: Document, key: Name, current: Flag, c: Coercions): (b: Flag)
    ensures key !in root ==> b == current
    ensures key in root ==> b.on == AsBool(root[key], c)
  {
    Flag(AsBool(GetOr(root, key, JBool(current.on)), c))
  }

  /** LOAD_INT: `var = root.get(key, var).asInt()`. */
  function LoadInt(root: Document, key: Name, current: Int32, c: Coercions): (i: Int32)
    ensures key !in root ==> i == current
    ensures key in root ==> i == AsInt(root[key], c)
  {
    AsInt(GetOr(root, key, JInt(current)), c)
  }

  /** LOAD_FLOAT: `var = root.get(key, var).asFloat()`. */
  function LoadFloat(root: Document, key: Name, current: Float32, c: Coercions): (f: Float32)
    ensures key !in root ==> f == current
    ensures key in root ==> f == AsFloat(root[key], c)
  {
    AsFloat(GetOr(root, key, JFloat(current)), c)
  }

  /**
   * LOAD_ENUM: the current ordinal is passed as an `int` default, and the
   * `int` read back is cast to the enum with no range check.
   */
  function LoadEnum(root: Document, key: Name, current: Uint32, c: Coercions): (n: Uint32)
    ensures key !in root ==> n == current
    ensures key in root ==> n == ToUint32(AsInt(root[key], c))
  {
    OrdinalSurvivesInt(current);
    ToUint32(AsInt(GetOr(root, key, JInt(ToInt32(current))), c))
  }

  /** Whether a member holds what the sky colour is loaded from: an array of exactly four. */
  predicate IsFourSlotArray(v: JVal)
  {
    v.JArray? && |v.elems| == 4
  }

  /**
   * The sky colour: all four slots are replaced together, each converted
   * with `asFloat`, when the member is an array of exactly four elements;
   * otherwise the colour is left as it was.
   */
  function LoadColor(root: Document, key: Name, current: ColorSlots, c: Coercions): (r: ColorSlots)
    ensures key in root && IsFourSlotArray(root[key]) ==>
      r == ColorSlots(AsFloat(root[key].elems[0], c), AsFloat(root[key].elems[1], c),
                      AsFloat(root[key].elems[2], c), AsFloat(root[key].elems[3], c))
    ensures !(key in root && IsFourSlotArray(root[key])) ==> r == current
  {
    var v := Member(root, key);
    if IsFourSlotArray(v) then
      ColorSlots(AsFloat(v.elems[0], c), AsFloat(v.elems[1], c), AsFloat(v.elems[2], c), AsFloat(v.elems[3], c))
    else
      current
  }

  /** The generic settings LoadSettings merges from `root` into `u`. */
  function MergeGeneric(u: UIData, root: Document, c: Coercions): UIData
  {
    u.(
      enableVSync := LoadBool(root, KeyVSync, u.enableVSync, c),
      enableJitter := LoadBool(root, KeyJitter, u.enableJitter, c),
      enableRussianRoulette := LoadBool(root, KeyRussianRoulette, u.enableRussianRoulette, c),
      enableTransmission := LoadBool(root, KeyTransmission, u.enableTransmission, c),
      enableAnimations := LoadBool(root, KeyAnimations, u.enableAnimations, c))
  }

  /** The path tracing settings LoadSettings merges from `root` into `u`. */
  function MergePathTracing(u: UIData, root: Document, c: Coercions): UIData
  {
    u.(
      techSelection := LoadEnum(root, KeyTechSelection, u.techSelection, c),
      denoiserSelection := LoadEnum(root, KeyDenoiserSelection, u.denoiserSelection, c),
      bouncesMax := LoadInt(root, KeyBouncesMax, u.bouncesMax, c),
      samplesPerPixel := LoadInt(root, KeySamplesPerPixel, u.samplesPerPixel, c),
      exposureAdjustment := LoadFloat(root, KeyExposureAdjustment, u.exposureAdjustment, c),
      roughnessMin := LoadFloat(root, KeyRoughnessMin, u.roughnessMin, c),
      roughnessMax := LoadFloat(root, KeyRoughnessMax, u.roughnessMax, c),
      metalnessMin := LoadFloat(root, KeyMetalnessMin, u.metalnessMin, c),
      metalnessMax := LoadFloat(root, KeyMetalnessMax, u.metalnessMax, c),
      ptDebugOutput := LoadEnum(root, KeyPtDebugOutput, u.ptDebugOutput, c))
  }

  /** The NRC settings LoadSettings merges from `root` into `u`. */
  function MergeNrc(u: UIData, root: Document, c: Coercions): UIData
  {
    u.(
      nrcTrainCache := LoadBool(root, KeyNrcTrainCache, u.nrcTrainCache, c),
      nrcMaxTrainingBounces := LoadInt(root, KeyNrcTrainingBounces, u.nrcMaxTrainingBounces, c),
      nrcLearnIrradiance := LoadBool(root, KeyLearnIrradiance, u.nrcLearnIrradiance, c),
      nrcIncludeDirectIllumination := LoadBool(root, KeyIncludeDirectIllumination, u.nrcIncludeDirectIllumination, c),
      nrcSkipDeltaVertices := LoadBool(root, KeySkipDeltaVertices, u.nrcSkipDeltaVertices, c),
      nrcSelfTrainingAttenuation := LoadFloat(root, KeySelfTrainingAttenuation, u.nrcSelfTrainingAttenuation, c),
      nrcTerminationHeuristicThreshold := LoadFloat(root, KeyHeuristicThreshold, u.nrcTerminationHeuristicThreshold, c),
      nrcNumTrainingIterations := LoadInt(root, KeyNumTrainingIterations, u.nrcNumTrainingIterations, c),
      nrcProportionPrimarySegmentsToTrainOn := LoadFloat(root, KeyPrimarySegmentsToTrainOn, u.nrcProportionPrimarySegmentsToTrainOn, c),
      nrcProportionTertiaryPlusSegmentsToTrainOn := LoadFloat(root, KeyTertiaryPlusSegmentsToTrainOn, u.nrcProportionTertiaryPlusSegmentsToTrainOn, c),
      nrcProportionUnbiased := LoadFloat(root, KeyProportionUnbiased, u.nrcProportionUnbiased, c),
      nrcProportionUnbiasedToSelfTrain := LoadFloat(root, KeyUnbiasedSelfTraining, u.nrcProportionUnbiasedToSelfTrain, c),
      nrcMaxAverageRadiance := LoadFloat(root, KeyMaxAverageRadianceValue, u.nrcMaxAverageRadiance, c),
      nrcResolveMode := LoadEnum(root, KeyResolveMode, u.nrcResolveMode, c))
  }

  /** The SHaRC settings LoadSettings merges from `root` into `u`. */
  function MergeSharc(u: UIData, root: Document, c: Coercions): UIData
  {
    u.(
      sharcEnableClear := LoadBool(root, KeyEnableClear, u.sharcEnableClear, c),
      sharcEnableUpdate := LoadBool(root, KeyEnableUpdate, u.sharcEnableUpdate, c),
      sharcEnableResolve := LoadBool(root, KeyEnableResolve, u.sharcEnableResolve, c),
      sharcEnableAntiFireflyFilter := LoadBool(root, KeyEnableAntiFirefly, u.sharcEnableAntiFireflyFilter, c),
      sharcUpdateViewCamera := LoadBool(root, KeyUpdateViewCamera, u.sharcUpdateViewCamera, c),
      sharcEnableMaterialDemodulation := LoadBool(root, KeyEnableMaterialDemodulation, u.sharcEnableMaterialDemodulation, c),
      sharcEnableDebug := LoadBool(root, KeyEnableDebug, u.sharcEnableDebug, c),
      sharcAccumulationFrameNum := LoadInt(root, KeyAccumulationFrameNumber, u.sharcAccumulationFrameNum, c),
      sharcStaleFrameFrameNum := LoadInt(root, KeyStaleFrameNumber, u.sharcStaleFrameFrameNum, c),
      sharcDownscaleFactor := LoadInt(root, KeyDownscaleFactor, u.sharcDownscaleFactor, c),
      sharcSceneScale := LoadFloat(root, KeySceneScale, u.sharcSceneScale, c),
      sharcRoughnessThreshold := LoadFloat(root, KeyRougnessThreshold, u.sharcRoughnessThreshold, c))
  }

  /** The lighting settings LoadSettings merges from `root` into `u`. */
  function MergeLighting(u: UIData, root: Document, c: Coercions): UIData
  {
    u.(
      enableSky := LoadBool(root, KeyEnableSky, u.enableSky, c),
      skyColor := LoadColor(root, KeySkyColor, u.skyColor, c),
      skyIntensity := LoadFloat(root, KeySkyIntensity, u.skyIntensity, c),
      enableEmissives := LoadBool(root, KeyEnableEmissives, u.enableEmissives, c),
      enableLighting := LoadBool(root, KeyEnableLighting, u.enableLighting, c))
  }

  /** The tone mapping settings LoadSettings merges from `root` into `u`. */
  function MergeToneMapping(u: UIData, root: Document, c: Coercions): UIData
  {
    u.(
      toneMappingOperator := LoadEnum(root, KeyToneMappingOperator, u.toneMappingOperator, c),
      toneMappingClamp := LoadBool(root, KeyToneMappingClamp, u.toneMappingClamp, c))
  }

  /** The record after LoadSettings has merged a parsed object into `u`. */
  function Merge(u: UIData, root: Document, c: Coercions): UIData
  {
    var u := MergeGeneric(u, root, c);
    var u := MergePathTracing(u, root, c);
    var u := if ENABLE_NRC then MergeNrc(u, root, c) else u;
    var u := if ENABLE_SHARC then MergeSharc(u, root, c) else u;
    var u := MergeLighting(u, root, c);
    MergeToneMapping(u, root, c)
  }

  /** Four successive `root[KeySkyColor][i] = ...` writes into a fresh member build the four-element array. */
  lemma FourSlotWrites(a: JVal, b: JVal, c: JVal, d: JVal)
    ensures ArraySet(ArraySet(ArraySet(ArraySet(JNull, 0, a), 1, b), 2, c), 3, d) == JArray([a, b, c, d])
  {
    var v0 := ArraySet(JNull, 0, a);
    var v1 := ArraySet(v0, 1, b);
    var v2 := ArraySet(v1, 2, c);
    var v3 := ArraySet(v2, 3, d);
    assert v3.elems == [a, b, c, d];
  }

  /**
   * The control panel's codec: the live settings record it writes from and
   * merges into (`m_ui`), and the calls it makes to the renderer's
   * `ResetAccumulation`, each logged with the record as it stood then.
   */
  class PathtracerUI {
    var ui: UIData
    var resetLog: seq<UIData>

    constructor (ui: UIData)
      ensures this.ui == ui && resetLog == []
    {
      this.ui := ui;
      resetLog := [];
    }

    /**
     * Builds the object member by member, then opens the output stream;
     * `streamOpens` says whether that succeeds. On success the object is
     * handed to the writer; the record is never changed.
     */
    method SaveSettings(streamOpens: bool) returns (ok: bool, written: Maybe.Option<Document>)
      ensures ok == streamOpens
      ensures ok ==> written == Maybe.Some(Encode(ui))
      ensures !ok ==> written == Maybe.None
    {
      var root: Document := map[];
      root := SaveGeneric(root);
      root := SavePathTracing(root);
      if ENABLE_NRC {
        root := SaveNrc(root);
      }
      if ENABLE_SHARC {
        root := SaveSharc(root);
      }
      root := SaveLighting(root);
      root := SaveToneMapping(root);
      if !streamOpens {
        return false, Maybe.None;
      }
      return true, Maybe.Some(root);
    }

    /** Adds the generic members to `root`. */
    method SaveGeneric(root: Document) returns (root': Document)
      ensures root' == EncodeGeneric(root, ui)
    {
      root' := root;
      root' := root'[KeyVSync := JBool(ui.enableVSync.on)];
      root' := root'[KeyJitter := JBool(ui.enableJitter.on)];
      root' := root'[KeyRussianRoulette := JBool(ui.enableRussianRoulette.on)];
      root' := root'[KeyTransmission := JBool(ui.enableTransmission.on)];
      root' := root'[KeyAnimations := JBool(ui.enableAnimations.on)];
    }

    /** Adds the path tracing members to `root`. */
    method SavePathTracing(root: Document) returns (root': Document)
      ensures root' == EncodePathTracing(root, ui)
    {
      root' := root;
      root' := root'[KeyTechSelection := JInt(ToInt32(ui.techSelection))];
      root' := root'[KeyDenoiserSelection := JInt(ToInt32(ui.denoiserSelection))];
      root' := root'[KeyBouncesMax := JInt(ui.bouncesMax)];
      root' := root'[KeySamplesPerPixel := JInt(ui.samplesPerPixel)];
      root' := root'[KeyExposureAdjustment := JFloat(ui.exposureAdjustment)];
      root' := root'[KeyRoughnessMin := JFloat(ui.roughnessMin)];
      root' := root'[KeyRoughnessMax := JFloat(ui.roughnessMax)];
      root' := root'[KeyMetalnessMin := JFloat(ui.metalnessMin)];
      root' := root'[KeyMetalnessMax := JFloat(ui.metalnessMax)];
      root' := root'[KeyPtDebugOutput := JInt(ToInt32(ui.ptDebugOutput))];
    }

    /** Adds the NRC members to `root`. */
    method SaveNrc(root: Document) returns (root': Document)
      ensures root' == EncodeNrc(root, ui)
    {
      root' := root;
      root' := root'[KeyNrcTrainCache := JBool(ui.nrcTrainCache.on)];
      root' := root'[KeyNrcTrainingBounces := JInt(ui.nrcMaxTrainingBounces)];
      root' := root'[KeyLearnIrradiance := JBool(ui.nrcLearnIrradiance.on)];
      root' := root'[KeyIncludeDirectIllumination := JBool(ui.nrcIncludeDirectIllumination.on)];
      root' := root'[KeySkipDeltaVertices := JBool(ui.nrcSkipDeltaVertices.on)];
      root' := root'[KeySelfTrainingAttenuation := JFloat(ui.nrcSelfTrainingAttenuation)];
      root' := root'[KeyHeuristicThreshold := JFloat(ui.nrcTerminationHeuristicThreshold)];
      root' := root'[KeyNumTrainingIterations := JInt(ui.nrcNumTrainingIterations)];
      root' := root'[KeyPrimarySegmentsToTrainOn := JFloat(ui.nrcProportionPrimarySegmentsToTrainOn)];
      root' := root'[KeyTertiaryPlusSegmentsToTrainOn := JFloat(ui.nrcProportionTertiaryPlusSegmentsToTrainOn)];
      root' := root'[KeyProportionUnbiased := JFloat(ui.nrcProportionUnbiased)];
      root' := root'[KeyUnbiasedSelfTraining := JFloat(ui.nrcProportionUnbiasedToSelfTrain)];
      root' := root'[KeyMaxAverageRadianceValue := JFloat(ui.nrcMaxAverageRadiance)];
      root' := root'[KeyResolveMode := JInt(ToInt32(ui.nrcResolveMode))];
    }

    /** Adds the SHaRC members to `root`. */
    method SaveSharc(root: Document) returns (root': Document)
      ensures root' == EncodeSharc(root, ui)
    {
      root' := root;
      root' := root'[KeySharcEnableClear := JBool(ui.sharcEnableClear.on)];
      root' := root'[KeyEnableUpdate := JBool(ui.sharcEnableUpdate.on)];
      root' := root'[KeyEnableResolve := JBool(ui.sharcEnableResolve.on)];
      root' := root'[KeyEnableAntiFirefly := JBool(ui.sharcEnableAntiFireflyFilter.on)];
      root' := root'[KeyUpdateViewCamera := JBool(ui.sharcUpdateViewCamera.on)];
      root' := root'[KeyEnableMaterialDemodulation := JBool(ui.sharcEnableMaterialDemodulation.on)];
      root' := root'[KeyEnableDebug := JBool(ui.sharcEnableDebug.on)];
      root' := root'[KeyAccumulationFrameNumber := JInt(ui.sharcAccumulationFrameNum)];
      root' := root'[KeyStaleFrameNumber := JInt(ui.sharcStaleFrameFrameNum)];
      root' := root'[KeyDownscaleFactor := JInt(ui.sharcDownscaleFactor)];
      root' := root'[KeySceneScale := JFloat(ui.sharcSceneScale)];
      root' := root'[KeyRougnessThreshold := JFloat(ui.sharcRoughnessThreshold)];
    }

    /** Adds the lighting members to `root`. */
    method SaveLighting(root: Document) returns (root': Document)
      requires KeySkyColor !in root
      ensures root' == EncodeLighting(root, ui)
    {
      root' := root;
      root' := root'[KeyEnableSky := JBool(ui.enableSky.on)];
      root' := root'[KeySkyColor := ArraySet(Member(root', KeySkyColor), 0, JFloat(ui.skyColor.s0))];
      root' := root'[KeySkyColor := ArraySet(Member(root', KeySkyColor), 1, JFloat(ui.skyColor.s1))];
      root' := root'[KeySkyColor := ArraySet(Member(root', KeySkyColor), 2, JFloat(ui.skyColor.s2))];
      root' := root'[KeySkyColor := ArraySet(Member(root', KeySkyColor), 3, JFloat(ui.skyColor.s3))];
      FourSlotWrites(JFloat(ui.skyColor.s0), JFloat(ui.skyColor.s1), JFloat(ui.skyColor.s2), JFloat(ui.skyColor.s3));
      root' := root'[KeySkyIntensity := JFloat(ui.skyIntensity)];
      root' := root'[KeyEnableEmissives := JBool(ui.enableEmissives.on)];
      root' := root'[KeyEnableLighting := JBool(ui.enableLighting.on)];
    }

    /** Adds the tone mapping members to `root`. */
    method SaveToneMapping(root: Document) returns (root': Document)
      ensures root' == EncodeToneMapping(root, ui)
    {
      root' := root;
      root' := root'[KeyToneMappingOperator := JInt(ToInt32(ui.toneMappingOperator))];
      root' := root'[KeyToneMappingClamp := JBool(ui.toneMappingClamp.on)];
    }

    /**
     * Reads the file (`file` is None when it cannot be opened) and parses it
     * with the JSON reader `parse`; either failure returns false with nothing
     * changed. Otherwise every setting is merged from its key, the renderer's
     * accumulation is reset once, with the merged record, and true is returned.
     */
    method LoadSettings(file: Maybe.Option<string>, parse: string -> Maybe.Option<Document>, c: Coercions)
      returns (ok: bool)
      modifies this
      ensures ok <==> file.Some? && parse(file.value).Some?
      ensures !ok ==> ui == old(ui) && resetLog == old(resetLog)
      ensures ok ==> ui == Merge(old(ui), parse(file.value).value, c) && resetLog == old(resetLog) + [ui]
    {
      if file.None? {
        return false;
      }
      var parsed := parse(file.value);
      if parsed.None? {
        return false;
      }
      var root := parsed.value;

      // Generic
      ui := ui.(
        enableVSync := LoadBool(root, KeyVSync, ui.enableVSync, c),
        enableJitter := LoadBool(root, KeyJitter, ui.enableJitter, c),
        enableRussianRoulette := LoadBool(root, KeyRussianRoulette, ui.enableRussianRoulette, c),
        enableTransmission := LoadBool(root, KeyTransmission, ui.enableTransmission, c),
        enableAnimations := LoadBool(root, KeyAnimations, ui.enableAnimations, c));
      // Path tracing
      ui := ui.(
        techSelection := LoadEnum(root, KeyTechSelection, ui.techSelection, c),
        denoiserSelection := LoadEnum(root, KeyDenoiserSelection, ui.denoiserSelection, c),
        bouncesMax := LoadInt(root, KeyBouncesMax, ui.bouncesMax, c),
        samplesPerPixel := LoadInt(root, KeySamplesPerPixel, ui.samplesPerPixel, c),
        exposureAdjustment := LoadFloat(root, KeyExposureAdjustment, ui.exposureAdjustment, c),
        roughnessMin := LoadFloat(root, KeyRoughnessMin, ui.roughnessMin, c),
        roughnessMax := LoadFloat(root, KeyRoughnessMax, ui.roughnessMax, c),
        metalnessMin := LoadFloat(root, KeyMetalnessMin, ui.metalnessMin, c),
        metalnessMax := LoadFloat(root, KeyMetalnessMax, ui.metalnessMax, c),
        ptDebugOutput := LoadEnum(root, KeyPtDebugOutput, ui.ptDebugOutput, c));
      // NRC
      if ENABLE_NRC {
        ui := ui.(
          nrcTrainCache := LoadBool(root, KeyNrcTrainCache, ui.nrcTrainCache, c),
          nrcMaxTrainingBounces := LoadInt(root, KeyNrcTrainingBounces, ui.nrcMaxTrainingBounces, c),
          nrcLearnIrradiance := LoadBool(root, KeyLearnIrradiance, ui.nrcLearnIrradiance, c),
          nrcIncludeDirectIllumination := LoadBool(root, KeyIncludeDirectIllumination, ui.nrcIncludeDirectIllumination, c),
          nrcSkipDeltaVertices := LoadBool(root, KeySkipDeltaVertices, ui.nrcSkipDeltaVertices, c),
          nrcSelfTrainingAttenuation := LoadFloat(root, KeySelfTrainingAttenuation, ui.nrcSelfTrainingAttenuation, c),
          nrcTerminationHeuristicThreshold := LoadFloat(root, KeyHeuristicThreshold, ui.nrcTerminationHeuristicThreshold, c),
          nrcNumTrainingIterations := LoadInt(root, KeyNumTrainingIterations, ui.nrcNumTrainingIterations, c),
          nrcProportionPrimarySegmentsToTrainOn := LoadFloat(root, KeyPrimarySegmentsToTrainOn, ui.nrcProportionPrimarySegmentsToTrainOn, c),
          nrcProportionTertiaryPlusSegmentsToTrainOn := LoadFloat(root, KeyTertiaryPlusSegmentsToTrainOn, ui.nrcProportionTertiaryPlusSegmentsToTrainOn, c),
          nrcProportionUnbiased := LoadFloat(root, KeyProportionUnbiased, ui.nrcProportionUnbiased, c),
          nrcProportionUnbiasedToSelfTrain := LoadFloat(root, KeyUnbiasedSelfTraining, ui.nrcProportionUnbiasedToSelfTrain, c),
          nrcMaxAverageRadiance := LoadFloat(root, KeyMaxAverageRadianceValue, ui.nrcMaxAverageRadiance, c),
          nrcResolveMode := LoadEnum(root, KeyResolveMode, ui.nrcResolveMode, c));
      }
      // SHaRC
      if ENABLE_SHARC {
        ui := ui.(
          sharcEnableClear := LoadBool(root, KeyEnableClear, ui.sharcEnableClear, c),
          sharcEnableUpdate := LoadBool(root, KeyEnableUpdate, ui.sharcEnableUpdate, c),
          sharcEnableResolve := LoadBool(root, KeyEnableResolve, ui.sharcEnableResolve, c),
          sharcEnableAntiFireflyFilter := LoadBool(root, KeyEnableAntiFirefly, ui.sharcEnableAntiFireflyFilter, c),
          sharcUpdateViewCamera := LoadBool(root, KeyUpdateViewCamera, ui.sharcUpdateViewCamera, c),
          sharcEnableMaterialDemodulation := LoadBool(root, KeyEnableMaterialDemodulation, ui.sharcEnableMaterialDemodulation, c),
          sharcEnableDebug := LoadBool(root, KeyEnableDebug, ui.sharcEnableDebug, c),
          sharcAccumulationFrameNum := LoadInt(root, KeyAccumulationFrameNumber, ui.sharcAccumulationFrameNum, c),
          sharcStaleFrameFrameNum := LoadInt(root, KeyStaleFrameNumber, ui.sharcStaleFrameFrameNum, c),
          sharcDownscaleFactor := LoadInt(root, KeyDownscaleFactor, ui.sharcDownscaleFactor, c),
          sharcSceneScale := LoadFloat(root, KeySceneScale, ui.sharcSceneScale, c),
          sharcRoughnessThreshold := LoadFloat(root, KeyRougnessThreshold, ui.sharcRoughnessThreshold, c));
      }
      // Lighting
      ui := ui.(
        enableSky := LoadBool(root, KeyEnableSky, ui.enableSky, c),
        skyColor := LoadColor(root, KeySkyColor, ui.skyColor, c),
        skyIntensity := LoadFloat(root, KeySkyIntensity, ui.skyIntensity, c),
        enableEmissives := LoadBool(root, KeyEnableEmissives, ui.enableEmissives, c),
        enableLighting := LoadBool(root, KeyEnableLighting, ui.enableLighting, c));
      // Tone mapping
      ui := ui.(
        toneMappingOperator := LoadEnum(root, KeyToneMappingOperator, ui.toneMappingOperator, c),
        toneMappingClamp := LoadBool(root, KeyToneMappingClamp, ui.toneMappingClamp, c));
      resetLog := resetLog + [ui];   // m_app.ResetAccumulation()
      return true;
    }

  }
}
