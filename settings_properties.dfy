/**
 * What the settings codec promises, stated against a per-setting reference
 * rule rather than against the field-by-field code: which key each setting
 * travels under, how a present member is converted, that a missing member
 * leaves the setting alone, and what a save followed by a load gives back.
 */
module SettingsProperties {
  import opened Numerics
  import opened MemberNames
  import opened Json
  import opened PathtracerUi
  import opened SettingSaveLoad
  import Maybe

  /** The JSON value SaveSettings writes for a setting's value. */
  function ToJson(v: Value): JVal
  {
    match v
    case BoolV(b) => JBool(b)
    case IntV(i) => JInt(i)
    case FloatV(f) => JFloat(f)
    case OrdinalV(n) => JInt(ToInt32(n))
    case ColorV(col) => JArray([JFloat(col.s0), JFloat(col.s1), JFloat(col.s2), JFloat(col.s3)])
  }

  /**
   * The reference load rule for one present member: convert it to the kind
   * of the setting's current value. A sky colour only changes when the
   * member is an array of exactly four elements.
   */
  function Convert(v: JVal, current: Value, c: Coercions): Value
  {
    match current
    case BoolV(_) => BoolV(AsBool(v, c))
    case IntV(_) => IntV(AsInt(v, c))
    case FloatV(_) => FloatV(AsFloat(v, c))
    case OrdinalV(_) => OrdinalV(ToUint32(AsInt(v, c)))
    case ColorV(_) =>
      if IsFourSlotArray(v) then
        ColorV(ColorSlots(AsFloat(v.elems[0], c), AsFloat(v.elems[1], c), AsFloat(v.elems[2], c), AsFloat(v.elems[3], c)))
      else current
  }

  /** The value a setting holds after a load: unchanged when its key is missing, converted otherwise. */
  function Loaded(root: Document, s: Setting, current: Value, c: Coercions): Value
  {
    if LoadKey(s) in root then Convert(root[LoadKey(s)], current, c) else current
  }

  /** Two values of the same kind. */
  predicate SameKind(v: Value, w: Value)
  {
    match v
    case BoolV(_) => w.BoolV?
    case IntV(_) => w.IntV?
    case FloatV(_) => w.FloatV?
    case OrdinalV(_) => w.OrdinalV?
    case ColorV(_) => w.ColorV?
  }

  /** Every setting of a record has a fixed kind. */
  lemma GetKeepsKind(u: UIData, t: UIData, s: Setting)
    ensures SameKind(Get(u, s), Get(t, s))
  {
  }

  /** Loading what was saved for a value gives that value back, whatever the setting held before. */
  lemma {:induction false} ConvertInvertsToJson(v: Value, current: Value, c: Coercions)
    requires SameKind(v, current)
    ensures Convert(ToJson(v), current, c) == v
  {
    match v
    case OrdinalV(n) =>
      OrdinalSurvivesInt(n);
    case ColorV(col) =>
      assert IsFourSlotArray(ToJson(v));
    case _ =>
  }

  /** The fields the codec never writes nor reads are the same in both records. */
  predicate SameUnsaved(u: UIData, v: UIData)
  {
    && u.showUI == v.showUI
    && u.enableBackFaceCull == v.enableBackFaceCull
    && u.accumulatedFrames == v.accumulatedFrames
    && u.accumulatedFramesMax == v.accumulatedFramesMax
    && u.enableAbsorbtion == v.enableAbsorbtion
    && u.enableTransparentShadows == v.enableTransparentShadows
    && u.enableSoftShadows == v.enableSoftShadows
    && u.throughputThreshold == v.throughputThreshold
    && u.targetLight == v.targetLight
    && u.enableTonemapping == v.enableTonemapping
    && u.enableDenoiser == v.enableDenoiser
    && u.nrcCalculateTrainingLoss == v.nrcCalculateTrainingLoss
    && u.nrcTrainingWidth == v.nrcTrainingWidth
    && u.nrcTrainingHeight == v.nrcTrainingHeight
  }

  /** A load changes no field outside the persisted settings. */
  lemma MergeKeepsUnsaved(u: UIData, root: Document, c: Coercions)
    ensures SameUnsaved(Merge(u, root, c), u)
  {
  }

  /** The members the generic step writes. */
  predicate GenericKey(k: Name)
  {
    || k == KeyVSync
    || k == KeyJitter
    || k == KeyRussianRoulette
    || k == KeyTransmission
    || k == KeyAnimations
  }

  /** The members the path tracing step writes. */
  predicate PathTracingKey(k: Name)
  {
    || k == KeyTechSelection
    || k == KeyDenoiserSelection
    || k == KeyBouncesMax
    || k == KeySamplesPerPixel
    || k == KeyExposureAdjustment
    || k == KeyRoughnessMin
    || k == KeyRoughnessMax
    || k == KeyMetalnessMin
    || k == KeyMetalnessMax
    || k == KeyPtDebugOutput
  }

  /** The members the NRC step writes. */
  predicate NrcKey(k: Name)
  {
    || k == KeyNrcTrainCache
    || k == KeyNrcTrainingBounces
    || k == KeyLearnIrradiance
    || k == KeyIncludeDirectIllumination
    || k == KeySkipDeltaVertices
    || k == KeySelfTrainingAttenuation
    || k == KeyHeuristicThreshold
    || k == KeyNumTrainingIterations
    || k == KeyPrimarySegmentsToTrainOn
    || k == KeyTertiaryPlusSegmentsToTrainOn
    || k == KeyProportionUnbiased
    || k == KeyUnbiasedSelfTraining
    || k == KeyMaxAverageRadianceValue
    || k == KeyResolveMode
  }

  /** The members the SHaRC step writes. */
  predicate SharcKey(k: Name)
  {
    || k == KeySharcEnableClear
    || k == KeyEnableUpdate
    || k == KeyEnableResolve
    || k == KeyEnableAntiFirefly
    || k == KeyUpdateViewCamera
    || k == KeyEnableMaterialDemodulation
    || k == KeyEnableDebug
    || k == KeyAccumulationFrameNumber
    || k == KeyStaleFrameNumber
    || k == KeyDownscaleFactor
    || k == KeySceneScale
    || k == KeyRougnessThreshold
  }

  /** The members the lighting step writes. */
  predicate LightingKey(k: Name)
  {
    || k == KeyEnableSky
    || k == KeySkyColor
    || k == KeySkyIntensity
    || k == KeyEnableEmissives
    || k == KeyEnableLighting
  }

  /** The members the tone mapping step writes. */
  predicate ToneMappingKey(k: Name)
  {
    || k == KeyToneMappingOperator
    || k == KeyToneMappingClamp
  }

  /** Each generic setting is saved under a member of its own step and of no other step. */
  lemma {:induction false} GenericSaveKeyIsOwn(x: GenericSetting)
    ensures GenericKey(SaveKeyGeneric(x))
    ensures !PathTracingKey(SaveKeyGeneric(x))
    ensures !NrcKey(SaveKeyGeneric(x))
    ensures !SharcKey(SaveKeyGeneric(x))
    ensures !LightingKey(SaveKeyGeneric(x))
    ensures !ToneMappingKey(SaveKeyGeneric(x))
  {
    match x
    case EnableVSync =>
    case EnableJitter =>
    case EnableRussianRoulette =>
    case EnableTransmission =>
    case EnableAnimations =>
  }

  /** Each member of the generic step is the save key of one of its settings. */
  lemma {:induction false} GenericKeyNamesSetting(k: Name)
    requires GenericKey(k)
    ensures exists s :: Enabled(s) && SaveKey(s) == k
  {
    if k == KeyVSync {
      assert Enabled(OfGeneric(EnableVSync)) && SaveKey(OfGeneric(EnableVSync)) == k;
    } else if k == KeyJitter {
      assert Enabled(OfGeneric(EnableJitter)) && SaveKey(OfGeneric(EnableJitter)) == k;
    } else if k == KeyRussianRoulette {
      assert Enabled(OfGeneric(EnableRussianRoulette)) && SaveKey(OfGeneric(EnableRussianRoulette)) == k;
    } else if k == KeyTransmission {
      assert Enabled(OfGeneric(EnableTransmission)) && SaveKey(OfGeneric(EnableTransmission)) == k;
    } else {
      assert Enabled(OfGeneric(EnableAnimations)) && SaveKey(OfGeneric(EnableAnimations)) == k;
    }
  }

  /** The generic step writes each of its settings as the JSON form of its value. */
  lemma {:induction false} EncodeGenericWrites(root: Document, u: UIData, x: GenericSetting)
    ensures SaveKeyGeneric(x) in EncodeGeneric(root, u)
    ensures EncodeGeneric(root, u)[SaveKeyGeneric(x)] == ToJson(GetGeneric(u, x))
  {
    match x
    case EnableVSync =>
    case EnableJitter =>
    case EnableRussianRoulette =>
    case EnableTransmission =>
    case EnableAnimations =>
  }

  /** The generic step adds its own members to those already present. */
  lemma EncodeGenericAdds(root: Document, u: UIData, k: Name)
    ensures k in EncodeGeneric(root, u) <==> k in root || GenericKey(k)
  {
  }

  /** The generic step leaves every other member as it was. */
  lemma EncodeGenericKeeps(root: Document, u: UIData, k: Name)
    requires !GenericKey(k) && k in root
    ensures k in EncodeGeneric(root, u) && EncodeGeneric(root, u)[k] == root[k]
  {
  }

  /** Each path tracing setting is saved under a member of its own step and of no other step. */
  lemma {:induction false} PathTracingSaveKeyIsOwn(x: PathTracingSetting)
    ensures PathTracingKey(SaveKeyPathTracing(x))
    ensures !GenericKey(SaveKeyPathTracing(x))
    ensures !NrcKey(SaveKeyPathTracing(x))
    ensures !SharcKey(SaveKeyPathTracing(x))
    ensures !LightingKey(SaveKeyPathTracing(x))
    ensures !ToneMappingKey(SaveKeyPathTracing(x))
  {
    match x
    case TechSelectionSetting =>
    case DenoiserSelectionSetting =>
    case BouncesMax =>
    case SamplesPerPixel =>
    case ExposureAdjustment =>
    case RoughnessMin =>
    case RoughnessMax =>
    case MetalnessMin =>
    case MetalnessMax =>
    case PtDebugOutput =>
  }

  /** Each member of the path tracing step is the save key of one of its settings. */
  lemma {:induction false} PathTracingKeyNamesSetting(k: Name)
    requires PathTracingKey(k)
    ensures exists s :: Enabled(s) && SaveKey(s) == k
  {
    if k == KeyTechSelection {
      assert Enabled(OfPathTracing(TechSelectionSetting)) && SaveKey(OfPathTracing(TechSelectionSetting)) == k;
    } else if k == KeyDenoiserSelection {
      assert Enabled(OfPathTracing(DenoiserSelectionSetting)) && SaveKey(OfPathTracing(DenoiserSelectionSetting)) == k;
    } else if k == KeyBouncesMax {
      assert Enabled(OfPathTracing(BouncesMax)) && SaveKey(OfPathTracing(BouncesMax)) == k;
    } else if k == KeySamplesPerPixel {
      assert Enabled(OfPathTracing(SamplesPerPixel)) && SaveKey(OfPathTracing(SamplesPerPixel)) == k;
    } else if k == KeyExposureAdjustment {
      assert Enabled(OfPathTracing(ExposureAdjustment)) && SaveKey(OfPathTracing(ExposureAdjustment)) == k;
    } else if k == KeyRoughnessMin {
      assert Enabled(OfPathTracing(RoughnessMin)) && SaveKey(OfPathTracing(RoughnessMin)) == k;
    } else if k == KeyRoughnessMax {
      assert Enabled(OfPathTracing(RoughnessMax)) && SaveKey(OfPathTracing(RoughnessMax)) == k;
    } else if k == KeyMetalnessMin {
      assert Enabled(OfPathTracing(MetalnessMin)) && SaveKey(OfPathTracing(MetalnessMin)) == k;
    } else if k == KeyMetalnessMax {
      assert Enabled(OfPathTracing(MetalnessMax)) && SaveKey(OfPathTracing(MetalnessMax)) == k;
    } else {
      assert Enabled(OfPathTracing(PtDebugOutput)) && SaveKey(OfPathTracing(PtDebugOutput)) == k;
    }
  }

  /** The path tracing step writes each of its settings as the JSON form of its value. */
  lemma {:induction false} EncodePathTracingWrites(root: Document, u: UIData, x: PathTracingSetting)
    ensures SaveKeyPathTracing(x) in EncodePathTracing(root, u)
    ensures EncodePathTracing(root, u)[SaveKeyPathTracing(x)] == ToJson(GetPathTracing(u, x))
  {
    match x
    case TechSelectionSetting =>
    case DenoiserSelectionSetting =>
    case BouncesMax =>
    case SamplesPerPixel =>
    case ExposureAdjustment =>
    case RoughnessMin =>
    case RoughnessMax =>
    case MetalnessMin =>
    case MetalnessMax =>
    case PtDebugOutput =>
  }

  /** The path tracing step adds its own members to those already present. */
  lemma EncodePathTracingAdds(root: Document, u: UIData, k: Name)
    ensures k in EncodePathTracing(root, u) <==> k in root || PathTracingKey(k)
  {
  }

  /** The path tracing step leaves every other member as it was. */
  lemma EncodePathTracingKeeps(root: Document, u: UIData, k: Name)
    requires !PathTracingKey(k) && k in root
    ensures k in EncodePathTracing(root, u) && EncodePathTracing(root, u)[k] == root[k]
  {
  }

  /** Each NRC setting is saved under a member of its own step and of no other step. */
  lemma {:induction false} NrcSaveKeyIsOwn(x: NrcSetting)
    ensures NrcKey(SaveKeyNrc(x))
    ensures !GenericKey(SaveKeyNrc(x))
    ensures !PathTracingKey(SaveKeyNrc(x))
    ensures !SharcKey(SaveKeyNrc(x))
    ensures !LightingKey(SaveKeyNrc(x))
    ensures !ToneMappingKey(SaveKeyNrc(x))
  {
    match x
    case NrcTrainCache =>
    case NrcMaxTrainingBounces =>
    case NrcLearnIrradiance =>
    case NrcIncludeDirectIllumination =>
    case NrcSkipDeltaVertices =>
    case NrcSelfTrainingAttenuation =>
    case NrcTerminationHeuristicThreshold =>
    case NrcNumTrainingIterations =>
    case NrcProportionPrimarySegmentsToTrainOn =>
    case NrcProportionTertiaryPlusSegmentsToTrainOn =>
    case NrcProportionUnbiased =>
    case NrcProportionUnbiasedToSelfTrain =>
    case NrcMaxAverageRadiance =>
    case NrcResolveMode =>
  }

  /** Each member of the NRC step is the save key of one of its settings. */
  lemma {:induction false} NrcKeyNamesSetting(k: Name)
    requires NrcKey(k)
    ensures exists s :: Enabled(s) && SaveKey(s) == k
  {
    if k == KeyNrcTrainCache {
      assert Enabled(OfNrc(NrcTrainCache)) && SaveKey(OfNrc(NrcTrainCache)) == k;
    } else if k == KeyNrcTrainingBounces {
      assert Enabled(OfNrc(NrcMaxTrainingBounces)) && SaveKey(OfNrc(NrcMaxTrainingBounces)) == k;
    } else if k == KeyLearnIrradiance {
      assert Enabled(OfNrc(NrcLearnIrradiance)) && SaveKey(OfNrc(NrcLearnIrradiance)) == k;
    } else if k == KeyIncludeDirectIllumination {
      assert Enabled(OfNrc(NrcIncludeDirectIllumination)) && SaveKey(OfNrc(NrcIncludeDirectIllumination)) == k;
    } else if k == KeySkipDeltaVertices {
      assert Enabled(OfNrc(NrcSkipDeltaVertices)) && SaveKey(OfNrc(NrcSkipDeltaVertices)) == k;
    } else if k == KeySelfTrainingAttenuation {
      assert Enabled(OfNrc(NrcSelfTrainingAttenuation)) && SaveKey(OfNrc(NrcSelfTrainingAttenuation)) == k;
    } else if k == KeyHeuristicThreshold {
      assert Enabled(OfNrc(NrcTerminationHeuristicThreshold)) && SaveKey(OfNrc(NrcTerminationHeuristicThreshold)) == k;
    } else if k == KeyNumTrainingIterations {
      assert Enabled(OfNrc(NrcNumTrainingIterations)) && SaveKey(OfNrc(NrcNumTrainingIterations)) == k;
    } else if k == KeyPrimarySegmentsToTrainOn {
      assert Enabled(OfNrc(NrcProportionPrimarySegmentsToTrainOn)) && SaveKey(OfNrc(NrcProportionPrimarySegmentsToTrainOn)) == k;
    } else if k == KeyTertiaryPlusSegmentsToTrainOn {
      assert Enabled(OfNrc(NrcProportionTertiaryPlusSegmentsToTrainOn)) && SaveKey(OfNrc(NrcProportionTertiaryPlusSegmentsToTrainOn)) == k;
    } else if k == KeyProportionUnbiased {
      assert Enabled(OfNrc(NrcProportionUnbiased)) && SaveKey(OfNrc(NrcProportionUnbiased)) == k;
    } else if k == KeyUnbiasedSelfTraining {
      assert Enabled(OfNrc(NrcProportionUnbiasedToSelfTrain)) && SaveKey(OfNrc(NrcProportionUnbiasedToSelfTrain)) == k;
    } else if k == KeyMaxAverageRadianceValue {
      assert Enabled(OfNrc(NrcMaxAverageRadiance)) && SaveKey(OfNrc(NrcMaxAverageRadiance)) == k;
    } else {
      assert Enabled(OfNrc(NrcResolveMode)) && SaveKey(OfNrc(NrcResolveMode)) == k;
    }
  }

  /** The NRC step writes each of its settings as the JSON form of its value. */
  lemma {:induction false} EncodeNrcWrites(root: Document, u: UIData, x: NrcSetting)
    ensures SaveKeyNrc(x) in EncodeNrc(root, u)
    ensures EncodeNrc(root, u)[SaveKeyNrc(x)] == ToJson(GetNrc(u, x))
  {
    match x
    case NrcTrainCache =>
    case NrcMaxTrainingBounces =>
    case NrcLearnIrradiance =>
    case NrcIncludeDirectIllumination =>
    case NrcSkipDeltaVertices =>
    case NrcSelfTrainingAttenuation =>
    case NrcTerminationHeuristicThreshold =>
    case NrcNumTrainingIterations =>
    case NrcProportionPrimarySegmentsToTrainOn =>
    case NrcProportionTertiaryPlusSegmentsToTrainOn =>
    case NrcProportionUnbiased =>
    case NrcProportionUnbiasedToSelfTrain =>
    case NrcMaxAverageRadiance =>
    case NrcResolveMode =>
  }

  /** The NRC step adds its own members to those already present. */
  lemma EncodeNrcAdds(root: Document, u: UIData, k: Name)
    ensures k in EncodeNrc(root, u) <==> k in root || NrcKey(k)
  {
  }

  /** The NRC step leaves every other member as it was. */
  lemma EncodeNrcKeeps(root: Document, u: UIData, k: Name)
    requires !NrcKey(k) && k in root
    ensures k in EncodeNrc(root, u) && EncodeNrc(root, u)[k] == root[k]
  {
  }

  /** Each SHaRC setting is saved under a member of its own step and of no other step. */
  lemma {:induction false} SharcSaveKeyIsOwn(x: SharcSetting)
    ensures SharcKey(SaveKeySharc(x))
    ensures !GenericKey(SaveKeySharc(x))
    ensures !PathTracingKey(SaveKeySharc(x))
    ensures !NrcKey(SaveKeySharc(x))
    ensures !LightingKey(SaveKeySharc(x))
    ensures !ToneMappingKey(SaveKeySharc(x))
  {
    match x
    case SharcEnableClear =>
    case SharcEnableUpdate =>
    case SharcEnableResolve =>
    case SharcEnableAntiFireflyFilter =>
    case SharcUpdateViewCamera =>
    case SharcEnableMaterialDemodulation =>
    case SharcEnableDebug =>
    case SharcAccumulationFrameNum =>
    case SharcStaleFrameFrameNum =>
    case SharcDownscaleFactor =>
    case SharcSceneScale =>
    case SharcRoughnessThreshold =>
  }

  /** Each member of the SHaRC step is the save key of one of its settings. */
  lemma {:induction false} SharcKeyNamesSetting(k: Name)
    requires SharcKey(k)
    ensures exists s :: Enabled(s) && SaveKey(s) == k
  {
    if k == KeySharcEnableClear {
      assert Enabled(OfSharc(SharcEnableClear)) && SaveKey(OfSharc(SharcEnableClear)) == k;
    } else if k == KeyEnableUpdate {
      assert Enabled(OfSharc(SharcEnableUpdate)) && SaveKey(OfSharc(SharcEnableUpdate)) == k;
    } else if k == KeyEnableResolve {
      assert Enabled(OfSharc(SharcEnableResolve)) && SaveKey(OfSharc(SharcEnableResolve)) == k;
    } else if k == KeyEnableAntiFirefly {
      assert Enabled(OfSharc(SharcEnableAntiFireflyFilter)) && SaveKey(OfSharc(SharcEnableAntiFireflyFilter)) == k;
    } else if k == KeyUpdateViewCamera {
      assert Enabled(OfSharc(SharcUpdateViewCamera)) && SaveKey(OfSharc(SharcUpdateViewCamera)) == k;
    } else if k == KeyEnableMaterialDemodulation {
      assert Enabled(OfSharc(SharcEnableMaterialDemodulation)) && SaveKey(OfSharc(SharcEnableMaterialDemodulation)) == k;
    } else if k == KeyEnableDebug {
      assert Enabled(OfSharc(SharcEnableDebug)) && SaveKey(OfSharc(SharcEnableDebug)) == k;
    } else if k == KeyAccumulationFrameNumber {
      assert Enabled(OfSharc(SharcAccumulationFrameNum)) && SaveKey(OfSharc(SharcAccumulationFrameNum)) == k;
    } else if k == KeyStaleFrameNumber {
      assert Enabled(OfSharc(SharcStaleFrameFrameNum)) && SaveKey(OfSharc(SharcStaleFrameFrameNum)) == k;
    } else if k == KeyDownscaleFactor {
      assert Enabled(OfSharc(SharcDownscaleFactor)) && SaveKey(OfSharc(SharcDownscaleFactor)) == k;
    } else if k == KeySceneScale {
      assert Enabled(OfSharc(SharcSceneScale)) && SaveKey(OfSharc(SharcSceneScale)) == k;
    } else {
      assert Enabled(OfSharc(SharcRoughnessThreshold)) && SaveKey(OfSharc(SharcRoughnessThreshold)) == k;
    }
  }

  /** The SHaRC step writes each of its settings as the JSON form of its value. */
  lemma {:induction false} EncodeSharcWrites(root: Document, u: UIData, x: SharcSetting)
    ensures SaveKeySharc(x) in EncodeSharc(root, u)
    ensures EncodeSharc(root, u)[SaveKeySharc(x)] == ToJson(GetSharc(u, x))
  {
    match x
    case SharcEnableClear =>
    case SharcEnableUpdate =>
    case SharcEnableResolve =>
    case SharcEnableAntiFireflyFilter =>
    case SharcUpdateViewCamera =>
    case SharcEnableMaterialDemodulation =>
    case SharcEnableDebug =>
    case SharcAccumulationFrameNum =>
    case SharcStaleFrameFrameNum =>
    case SharcDownscaleFactor =>
    case SharcSceneScale =>
    case SharcRoughnessThreshold =>
  }

  /** The SHaRC step adds its own members to those already present. */
  lemma EncodeSharcAdds(root: Document, u: UIData, k: Name)
    ensures k in EncodeSharc(root, u) <==> k in root || SharcKey(k)
  {
  }

  /** The SHaRC step leaves every other member as it was. */
  lemma EncodeSharcKeeps(root: Document, u: UIData, k: Name)
    requires !SharcKey(k) && k in root
    ensures k in EncodeSharc(root, u) && EncodeSharc(root, u)[k] == root[k]
  {
  }

  /** Each lighting setting is saved under a member of its own step and of no other step. */
  lemma {:induction false} LightingSaveKeyIsOwn(x: LightingSetting)
    ensures LightingKey(SaveKeyLighting(x))
    ensures !GenericKey(SaveKeyLighting(x))
    ensures !PathTracingKey(SaveKeyLighting(x))
    ensures !NrcKey(SaveKeyLighting(x))
    ensures !SharcKey(SaveKeyLighting(x))
    ensures !ToneMappingKey(SaveKeyLighting(x))
  {
    match x
    case EnableSky =>
    case SkyColor =>
    case SkyIntensity =>
    case EnableEmissives =>
    case EnableLighting =>
  }

  /** Each member of the lighting step is the save key of one of its settings. */
  lemma {:induction false} LightingKeyNamesSetting(k: Name)
    requires LightingKey(k)
    ensures exists s :: Enabled(s) && SaveKey(s) == k
  {
    if k == KeyEnableSky {
      assert Enabled(OfLighting(EnableSky)) && SaveKey(OfLighting(EnableSky)) == k;
    } else if k == KeySkyColor {
      assert Enabled(OfLighting(SkyColor)) && SaveKey(OfLighting(SkyColor)) == k;
    } else if k == KeySkyIntensity {
      assert Enabled(OfLighting(SkyIntensity)) && SaveKey(OfLighting(SkyIntensity)) == k;
    } else if k == KeyEnableEmissives {
      assert Enabled(OfLighting(EnableEmissives)) && SaveKey(OfLighting(EnableEmissives)) == k;
    } else {
      assert Enabled(OfLighting(EnableLighting)) && SaveKey(OfLighting(EnableLighting)) == k;
    }
  }

  /** The lighting step writes each of its settings as the JSON form of its value. */
  lemma {:induction false} EncodeLightingWrites(root: Document, u: UIData, x: LightingSetting)
    ensures SaveKeyLighting(x) in EncodeLighting(root, u)
    ensures EncodeLighting(root, u)[SaveKeyLighting(x)] == ToJson(GetLighting(u, x))
  {
    match x
    case EnableSky =>
    case SkyColor =>
    case SkyIntensity =>
    case EnableEmissives =>
    case EnableLighting =>
  }

  /** The lighting step adds its own members to those already present. */
  lemma EncodeLightingAdds(root: Document, u: UIData, k: Name)
    ensures k in EncodeLighting(root, u) <==> k in root || LightingKey(k)
  {
  }

  /** The lighting step leaves every other member as it was. */
  lemma EncodeLightingKeeps(root: Document, u: UIData, k: Name)
    requires !LightingKey(k) && k in root
    ensures k in EncodeLighting(root, u) && EncodeLighting(root, u)[k] == root[k]
  {
  }

  /** Each tone mapping setting is saved under a member of its own step and of no other step. */
  lemma {:induction false} ToneMappingSaveKeyIsOwn(x: ToneMappingSetting)
    ensures ToneMappingKey(SaveKeyToneMapping(x))
    ensures !GenericKey(SaveKeyToneMapping(x))
    ensures !PathTracingKey(SaveKeyToneMapping(x))
    ensures !NrcKey(SaveKeyToneMapping(x))
    ensures !SharcKey(SaveKeyToneMapping(x))
    ensures !LightingKey(SaveKeyToneMapping(x))
  {
    match x
    case ToneMappingOperatorSetting =>
    case ToneMappingClamp =>
  }

  /** Each member of the tone mapping step is the save key of one of its settings. */
  lemma {:induction false} ToneMappingKeyNamesSetting(k: Name)
    requires ToneMappingKey(k)
    ensures exists s :: Enabled(s) && SaveKey(s) == k
  {
    if k == KeyToneMappingOperator {
      assert Enabled(OfToneMapping(ToneMappingOperatorSetting)) && SaveKey(OfToneMapping(ToneMappingOperatorSetting)) == k;
    } else {
      assert Enabled(OfToneMapping(ToneMappingClamp)) && SaveKey(OfToneMapping(ToneMappingClamp)) == k;
    }
  }

  /** The tone mapping step writes each of its settings as the JSON form of its value. */
  lemma {:induction false} EncodeToneMappingWrites(root: Document, u: UIData, x: ToneMappingSetting)
    ensures SaveKeyToneMapping(x) in EncodeToneMapping(root, u)
    ensures EncodeToneMapping(root, u)[SaveKeyToneMapping(x)] == ToJson(GetToneMapping(u, x))
  {
    match x
    case ToneMappingOperatorSetting =>
    case ToneMappingClamp =>
  }

  /** The tone mapping step adds its own members to those already present. */
  lemma EncodeToneMappingAdds(root: Document, u: UIData, k: Name)
    ensures k in EncodeToneMapping(root, u) <==> k in root || ToneMappingKey(k)
  {
  }

  /** The tone mapping step leaves every other member as it was. */
  lemma EncodeToneMappingKeeps(root: Document, u: UIData, k: Name)
    requires !ToneMappingKey(k) && k in root
    ensures k in EncodeToneMapping(root, u) && EncodeToneMapping(root, u)[k] == root[k]
  {
  }

  /** The members the whole of SaveSettings writes, group by group. */
  lemma {:induction false} EncodeAdds(u: UIData, k: Name)
    ensures k in Encode(u) <==> SavedKey(k)
  {
    var r0 := EncodeGeneric(map[], u);
    EncodeGenericAdds(map[], u, k);
    var r1 := EncodePathTracing(r0, u);
    EncodePathTracingAdds(r0, u, k);
    var r2 := EncodeNrc(r1, u);
    EncodeNrcAdds(r1, u, k);
    var r3 := EncodeSharc(r2, u);
    EncodeSharcAdds(r2, u, k);
    var r4 := EncodeLighting(r3, u);
    EncodeLightingAdds(r3, u, k);
    var r5 := EncodeToneMapping(r4, u);
    EncodeToneMappingAdds(r4, u, k);
    assert Encode(u) == r5;
  }

  /** Each setting is saved, under its save key, as the JSON form of its value. */
  lemma {:induction false} EncodeFollowsTable(u: UIData, s: Setting)
    requires Enabled(s)
    ensures SaveKey(s) in Encode(u) && Encode(u)[SaveKey(s)] == ToJson(Get(u, s))
  {
    var k := SaveKey(s);
    var r0 := EncodeGeneric(map[], u);
    var r1 := EncodePathTracing(r0, u);
    var r2 := EncodeNrc(r1, u);
    var r3 := EncodeSharc(r2, u);
    var r4 := EncodeLighting(r3, u);
    var r5 := EncodeToneMapping(r4, u);
    assert Encode(u) == r5;
    match s
    case OfGeneric(x) =>
      GenericSaveKeyIsOwn(x);
      EncodeGenericWrites(map[], u, x);
      EncodePathTracingKeeps(r0, u, k);
      EncodeNrcKeeps(r1, u, k);
      EncodeSharcKeeps(r2, u, k);
      EncodeLightingKeeps(r3, u, k);
      EncodeToneMappingKeeps(r4, u, k);
    case OfPathTracing(x) =>
      PathTracingSaveKeyIsOwn(x);
      EncodePathTracingWrites(r0, u, x);
      EncodeNrcKeeps(r1, u, k);
      EncodeSharcKeeps(r2, u, k);
      EncodeLightingKeeps(r3, u, k);
      EncodeToneMappingKeeps(r4, u, k);
    case OfNrc(x) =>
      NrcSaveKeyIsOwn(x);
      EncodeNrcWrites(r1, u, x);
      EncodeSharcKeeps(r2, u, k);
      EncodeLightingKeeps(r3, u, k);
      EncodeToneMappingKeeps(r4, u, k);
    case OfSharc(x) =>
      SharcSaveKeyIsOwn(x);
      EncodeSharcWrites(r2, u, x);
      EncodeLightingKeeps(r3, u, k);
      EncodeToneMappingKeeps(r4, u, k);
    case OfLighting(x) =>
      LightingSaveKeyIsOwn(x);
      EncodeLightingWrites(r3, u, x);
      EncodeToneMappingKeeps(r4, u, k);
    case OfToneMapping(x) =>
      ToneMappingSaveKeyIsOwn(x);
      EncodeToneMappingWrites(r4, u, x);
  }

  /** The members some step of SaveSettings writes. */
  predicate SavedKey(k: Name)
  {
    GenericKey(k) || PathTracingKey(k) || NrcKey(k) || SharcKey(k) || LightingKey(k) || ToneMappingKey(k)
  }

  /** Every setting is saved under a member some step writes. */
  lemma {:induction false} SaveKeyIsSaved(s: Setting)
    ensures SavedKey(SaveKey(s))
  {
    match s
    case OfGeneric(x) => GenericSaveKeyIsOwn(x);
    case OfPathTracing(x) => PathTracingSaveKeyIsOwn(x);
    case OfNrc(x) => NrcSaveKeyIsOwn(x);
    case OfSharc(x) => SharcSaveKeyIsOwn(x);
    case OfLighting(x) => LightingSaveKeyIsOwn(x);
    case OfToneMapping(x) => ToneMappingSaveKeyIsOwn(x);
  }

  /** Every member some step writes is the save key of a compiled-in setting. */
  lemma {:induction false} SavedKeyNamesSetting(k: Name)
    requires SavedKey(k)
    ensures exists s :: Enabled(s) && SaveKey(s) == k
  {
    if GenericKey(k) {
      GenericKeyNamesSetting(k);
    } else if PathTracingKey(k) {
      PathTracingKeyNamesSetting(k);
    } else if NrcKey(k) {
      NrcKeyNamesSetting(k);
    } else if SharcKey(k) {
      SharcKeyNamesSetting(k);
    } else if LightingKey(k) {
      LightingKeyNamesSetting(k);
    } else if ToneMappingKey(k) {
      ToneMappingKeyNamesSetting(k);
    }
  }

  /** SaveSettings writes exactly the save keys of the compiled-in settings. */
  lemma {:induction false} EncodeKeys(u: UIData, k: Name)
    ensures k in Encode(u) <==> exists s :: Enabled(s) && SaveKey(s) == k
  {
    EncodeAdds(u, k);
    if SavedKey(k) {
      SavedKeyNamesSetting(k);
    } else {
      forall s | Enabled(s)
        ensures SaveKey(s) != k
      {
        SaveKeyIsSaved(s);
      }
    }
  }

  /** The member LoadSettings reads the SHaRC clear flag from is written by no step. */
  lemma EnableClearNotSaved()
    ensures !SavedKey(KeyEnableClear)
  {
  }

  /** SaveSettings never writes the member LoadSettings reads the SHaRC clear flag from. */
  lemma {:induction false} EncodeOmitsEnableClear(u: UIData)
    ensures KeyEnableClear !in Encode(u)
  {
    EnableClearNotSaved();
    EncodeAdds(u, KeyEnableClear);
  }

  /** The generic step loads each of its settings by the reference rule. */
  lemma {:induction false} MergeGenericLoads(u: UIData, root: Document, c: Coercions, x: GenericSetting)
    ensures GetGeneric(MergeGeneric(u, root, c), x) == Loaded(root, OfGeneric(x), GetGeneric(u, x), c)
  {
    match x
    case EnableVSync =>
    case EnableJitter =>
    case EnableRussianRoulette =>
    case EnableTransmission =>
    case EnableAnimations =>
  }

  /** The generic step leaves every other setting alone. */
  lemma {:induction false} MergeGenericKeeps(u: UIData, root: Document, c: Coercions, s: Setting)
    requires !s.OfGeneric?
    ensures Get(MergeGeneric(u, root, c), s) == Get(u, s)
  {
    match s
    case OfPathTracing(_) =>
    case OfNrc(_) =>
    case OfSharc(_) =>
    case OfLighting(_) =>
    case OfToneMapping(_) =>
  }

  /** The path tracing step loads each of its settings by the reference rule. */
  lemma {:induction false} MergePathTracingLoads(u: UIData, root: Document, c: Coercions, x: PathTracingSetting)
    ensures GetPathTracing(MergePathTracing(u, root, c), x) == Loaded(root, OfPathTracing(x), GetPathTracing(u, x), c)
  {
    match x
    case TechSelectionSetting =>
    case DenoiserSelectionSetting =>
    case BouncesMax =>
    case SamplesPerPixel =>
    case ExposureAdjustment =>
    case RoughnessMin =>
    case RoughnessMax =>
    case MetalnessMin =>
    case MetalnessMax =>
    case PtDebugOutput =>
  }

  /** The path tracing step leaves every other setting alone. */
  lemma {:induction false} MergePathTracingKeeps(u: UIData, root: Document, c: Coercions, s: Setting)
    requires !s.OfPathTracing?
    ensures Get(MergePathTracing(u, root, c), s) == Get(u, s)
  {
    match s
    case OfGeneric(_) =>
    case OfNrc(_) =>
    case OfSharc(_) =>
    case OfLighting(_) =>
    case OfToneMapping(_) =>
  }

  /** The NRC step loads each of its settings by the reference rule. */
  lemma {:induction false} MergeNrcLoads(u: UIData, root: Document, c: Coercions, x: NrcSetting)
    ensures GetNrc(MergeNrc(u, root, c), x) == Loaded(root, OfNrc(x), GetNrc(u, x), c)
  {
    match x
    case NrcTrainCache =>
    case NrcMaxTrainingBounces =>
    case NrcLearnIrradiance =>
    case NrcIncludeDirectIllumination =>
    case NrcSkipDeltaVertices =>
    case NrcSelfTrainingAttenuation =>
    case NrcTerminationHeuristicThreshold =>
    case NrcNumTrainingIterations =>
    case NrcProportionPrimarySegmentsToTrainOn =>
    case NrcProportionTertiaryPlusSegmentsToTrainOn =>
    case NrcProportionUnbiased =>
    case NrcProportionUnbiasedToSelfTrain =>
    case NrcMaxAverageRadiance =>
    case NrcResolveMode =>
  }

  /** The NRC step leaves every other setting alone. */
  lemma {:induction false} MergeNrcKeeps(u: UIData, root: Document, c: Coercions, s: Setting)
    requires !s.OfNrc?
    ensures Get(MergeNrc(u, root, c), s) == Get(u, s)
  {
    match s
    case OfGeneric(_) =>
    case OfPathTracing(_) =>
    case OfSharc(_) =>
    case OfLighting(_) =>
    case OfToneMapping(_) =>
  }

  /** The SHaRC step loads each of its settings by the reference rule. */
  lemma {:induction false} MergeSharcLoads(u: UIData, root: Document, c: Coercions, x: SharcSetting)
    ensures GetSharc(MergeSharc(u, root, c), x) == Loaded(root, OfSharc(x), GetSharc(u, x), c)
  {
    match x
    case SharcEnableClear =>
    case SharcEnableUpdate =>
    case SharcEnableResolve =>
    case SharcEnableAntiFireflyFilter =>
    case SharcUpdateViewCamera =>
    case SharcEnableMaterialDemodulation =>
    case SharcEnableDebug =>
    case SharcAccumulationFrameNum =>
    case SharcStaleFrameFrameNum =>
    case SharcDownscaleFactor =>
    case SharcSceneScale =>
    case SharcRoughnessThreshold =>
  }

  /** The SHaRC step leaves every other setting alone. */
  lemma {:induction false} MergeSharcKeeps(u: UIData, root: Document, c: Coercions, s: Setting)
    requires !s.OfSharc?
    ensures Get(MergeSharc(u, root, c), s) == Get(u, s)
  {
    match s
    case OfGeneric(_) =>
    case OfPathTracing(_) =>
    case OfNrc(_) =>
    case OfLighting(_) =>
    case OfToneMapping(_) =>
  }

  /** The lighting step loads each of its settings by the reference rule. */
  lemma {:induction false} MergeLightingLoads(u: UIData, root: Document, c: Coercions, x: LightingSetting)
    ensures GetLighting(MergeLighting(u, root, c), x) == Loaded(root, OfLighting(x), GetLighting(u, x), c)
  {
    match x
    case EnableSky =>
    case SkyColor =>
    case SkyIntensity =>
    case EnableEmissives =>
    case EnableLighting =>
  }

  /** The lighting step leaves every other setting alone. */
  lemma {:induction false} MergeLightingKeeps(u: UIData, root: Document, c: Coercions, s: Setting)
    requires !s.OfLighting?
    ensures Get(MergeLighting(u, root, c), s) == Get(u, s)
  {
    match s
    case OfGeneric(_) =>
    case OfPathTracing(_) =>
    case OfNrc(_) =>
    case OfSharc(_) =>
    case OfToneMapping(_) =>
  }

  /** The tone mapping step loads each of its settings by the reference rule. */
  lemma {:induction false} MergeToneMappingLoads(u: UIData, root: Document, c: Coercions, x: ToneMappingSetting)
    ensures GetToneMapping(MergeToneMapping(u, root, c), x) == Loaded(root, OfToneMapping(x), GetToneMapping(u, x), c)
  {
    match x
    case ToneMappingOperatorSetting =>
    case ToneMappingClamp =>
  }

  /** The tone mapping step leaves every other setting alone. */
  lemma {:induction false} MergeToneMappingKeeps(u: UIData, root: Document, c: Coercions, s: Setting)
    requires !s.OfToneMapping?
    ensures Get(MergeToneMapping(u, root, c), s) == Get(u, s)
  {
    match s
    case OfGeneric(_) =>
    case OfPathTracing(_) =>
    case OfNrc(_) =>
    case OfSharc(_) =>
    case OfLighting(_) =>
  }

  /** Each setting is loaded by the reference rule from the key LoadSettings reads it under. */
  lemma {:induction false} MergeFollowsTable(u: UIData, root: Document, c: Coercions, s: Setting)
    requires Enabled(s)
    ensures Get(Merge(u, root, c), s) == Loaded(root, s, Get(u, s), c)
  {
    var u0 := MergeGeneric(u, root, c);
    var u1 := MergePathTracing(u0, root, c);
    var u2 := MergeNrc(u1, root, c);
    var u3 := MergeSharc(u2, root, c);
    var u4 := MergeLighting(u3, root, c);
    var u5 := MergeToneMapping(u4, root, c);
    assert Merge(u, root, c) == u5;
    match s
    case OfGeneric(x) =>
      MergeGenericLoads(u, root, c, x);
      MergePathTracingKeeps(u0, root, c, s);
      MergeNrcKeeps(u1, root, c, s);
      MergeSharcKeeps(u2, root, c, s);
      MergeLightingKeeps(u3, root, c, s);
      MergeToneMappingKeeps(u4, root, c, s);
    case OfPathTracing(x) =>
      MergeGenericKeeps(u, root, c, s);
      MergePathTracingLoads(u0, root, c, x);
      MergeNrcKeeps(u1, root, c, s);
      MergeSharcKeeps(u2, root, c, s);
      MergeLightingKeeps(u3, root, c, s);
      MergeToneMappingKeeps(u4, root, c, s);
    case OfNrc(x) =>
      MergeGenericKeeps(u, root, c, s);
      MergePathTracingKeeps(u0, root, c, s);
      MergeNrcLoads(u1, root, c, x);
      MergeSharcKeeps(u2, root, c, s);
      MergeLightingKeeps(u3, root, c, s);
      MergeToneMappingKeeps(u4, root, c, s);
    case OfSharc(x) =>
      MergeGenericKeeps(u, root, c, s);
      MergePathTracingKeeps(u0, root, c, s);
      MergeNrcKeeps(u1, root, c, s);
      MergeSharcLoads(u2, root, c, x);
      MergeLightingKeeps(u3, root, c, s);
      MergeToneMappingKeeps(u4, root, c, s);
    case OfLighting(x) =>
      MergeGenericKeeps(u, root, c, s);
      MergePathTracingKeeps(u0, root, c, s);
      MergeNrcKeeps(u1, root, c, s);
      MergeSharcKeeps(u2, root, c, s);
      MergeLightingLoads(u3, root, c, x);
      MergeToneMappingKeeps(u4, root, c, s);
    case OfToneMapping(x) =>
      MergeGenericKeeps(u, root, c, s);
      MergePathTracingKeeps(u0, root, c, s);
      MergeNrcKeeps(u1, root, c, s);
      MergeSharcKeeps(u2, root, c, s);
      MergeLightingKeeps(u3, root, c, s);
      MergeToneMappingLoads(u4, root, c, x);
  }
}
