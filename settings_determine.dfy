/**
 * The settings table covers the record: two records that agree on every
 * persisted setting and on every field the codec never touches are equal.
 */
module SettingsDetermine {
  import opened PathtracerUi
  import opened SettingSaveLoad
  import SettingsProperties


  /** Two records agree on every compiled-in setting. */
  ghost predicate SameSettings(a: UIData, b: UIData)
  {
    forall s :: Enabled(s) ==> Get(a, s) == Get(b, s)
  }

  lemma SameSettingsAt(a: UIData, b: UIData, s: Setting)
    requires SameSettings(a, b) && Enabled(s)
    ensures Get(a, s) == Get(b, s)
  {
  }

  /** Two records agree on every generic setting. */
  predicate SameGenericSettings(a: UIData, b: UIData)
  {
    Get(a, OfGeneric(EnableVSync)) == Get(b, OfGeneric(EnableVSync))
    && Get(a, OfGeneric(EnableJitter)) == Get(b, OfGeneric(EnableJitter))
    && Get(a, OfGeneric(EnableRussianRoulette)) == Get(b, OfGeneric(EnableRussianRoulette))
    && Get(a, OfGeneric(EnableTransmission)) == Get(b, OfGeneric(EnableTransmission))
    && Get(a, OfGeneric(EnableAnimations)) == Get(b, OfGeneric(EnableAnimations))
  }

  lemma {:induction false} SameSettingsHasGeneric(a: UIData, b: UIData)
    requires SameSettings(a, b)
    ensures SameGenericSettings(a, b)
  {
    SameSettingsAt(a, b, OfGeneric(EnableVSync));
    SameSettingsAt(a, b, OfGeneric(EnableJitter));
    SameSettingsAt(a, b, OfGeneric(EnableRussianRoulette));
    SameSettingsAt(a, b, OfGeneric(EnableTransmission));
    SameSettingsAt(a, b, OfGeneric(EnableAnimations));
  }

  /** Agreeing on these settings fixes the fields they are stored in. */
  lemma GenericSettingsDetermineFields(a: UIData, b: UIData)
    requires SameGenericSettings(a, b)
    ensures a.enableVSync == b.enableVSync
      && a.enableJitter == b.enableJitter
      && a.enableRussianRoulette == b.enableRussianRoulette
      && a.enableTransmission == b.enableTransmission
      && a.enableAnimations == b.enableAnimations
  {
  }

  /** Two records agree on the path tracing settings TechSelectionSetting, DenoiserSelectionSetting, BouncesMax, SamplesPerPixel, ExposureAdjustment, RoughnessMin, RoughnessMax. */
  predicate SamePathTracingPart1Settings(a: UIData, b: UIData)
  {
    Get(a, OfPathTracing(TechSelectionSetting)) == Get(b, OfPathTracing(TechSelectionSetting))
    && Get(a, OfPathTracing(DenoiserSelectionSetting)) == Get(b, OfPathTracing(DenoiserSelectionSetting))
    && Get(a, OfPathTracing(BouncesMax)) == Get(b, OfPathTracing(BouncesMax))
    && Get(a, OfPathTracing(SamplesPerPixel)) == Get(b, OfPathTracing(SamplesPerPixel))
    && Get(a, OfPathTracing(ExposureAdjustment)) == Get(b, OfPathTracing(ExposureAdjustment))
    && Get(a, OfPathTracing(RoughnessMin)) == Get(b, OfPathTracing(RoughnessMin))
    && Get(a, OfPathTracing(RoughnessMax)) == Get(b, OfPathTracing(RoughnessMax))
  }

  lemma {:induction false} SameSettingsHasPathTracingPart1(a: UIData, b: UIData)
    requires SameSettings(a, b)
    ensures SamePathTracingPart1Settings(a, b)
  {
    SameSettingsAt(a, b, OfPathTracing(TechSelectionSetting));
    SameSettingsAt(a, b, OfPathTracing(DenoiserSelectionSetting));
    SameSettingsAt(a, b, OfPathTracing(BouncesMax));
    SameSettingsAt(a, b, OfPathTracing(SamplesPerPixel));
    SameSettingsAt(a, b, OfPathTracing(ExposureAdjustment));
    SameSettingsAt(a, b, OfPathTracing(RoughnessMin));
    SameSettingsAt(a, b, OfPathTracing(RoughnessMax));
  }

  /** Agreeing on these settings fixes the fields they are stored in. */
  lemma PathTracingPart1SettingsDetermineFields(a: UIData, b: UIData)
    requires SamePathTracingPart1Settings(a, b)
    ensures a.techSelection == b.techSelection
      && a.denoiserSelection == b.denoiserSelection
      && a.bouncesMax == b.bouncesMax
      && a.samplesPerPixel == b.samplesPerPixel
      && a.exposureAdjustment == b.exposureAdjustment
      && a.roughnessMin == b.roughnessMin
      && a.roughnessMax == b.roughnessMax
  {
  }

  /** Two records agree on the path tracing settings MetalnessMin, MetalnessMax, PtDebugOutput. */
  predicate SamePathTracingPart2Settings(a: UIData, b: UIData)
  {
    Get(a, OfPathTracing(MetalnessMin)) == Get(b, OfPathTracing(MetalnessMin))
    && Get(a, OfPathTracing(MetalnessMax)) == Get(b, OfPathTracing(MetalnessMax))
    && Get(a, OfPathTracing(PtDebugOutput)) == Get(b, OfPathTracing(PtDebugOutput))
  }

  lemma {:induction false} SameSettingsHasPathTracingPart2(a: UIData, b: UIData)
    requires SameSettings(a, b)
    ensures SamePathTracingPart2Settings(a, b)
  {
    SameSettingsAt(a, b, OfPathTracing(MetalnessMin));
    SameSettingsAt(a, b, OfPathTracing(MetalnessMax));
    SameSettingsAt(a, b, OfPathTracing(PtDebugOutput));
  }

  /** Agreeing on these settings fixes the fields they are stored in. */
  lemma PathTracingPart2SettingsDetermineFields(a: UIData, b: UIData)
    requires SamePathTracingPart2Settings(a, b)
    ensures a.metalnessMin == b.metalnessMin
      && a.metalnessMax == b.metalnessMax
      && a.ptDebugOutput == b.ptDebugOutput
  {
  }

  /** Two records agree on the NRC settings NrcTrainCache, NrcMaxTrainingBounces, NrcLearnIrradiance, NrcIncludeDirectIllumination, NrcSkipDeltaVertices, NrcSelfTrainingAttenuation, NrcTerminationHeuristicThreshold. */
  predicate SameNrcPart1Settings(a: UIData, b: UIData)
  {
    Get(a, OfNrc(NrcTrainCache)) == Get(b, OfNrc(NrcTrainCache))
    && Get(a, OfNrc(NrcMaxTrainingBounces)) == Get(b, OfNrc(NrcMaxTrainingBounces))
    && Get(a, OfNrc(NrcLearnIrradiance)) == Get(b, OfNrc(NrcLearnIrradiance))
    && Get(a, OfNrc(NrcIncludeDirectIllumination)) == Get(b, OfNrc(NrcIncludeDirectIllumination))
    && Get(a, OfNrc(NrcSkipDeltaVertices)) == Get(b, OfNrc(NrcSkipDeltaVertices))
    && Get(a, OfNrc(NrcSelfTrainingAttenuation)) == Get(b, OfNrc(NrcSelfTrainingAttenuation))
    && Get(a, OfNrc(NrcTerminationHeuristicThreshold)) == Get(b, OfNrc(NrcTerminationHeuristicThreshold))
  }

  lemma {:induction false} SameSettingsHasNrcPart1(a: UIData, b: UIData)
    requires SameSettings(a, b)
    ensures SameNrcPart1Settings(a, b)
  {
    SameSettingsAt(a, b, OfNrc(NrcTrainCache));
    SameSettingsAt(a, b, OfNrc(NrcMaxTrainingBounces));
    SameSettingsAt(a, b, OfNrc(NrcLearnIrradiance));
    SameSettingsAt(a, b, OfNrc(NrcIncludeDirectIllumination));
    SameSettingsAt(a, b, OfNrc(NrcSkipDeltaVertices));
    SameSettingsAt(a, b, OfNrc(NrcSelfTrainingAttenuation));
    SameSettingsAt(a, b, OfNrc(NrcTerminationHeuristicThreshold));
  }

  /** Agreeing on these settings fixes the fields they are stored in. */
  lemma NrcPart1SettingsDetermineFields(a: UIData, b: UIData)
    requires SameNrcPart1Settings(a, b)
    ensures a.nrcTrainCache == b.nrcTrainCache
      && a.nrcMaxTrainingBounces == b.nrcMaxTrainingBounces
      && a.nrcLearnIrradiance == b.nrcLearnIrradiance
      && a.nrcIncludeDirectIllumination == b.nrcIncludeDirectIllumination
      && a.nrcSkipDeltaVertices == b.nrcSkipDeltaVertices
      && a.nrcSelfTrainingAttenuation == b.nrcSelfTrainingAttenuation
      && a.nrcTerminationHeuristicThreshold == b.nrcTerminationHeuristicThreshold
  {
  }

  /** Two records agree on the NRC settings NrcNumTrainingIterations, NrcProportionPrimarySegmentsToTrainOn, NrcProportionTertiaryPlusSegmentsToTrainOn, NrcProportionUnbiased, NrcProportionUnbiasedToSelfTrain, NrcMaxAverageRadiance, NrcResolveMode. */
  predicate SameNrcPart2Settings(a: UIData, b: UIData)
  {
    Get(a, OfNrc(NrcNumTrainingIterations)) == Get(b, OfNrc(NrcNumTrainingIterations))
    && Get(a, OfNrc(NrcProportionPrimarySegmentsToTrainOn)) == Get(b, OfNrc(NrcProportionPrimarySegmentsToTrainOn))
    && Get(a, OfNrc(NrcProportionTertiaryPlusSegmentsToTrainOn)) == Get(b, OfNrc(NrcProportionTertiaryPlusSegmentsToTrainOn))
    && Get(a, OfNrc(NrcProportionUnbiased)) == Get(b, OfNrc(NrcProportionUnbiased))
    && Get(a, OfNrc(NrcProportionUnbiasedToSelfTrain)) == Get(b, OfNrc(NrcProportionUnbiasedToSelfTrain))
    && Get(a, OfNrc(NrcMaxAverageRadiance)) == Get(b, OfNrc(NrcMaxAverageRadiance))
    && Get(a, OfNrc(NrcResolveMode)) == Get(b, OfNrc(NrcResolveMode))
  }

  lemma {:induction false} SameSettingsHasNrcPart2(a: UIData, b: UIData)
    requires SameSettings(a, b)
    ensures SameNrcPart2Settings(a, b)
  {
    SameSettingsAt(a, b, OfNrc(NrcNumTrainingIterations));
    SameSettingsAt(a, b, OfNrc(NrcProportionPrimarySegmentsToTrainOn));
    SameSettingsAt(a, b, OfNrc(NrcProportionTertiaryPlusSegmentsToTrainOn));
    SameSettingsAt(a, b, OfNrc(NrcProportionUnbiased));
    SameSettingsAt(a, b, OfNrc(NrcProportionUnbiasedToSelfTrain));
    SameSettingsAt(a, b, OfNrc(NrcMaxAverageRadiance));
    SameSettingsAt(a, b, OfNrc(NrcResolveMode));
  }

  /** Agreeing on these settings fixes the fields they are stored in. */
  lemma NrcPart2SettingsDetermineFields(a: UIData, b: UIData)
    requires SameNrcPart2Settings(a, b)
    ensures a.nrcNumTrainingIterations == b.nrcNumTrainingIterations
      && a.nrcProportionPrimarySegmentsToTrainOn == b.nrcProportionPrimarySegmentsToTrainOn
      && a.nrcProportionTertiaryPlusSegmentsToTrainOn == b.nrcProportionTertiaryPlusSegmentsToTrainOn
      && a.nrcProportionUnbiased == b.nrcProportionUnbiased
      && a.nrcProportionUnbiasedToSelfTrain == b.nrcProportionUnbiasedToSelfTrain
      && a.nrcMaxAverageRadiance == b.nrcMaxAverageRadiance
      && a.nrcResolveMode == b.nrcResolveMode
  {
  }

  /** Two records agree on the SHaRC settings SharcEnableClear, SharcEnableUpdate, SharcEnableResolve, SharcEnableAntiFireflyFilter, SharcUpdateViewCamera, SharcEnableMaterialDemodulation, SharcEnableDebug. */
  predicate SameSharcPart1Settings(a: UIData, b: UIData)
  {
    Get(a, OfSharc(SharcEnableClear)) == Get(b, OfSharc(SharcEnableClear))
    && Get(a, OfSharc(SharcEnableUpdate)) == Get(b, OfSharc(SharcEnableUpdate))
    && Get(a, OfSharc(SharcEnableResolve)) == Get(b, OfSharc(SharcEnableResolve))
    && Get(a, OfSharc(SharcEnableAntiFireflyFilter)) == Get(b, OfSharc(SharcEnableAntiFireflyFilter))
    && Get(a, OfSharc(SharcUpdateViewCamera)) == Get(b, OfSharc(SharcUpdateViewCamera))
    && Get(a, OfSharc(SharcEnableMaterialDemodulation)) == Get(b, OfSharc(SharcEnableMaterialDemodulation))
    && Get(a, OfSharc(SharcEnableDebug)) == Get(b, OfSharc(SharcEnableDebug))
  }

  lemma {:induction false} SameSettingsHasSharcPart1(a: UIData, b: UIData)
    requires SameSettings(a, b)
    ensures SameSharcPart1Settings(a, b)
  {
    SameSettingsAt(a, b, OfSharc(SharcEnableClear));
    SameSettingsAt(a, b, OfSharc(SharcEnableUpdate));
    SameSettingsAt(a, b, OfSharc(SharcEnableResolve));
    SameSettingsAt(a, b, OfSharc(SharcEnableAntiFireflyFilter));
    SameSettingsAt(a, b, OfSharc(SharcUpdateViewCamera));
    SameSettingsAt(a, b, OfSharc(SharcEnableMaterialDemodulation));
    SameSettingsAt(a, b, OfSharc(SharcEnableDebug));
  }

  /** Agreeing on these settings fixes the fields they are stored in. */
  lemma SharcPart1SettingsDetermineFields(a: UIData, b: UIData)
    requires SameSharcPart1Settings(a, b)
    ensures a.sharcEnableClear == b.sharcEnableClear
      && a.sharcEnableUpdate == b.sharcEnableUpdate
      && a.sharcEnableResolve == b.sharcEnableResolve
      && a.sharcEnableAntiFireflyFilter == b.sharcEnableAntiFireflyFilter
      && a.sharcUpdateViewCamera == b.sharcUpdateViewCamera
      && a.sharcEnableMaterialDemodulation == b.sharcEnableMaterialDemodulation
      && a.sharcEnableDebug == b.sharcEnableDebug
  {
  }

  /** Two records agree on the SHaRC settings SharcAccumulationFrameNum, SharcStaleFrameFrameNum, SharcDownscaleFactor, SharcSceneScale, SharcRoughnessThreshold. */
  predicate SameSharcPart2Settings(a: UIData, b: UIData)
  {
    Get(a, OfSharc(SharcAccumulationFrameNum)) == Get(b, OfSharc(SharcAccumulationFrameNum))
    && Get(a, OfSharc(SharcStaleFrameFrameNum)) == Get(b, OfSharc(SharcStaleFrameFrameNum))
    && Get(a, OfSharc(SharcDownscaleFactor)) == Get(b, OfSharc(SharcDownscaleFactor))
    && Get(a, OfSharc(SharcSceneScale)) == Get(b, OfSharc(SharcSceneScale))
    && Get(a, OfSharc(SharcRoughnessThreshold)) == Get(b, OfSharc(SharcRoughnessThreshold))
  }

  lemma {:induction false} SameSettingsHasSharcPart2(a: UIData, b: UIData)
    requires SameSettings(a, b)
    ensures SameSharcPart2Settings(a, b)
  {
    SameSettingsAt(a, b, OfSharc(SharcAccumulationFrameNum));
    SameSettingsAt(a, b, OfSharc(SharcStaleFrameFrameNum));
    SameSettingsAt(a, b, OfSharc(SharcDownscaleFactor));
    SameSettingsAt(a, b, OfSharc(SharcSceneScale));
    SameSettingsAt(a, b, OfSharc(SharcRoughnessThreshold));
  }

  /** Agreeing on these settings fixes the fields they are stored in. */
  lemma SharcPart2SettingsDetermineFields(a: UIData, b: UIData)
    requires SameSharcPart2Settings(a, b)
    ensures a.sharcAccumulationFrameNum == b.sharcAccumulationFrameNum
      && a.sharcStaleFrameFrameNum == b.sharcStaleFrameFrameNum
      && a.sharcDownscaleFactor == b.sharcDownscaleFactor
      && a.sharcSceneScale == b.sharcSceneScale
      && a.sharcRoughnessThreshold == b.sharcRoughnessThreshold
  {
  }

  /** Two records agree on every lighting setting. */
  predicate SameLightingSettings(a: UIData, b: UIData)
  {
    Get(a, OfLighting(EnableSky)) == Get(b, OfLighting(EnableSky))
    && Get(a, OfLighting(SkyColor)) == Get(b, OfLighting(SkyColor))
    && Get(a, OfLighting(SkyIntensity)) == Get(b, OfLighting(SkyIntensity))
    && Get(a, OfLighting(EnableEmissives)) == Get(b, OfLighting(EnableEmissives))
    && Get(a, OfLighting(EnableLighting)) == Get(b, OfLighting(EnableLighting))
  }

  lemma {:induction false} SameSettingsHasLighting(a: UIData, b: UIData)
    requires SameSettings(a, b)
    ensures SameLightingSettings(a, b)
  {
    SameSettingsAt(a, b, OfLighting(EnableSky));
    SameSettingsAt(a, b, OfLighting(SkyColor));
    SameSettingsAt(a, b, OfLighting(SkyIntensity));
    SameSettingsAt(a, b, OfLighting(EnableEmissives));
    SameSettingsAt(a, b, OfLighting(EnableLighting));
  }

  /** Agreeing on these settings fixes the fields they are stored in. */
  lemma LightingSettingsDetermineFields(a: UIData, b: UIData)
    requires SameLightingSettings(a, b)
    ensures a.enableSky == b.enableSky
      && a.skyColor == b.skyColor
      && a.skyIntensity == b.skyIntensity
      && a.enableEmissives == b.enableEmissives
      && a.enableLighting == b.enableLighting
  {
  }

  /** Two records agree on every tone mapping setting. */
  predicate SameToneMappingSettings(a: UIData, b: UIData)
  {
    Get(a, OfToneMapping(ToneMappingOperatorSetting)) == Get(b, OfToneMapping(ToneMappingOperatorSetting))
    && Get(a, OfToneMapping(ToneMappingClamp)) == Get(b, OfToneMapping(ToneMappingClamp))
  }

  lemma {:induction false} SameSettingsHasToneMapping(a: UIData, b: UIData)
    requires SameSettings(a, b)
    ensures SameToneMappingSettings(a, b)
  {
    SameSettingsAt(a, b, OfToneMapping(ToneMappingOperatorSetting));
    SameSettingsAt(a, b, OfToneMapping(ToneMappingClamp));
  }

  /** Agreeing on these settings fixes the fields they are stored in. */
  lemma ToneMappingSettingsDetermineFields(a: UIData, b: UIData)
    requires SameToneMappingSettings(a, b)
    ensures a.toneMappingOperator == b.toneMappingOperator
      && a.toneMappingClamp == b.toneMappingClamp
  {
  }

  /**
   * The settings table covers the record: the persisted settings together
   * with the fields the codec never touches determine the whole record.
   */
  lemma {:induction false} SettingsDetermineRecord(a: UIData, b: UIData)
    requires SameSettings(a, b) && SettingsProperties.SameUnsaved(a, b)
    ensures a == b
  {
    SameSettingsHasGeneric(a, b);
    GenericSettingsDetermineFields(a, b);
    SameSettingsHasPathTracingPart1(a, b);
    PathTracingPart1SettingsDetermineFields(a, b);
    SameSettingsHasPathTracingPart2(a, b);
    PathTracingPart2SettingsDetermineFields(a, b);
    SameSettingsHasNrcPart1(a, b);
    NrcPart1SettingsDetermineFields(a, b);
    SameSettingsHasNrcPart2(a, b);
    NrcPart2SettingsDetermineFields(a, b);
    SameSettingsHasSharcPart1(a, b);
    SharcPart1SettingsDetermineFields(a, b);
    SameSettingsHasSharcPart2(a, b);
    SharcPart2SettingsDetermineFields(a, b);
    SameSettingsHasLighting(a, b);
    LightingSettingsDetermineFields(a, b);
    SameSettingsHasToneMapping(a, b);
    ToneMappingSettingsDetermineFields(a, b);
  }
}
