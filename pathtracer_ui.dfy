/**
 * The renderer's control-panel settings record `UIData`, its field defaults,
 * the selection enums persisted by ordinal, and the compile-time feature
 * flags that decide which enumerators and field groups exist.
 */
module PathtracerUi {
  import opened Numerics
  import Maybe

  const ENABLE_NRC: bool := true
  const ENABLE_SHARC: bool := true
  const ENABLE_NRD: bool := true

  datatype PTDebugOutputType =
    | None | DiffuseReflectance | WorldSpaceNormals | WorldSpacePosition
    | Barycentrics | HitT | InstanceID | Emissives | BounceHeatmap
  {
    function Ordinal(): Uint32
    {
      match this
      case None => 0
      case DiffuseReflectance => 1
      case WorldSpaceNormals => 2
      case WorldSpacePosition => 3
      case Barycentrics => 4
      case HitT => 5
      case InstanceID => 6
      case Emissives => 7
      case BounceHeatmap => 8
    }

    /** The enumerator with ordinal `n`, if `n` is one of the declared values. */
    static function FromOrdinal(n: Uint32): (r: Maybe.Option<PTDebugOutputType>)
      ensures r.Some? ==> r.value.Ordinal() == n
    {
      if n == 0 then Maybe.Some(PTDebugOutputType.None)
      else if n == 1 then Maybe.Some(DiffuseReflectance)
      else if n == 2 then Maybe.Some(WorldSpaceNormals)
      else if n == 3 then Maybe.Some(WorldSpacePosition)
      else if n == 4 then Maybe.Some(Barycentrics)
      else if n == 5 then Maybe.Some(HitT)
      else if n == 6 then Maybe.Some(InstanceID)
      else if n == 7 then Maybe.Some(Emissives)
      else if n == 8 then Maybe.Some(BounceHeatmap)
      else Maybe.None
    }
  }

  datatype TechSelection = None | Nrc | Sharc
  {
    function Ordinal(): Uint32
    {
      match this
      case None => 0
      case Nrc => 1
      case Sharc => 2
    }

    /** Whether the enumerator is compiled in: Nrc and Sharc are feature-gated. */
    predicate Declared()
    {
      match this
      case None => true
      case Nrc => ENABLE_NRC
      case Sharc => ENABLE_SHARC
    }

    static function FromOrdinal(n: Uint32): (r: Maybe.Option<TechSelection>)
      ensures r.Some? ==> r.value.Ordinal() == n && r.value.Declared()
    {
      if n == 0 then Maybe.Some(TechSelection.None)
      else if n == 1 && ENABLE_NRC then Maybe.Some(Nrc)
      else if n == 2 && ENABLE_SHARC then Maybe.Some(Sharc)
      else Maybe.None
    }
  }

  datatype DenoiserSelection = None | Accumulation | Nrd
  {
    function Ordinal(): Uint32
    {
      match this
      case None => 0
      case Accumulation => 1
      case Nrd => 2
    }

    /** Whether the enumerator is compiled in: Nrd is feature-gated. */
    predicate Declared()
    {
      match this
      case Nrd => ENABLE_NRD
      case _ => true
    }

    static function FromOrdinal(n: Uint32): (r: Maybe.Option<DenoiserSelection>)
      ensures r.Some? ==> r.value.Ordinal() == n && r.value.Declared()
    {
      if n == 0 then Maybe.Some(DenoiserSelection.None)
      else if n == 1 then Maybe.Some(Accumulation)
      else if n == 2 && ENABLE_NRD then Maybe.Some(Nrd)
      else Maybe.None
    }
  }

  datatype ToneMappingOperator = Linear | Reinhard
  {
    function Ordinal(): Uint32
    {
      match this
      case Linear => 0
      case Reinhard => 1
    }

    static function FromOrdinal(n: Uint32): (r: Maybe.Option<ToneMappingOperator>)
      ensures r.Some? ==> r.value.Ordinal() == n
    {
      if n == 0 then Maybe.Some(Linear) else if n == 1 then Maybe.Some(Reinhard) else Maybe.None
    }
  }

  /**
   * The sky colour as the codec sees it: four float slots, indexed 0 to 3.
   * The record declares only three components, so slot 3 lies past the end
   * of the vector; the model keeps it as a slot of its own.
   */
  datatype ColorSlots = ColorSlots(s0: Float32, s1: Float32, s2: Float32, s3: Float32)

  /**
   * A C++ `bool` member of the settings record. The wrapper has exactly the
   * two values of `bool`; it keeps the record's many boolean members out of
   * the prover's case splits when whole records are compared.
   */
  datatype Flag = Flag(on: bool)

  /**
   * The settings record. Enum fields hold the raw `uint32_t` ordinal, since a
   * C++ `enum class` variable can hold any value of its underlying type. The
   * NRC and SHaRC groups are present because both feature flags are on.
   */
  datatype UIData = UIData(
    showUI: Flag,
    enableVSync: Flag,
    enableAnimations: Flag,
    enableJitter: Flag,
    enableTransmission: Flag,
    enableBackFaceCull: Flag,
    bouncesMax: Int32,
    accumulatedFrames: Int32,
    accumulatedFramesMax: Int32,
    exposureAdjustment: Float32,
    roughnessMin: Float32,
    roughnessMax: Float32,
    metalnessMin: Float32,
    metalnessMax: Float32,
    enableSky: Flag,
    enableEmissives: Flag,
    enableLighting: Flag,
    enableAbsorbtion: Flag,
    enableTransparentShadows: Flag,
    enableSoftShadows: Flag,
    throughputThreshold: Float32,
    enableRussianRoulette: Flag,
    skyColor: ColorSlots,
    skyIntensity: Float32,
    samplesPerPixel: Int32,
    targetLight: Int32,
    enableTonemapping: Flag,
    techSelection: Uint32,
    denoiserSelection: Uint32,
    enableDenoiser: Flag,
    toneMappingOperator: Uint32,
    toneMappingClamp: Flag,
    // NRC group
    nrcLearnIrradiance: Flag,
    nrcIncludeDirectIllumination: Flag,
    nrcTrainCache: Flag,
    nrcMaxTrainingBounces: Int32,
    nrcCalculateTrainingLoss: Flag,
    nrcMaxAverageRadiance: Float32,
    nrcResolveMode: Uint32,
    nrcProportionPrimarySegmentsToTrainOn: Float32,
    nrcProportionTertiaryPlusSegmentsToTrainOn: Float32,
    nrcProportionUnbiasedToSelfTrain: Float32,
    nrcProportionUnbiased: Float32,
    nrcSelfTrainingAttenuation: Float32,
    nrcTrainingWidth: Uint32,
    nrcTrainingHeight: Uint32,
    nrcSkipDeltaVertices: Flag,
    nrcTerminationHeuristicThreshold: Float32,
    nrcNumTrainingIterations: Int32,
    // SHaRC group
    sharcEnableClear: Flag,
    sharcEnableUpdate: Flag,
    sharcEnableResolve: Flag,
    sharcEnableAntiFireflyFilter: Flag,
    sharcUpdateViewCamera: Flag,
    sharcEnableMaterialDemodulation: Flag,
    sharcEnableDebug: Flag,
    sharcDownscaleFactor: Int32,
    sharcSceneScale: Float32,
    sharcAccumulationFrameNum: Int32,
    sharcStaleFrameFrameNum: Int32,
    sharcRoughnessThreshold: Float32,
    ptDebugOutput: Uint32
  )

  // Float initialisers of the record, as single-precision bit patterns.
  const F_0_01: Float32 := Float32(0x3C23_D70A)
  const F_0_02: Float32 := Float32(0x3CA3_D70A)
  const F_0_0625: Float32 := Float32(0x3D80_0000)  // 1.0f / 16.0f
  const F_0_4: Float32 := Float32(0x3ECC_CCCD)
  const F_0_5: Float32 := Float32(0x3F00_0000)
  const F_0_75: Float32 := Float32(0x3F40_0000)
  const F_8: Float32 := Float32(0x4100_0000)
  const F_50: Float32 := Float32(0x4248_0000)

  /**
   * A freshly constructed record. Two values are not fixed by the record's
   * own declaration and are parameters: the fourth sky-colour slot (past
   * the end of the declared three-component vector) and the ordinal of
   * `NrcResolveMode::AddQueryResultToOutput` (declared by the NRC SDK).
   */
  function Defaults(skyColorSlot3: Float32, addQueryResultToOutput: Uint32): UIData
  {
    UIData(
      showUI := Flag(true),
      enableVSync := Flag(false),
      enableAnimations := Flag(false),
      enableJitter := Flag(true),
      enableTransmission := Flag(false),
      enableBackFaceCull := Flag(true),
      bouncesMax := 8,
      accumulatedFrames := 1,
      accumulatedFramesMax := 128,
      exposureAdjustment := ZERO_F,
      roughnessMin := ZERO_F,
      roughnessMax := ONE_F,
      metalnessMin := ZERO_F,
      metalnessMax := ONE_F,
      enableSky := Flag(true),
      enableEmissives := Flag(true),
      enableLighting := Flag(true),
      enableAbsorbtion := Flag(true),
      enableTransparentShadows := Flag(true),
      enableSoftShadows := Flag(true),
      throughputThreshold := F_0_01,
      enableRussianRoulette := Flag(true),
      skyColor := ColorSlots(F_0_5, F_0_75, ONE_F, skyColorSlot3),
      skyIntensity := F_8,
      samplesPerPixel := 1,
      targetLight := 0,
      enableTonemapping := Flag(true),
      techSelection := TechSelection.None.Ordinal(),
      denoiserSelection := DenoiserSelection.Accumulation.Ordinal(),
      enableDenoiser := Flag(false),
      toneMappingOperator := ToneMappingOperator.Reinhard.Ordinal(),
      toneMappingClamp := Flag(true),
      nrcLearnIrradiance := Flag(true),
      nrcIncludeDirectIllumination := Flag(true),
      nrcTrainCache := Flag(true),
      nrcMaxTrainingBounces := 8,
      nrcCalculateTrainingLoss := Flag(false),
      nrcMaxAverageRadiance := ONE_F,
      nrcResolveMode := addQueryResultToOutput,
      nrcProportionPrimarySegmentsToTrainOn := F_0_02,
      nrcProportionTertiaryPlusSegmentsToTrainOn := ONE_F,
      nrcProportionUnbiasedToSelfTrain := ONE_F,
      nrcProportionUnbiased := F_0_0625,
      nrcSelfTrainingAttenuation := ONE_F,
      nrcTrainingWidth := 0,
      nrcTrainingHeight := 0,
      nrcSkipDeltaVertices := Flag(false),
      nrcTerminationHeuristicThreshold := F_0_01,
      nrcNumTrainingIterations := 1,
      sharcEnableClear := Flag(false),
      sharcEnableUpdate := Flag(true),
      sharcEnableResolve := Flag(true),
      sharcEnableAntiFireflyFilter := Flag(true),
      sharcUpdateViewCamera := Flag(true),
      sharcEnableMaterialDemodulation := Flag(true),
      sharcEnableDebug := Flag(false),
      sharcDownscaleFactor := 5,
      sharcSceneScale := F_50,
      sharcAccumulationFrameNum := 10,
      sharcStaleFrameFrameNum := 64,
      sharcRoughnessThreshold := F_0_4,
      ptDebugOutput := PTDebugOutputType.None.Ordinal()
    )
  }

  /** Decoding an enumerator's ordinal gives the enumerator back. */
  lemma DebugOutputOrdinalRoundTrip(e: PTDebugOutputType)
    ensures PTDebugOutputType.FromOrdinal(e.Ordinal()) == Maybe.Some(e)
  {
  }

  /** Only the nine declared ordinals decode. */
  lemma DebugOutputOrdinals(n: Uint32)
    ensures PTDebugOutputType.FromOrdinal(n).Some? <==> n <= 8
  {
  }

  /** Every compiled-in selection survives encoding as its ordinal. */
  lemma TechSelectionOrdinalRoundTrip(e: TechSelection)
    requires e.Declared()
    ensures TechSelection.FromOrdinal(e.Ordinal()) == Maybe.Some(e)
  {
  }

  /** With both feature flags on, exactly the ordinals 0, 1 and 2 decode. */
  lemma TechSelectionOrdinals(n: Uint32)
    ensures TechSelection.FromOrdinal(n).Some? <==> n <= 2
  {
  }

  lemma DenoiserSelectionOrdinalRoundTrip(e: DenoiserSelection)
    requires e.Declared()
    ensures DenoiserSelection.FromOrdinal(e.Ordinal()) == Maybe.Some(e)
  {
  }

  lemma ToneMappingOperatorOrdinalRoundTrip(e: ToneMappingOperator)
    ensures ToneMappingOperator.FromOrdinal(e.Ordinal()) == Maybe.Some(e)
  {
  }

  /**
   * The enum fields of a fresh record hold declared enumerators: no debug
   * output, no caching technique, accumulation denoising, Reinhard tone
   * mapping. Paths bounce at most 8 times with one sample per pixel; the
   * SHaRC cache is not cleared and is downscaled 5 times.
   */
  lemma DefaultsSelections(slot3: Float32, resolve: Uint32)
    ensures var d := Defaults(slot3, resolve);
      && PTDebugOutputType.FromOrdinal(d.ptDebugOutput) == Maybe.Some(PTDebugOutputType.None)
      && TechSelection.FromOrdinal(d.techSelection) == Maybe.Some(TechSelection.None)
      && DenoiserSelection.FromOrdinal(d.denoiserSelection) == Maybe.Some(Accumulation)
      && ToneMappingOperator.FromOrdinal(d.toneMappingOperator) == Maybe.Some(Reinhard)
      && d.bouncesMax == 8 && d.samplesPerPixel == 1
      && !d.sharcEnableClear.on && d.sharcDownscaleFactor == 5
  {
  }
}
