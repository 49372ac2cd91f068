/**
 * The member names of a settings file. Every name the codec writes or reads
 * is a constructor; `Text` gives its exact spelling in the file, and any other
 * member of a parsed file is kept as `Other` with its own text.
 */
module MemberNames {

  datatype Name =
    | KeyVSync
    | KeyJitter
    | KeyRussianRoulette
    | KeyTransmission
    | KeyAnimations
    | KeyTechSelection
    | KeyDenoiserSelection
    | KeyBouncesMax
    | KeySamplesPerPixel
    | KeyExposureAdjustment
    | KeyRoughnessMin
    | KeyRoughnessMax
    | KeyMetalnessMin
    | KeyMetalnessMax
    | KeyPtDebugOutput
    | KeyNrcTrainCache
    | KeyNrcTrainingBounces
    | KeyLearnIrradiance
    | KeyIncludeDirectIllumination
    | KeySkipDeltaVertices
    | KeySelfTrainingAttenuation
    | KeyHeuristicThreshold
    | KeyNumTrainingIterations
    | KeyPrimarySegmentsToTrainOn
    | KeyTertiaryPlusSegmentsToTrainOn
    | KeyProportionUnbiased
    | KeyUnbiasedSelfTraining
    | KeyMaxAverageRadianceValue
    | KeyResolveMode
    | KeySharcEnableClear
    | KeyEnableClear
    | KeyEnableUpdate
    | KeyEnableResolve
    | KeyEnableAntiFirefly
    | KeyUpdateViewCamera
    | KeyEnableMaterialDemodulation
    | KeyEnableDebug
    | KeyAccumulationFrameNumber
    | KeyStaleFrameNumber
    | KeyDownscaleFactor
    | KeySceneScale
    | KeyRougnessThreshold
    | KeyEnableSky
    | KeySkyColor
    | KeySkyIntensity
    | KeyEnableEmissives
    | KeyEnableLighting
    | KeyToneMappingOperator
    | KeyToneMappingClamp
    | Other(text: string)

  /** How a name is spelled in the file. */
  function Text(n: Name): string
  {
    match n
    case KeyVSync => "VSync"
    case KeyJitter => "Jitter"
    case KeyRussianRoulette => "RussianRoulette"
    case KeyTransmission => "Transmission"
    case KeyAnimations => "Animations"
    case KeyTechSelection => "techSelection"
    case KeyDenoiserSelection => "denoiserSelection"
    case KeyBouncesMax => "bouncesMax"
    case KeySamplesPerPixel => "samplesPerPixel"
    case KeyExposureAdjustment => "exposureAdjustment"
    case KeyRoughnessMin => "roughnessMin"
    case KeyRoughnessMax => "roughnessMax"
    case KeyMetalnessMin => "metalnessMin"
    case KeyMetalnessMax => "metalnessMax"
    case KeyPtDebugOutput => "ptDebugOutput"
    case KeyNrcTrainCache => "nrcTrainCache"
    case KeyNrcTrainingBounces => "nrcTrainingBounces"
    case KeyLearnIrradiance => "Learn Irradiance"
    case KeyIncludeDirectIllumination => "Include Direct Illumination"
    case KeySkipDeltaVertices => "Skip delta vertices"
    case KeySelfTrainingAttenuation => "Self-Training Attenuation"
    case KeyHeuristicThreshold => "Heuristic Threshold"
    case KeyNumTrainingIterations => "Num Training Iterations"
    case KeyPrimarySegmentsToTrainOn => "Primary segments to train on"
    case KeyTertiaryPlusSegmentsToTrainOn => "Tertiary+ segments to train on"
    case KeyProportionUnbiased => "Proportion unbiased"
    case KeyUnbiasedSelfTraining => "Unbiased self-training"
    case KeyMaxAverageRadianceValue => "Max Average Radiance Value"
    case KeyResolveMode => "Resolve Mode"
    case KeySharcEnableClear => "sharcEnableClear"
    case KeyEnableClear => "Enable Clear"
    case KeyEnableUpdate => "Enable Update"
    case KeyEnableResolve => "Enable Resolve"
    case KeyEnableAntiFirefly => "Enable Anti Firefly"
    case KeyUpdateViewCamera => "Update View Camera"
    case KeyEnableMaterialDemodulation => "Enable Material Demodulation"
    case KeyEnableDebug => "Enable Debug"
    case KeyAccumulationFrameNumber => "Accumulation Frame Number"
    case KeyStaleFrameNumber => "Stale Frame Number"
    case KeyDownscaleFactor => "Downscale Factor"
    case KeySceneScale => "Scene Scale"
    case KeyRougnessThreshold => "Rougness Threshold"
    case KeyEnableSky => "enableSky"
    case KeySkyColor => "skyColor"
    case KeySkyIntensity => "skyIntensity"
    case KeyEnableEmissives => "enableEmissives"
    case KeyEnableLighting => "enableLighting"
    case KeyToneMappingOperator => "toneMappingOperator"
    case KeyToneMappingClamp => "toneMappingClamp"
    case Other(text) => text
  }
}
