# Path tracer settings codec

This project models the part of the path tracer sample's control panel that
persists its settings, together with the integer helpers of its shader
utility header.

- **The settings record** (`UIData`, `PathtracerUi.h`): every field the
  panel edits, with its initialiser, and the four selection enums with their
  ordinals. The feature flags `ENABLE_NRC`, `ENABLE_SHARC` and `ENABLE_NRD`
  are all 1, so the NRC and SHaRC field groups and the gated enumerators are
  present.
- **The codec** (`SettingSaveLoad.cpp`): `SaveSettings` builds a flat JSON
  object, one member per setting, block by block (generic, path tracing, NRC,
  SHaRC, lighting, tone mapping). Enums are stored as `int` ordinals and the
  sky colour as a four-element array. `LoadSettings` reads the file and
  parses it, and gives up with nothing changed if either step fails. It then
  merges the object into the live record. Each `LOAD_*` macro keeps a field
  when its key is missing and converts the member otherwise. The sky colour
  changes only when its member is an array of exactly four. Finally it resets
  the renderer's accumulation.
- **The shader helpers** (`PathtracerUtils.h`): Jenkins's hash, the xorshift
  generator and its per-pixel seeding, the bounce heat-map colours, and the
  geometry and material attribute flags. All are on `bv32`, so they wrap
  exactly as HLSL `uint` does.

## Modules

- `Numerics`: 32-bit integers, the casts between `int` and `uint32_t`, and
  floats as IEEE-754 bit patterns. The codec only copies floats.
- `MemberNames`: the member names of a settings file, with their exact
  spelling. `Json`: the part of jsoncpp's `Value` the codec uses.
- `PathtracerUi`: the enums, the record and `Defaults`, the freshly
  constructed record.
- `SettingSaveLoad`: the codec.
  - The class `PathtracerUI` holds the live record `ui`. Its methods
    `SaveSettings` and `LoadSettings` follow the source block by block: each
    `#if` block of the source is one update of the document or the record.
  - The `ResetAccumulation` calls are a log of the record as it stood at each
    call.
  - Beside the class are a table of the persisted settings (`Setting`; `Get`,
    `SaveKey`, `LoadKey`) and two functions that state what the methods
    compute. `Encode` gives the object a save writes. `Merge` gives the record
    a load leaves.
- `SettingsProperties`, `SettingsDetermine` and `SettingsRoundTrip`: what the
  codec promises, stated against a per-setting reference rule.
  - Which members a save writes, and that each setting is saved as the JSON
    form of its value.
  - That each setting is loaded by the macro rule.
  - That the persisted settings and the untouched fields together determine
    a record.
  - What a load of a saved object gives back.
- `PathtracerUtils`: the shader helpers.

## Two mismatches in the source

- **The SHaRC clear flag does not round-trip.** `SaveSettings` writes it
  under `sharcEnableClear` (`SettingSaveLoad.cpp:69`). `LoadSettings` reads it
  from `Enable Clear` (`SettingSaveLoad.cpp:176`), a member a save never
  writes. The model keeps both keys as written.
  - `LoadAfterSave`: loading a save restores every other setting and keeps the
    record's previous clear flag.
  - `ClearFlagNotRestored`: when the flags differ, the saved record is not
    given back.
  - `FreshLoadNeverClears`: a freshly started panel that loads any save still
    has the flag off.
- **The sky colour has three components but the codec uses four slots.** It is
  declared as a three-component vector (`PathtracerUi.h:91`), yet both
  directions of the codec index slot 3 (`SettingSaveLoad.cpp:89`, `197`).
  That index is past the end of the vector, so the access is undefined
  behaviour; with the usual layout it lands on the next member, `skyIntensity`
  (`PathtracerUi.h:92`). The model gives the colour a fourth slot of its own.
  - Its initial value is the parameter `skyColorSlot3` of `Defaults`.
  - A saved colour is an array of four, and a load requires exactly four.
  - So a save followed by a load round-trips all four slots.

Line 57 writes `root["Num Training Iterations"] = m_ui.nrcNumTrainingIterations,1,4;`.
The comma expression discards `1` and `4`, so the member holds just the
iteration count, as modelled.

## Model

| member | source | states |
|---|---|---|
| Numerics.ToInt32 | SettingSaveLoad.cpp:37 | `static_cast<int>` of a `uint32_t` ordinal keeps the bit pattern: the result is congruent to the ordinal modulo 2^32 and negative exactly when the ordinal is at least 2^31 |
| Numerics.ToUint32 | SettingSaveLoad.cpp:17 | the cast of the `int` read back to a `uint32_t` enum is reduction modulo 2^32 with no range check; a non-negative value is kept as it is |
| Numerics.OrdinalSurvivesInt | SettingSaveLoad.cpp:17 | an ordinal stored as an `int` and cast back is the same ordinal |
| Numerics.IntSurvivesOrdinal | SettingSaveLoad.cpp:17 | an `int` cast to an ordinal and back is the same `int` |
| Json.AsBool | SettingSaveLoad.cpp:14 | `asBool()` of a boolean member is that boolean |
| Json.AsInt | SettingSaveLoad.cpp:15 | `asInt()` of an integer member that fits in 32 bits is that integer |
| Json.AsFloat | SettingSaveLoad.cpp:16 | `asFloat()` of a float member is that float |
| Json.ArraySet | SettingSaveLoad.cpp:86-89 | `v[index] = x` turns null into an array, pads it with nulls up to `index`, stores `x` there and keeps every other element |
| SettingSaveLoad.LoadBool | SettingSaveLoad.cpp:14 | a missing key leaves the flag at its current value; a present key sets it to the member's `asBool()`, whatever its kind |
| SettingSaveLoad.LoadInt | SettingSaveLoad.cpp:15 | a missing key leaves the integer as it was; a present key sets it to the member's `asInt()` |
| SettingSaveLoad.LoadFloat | SettingSaveLoad.cpp:16 | a missing key leaves the float as it was; a present key sets it to the member's `asFloat()` |
| SettingSaveLoad.LoadEnum | SettingSaveLoad.cpp:17 | a missing key leaves the ordinal as it was (the current ordinal survives its round trip through `int`); a present key sets it to the cast of the member's `asInt()`, unchecked |
| SettingSaveLoad.LoadColor | SettingSaveLoad.cpp:192-198 | the four slots are replaced together by the elements' `asFloat()` exactly when the member is an array of four; otherwise all four are kept |
| SettingSaveLoad.FourSlotWrites | SettingSaveLoad.cpp:86-89 | the four indexed writes into a fresh member build exactly the four-element array of the slots |
| SettingSaveLoad.PathtracerUI.SaveGeneric | SettingSaveLoad.cpp:29-34 | the generic assignments add their members to the object as the generic step of `Encode` does |
| SettingSaveLoad.PathtracerUI.SavePathTracing | SettingSaveLoad.cpp:36-46 | the path tracing assignments add their members to the object as the path tracing step of `Encode` does |
| SettingSaveLoad.PathtracerUI.SaveNrc | SettingSaveLoad.cpp:48-65 | the NRC assignments add their members to the object as the NRC step of `Encode` does |
| SettingSaveLoad.PathtracerUI.SaveSharc | SettingSaveLoad.cpp:67-82 | the SHaRC assignments add their members to the object as the SHaRC step of `Encode` does |
| SettingSaveLoad.PathtracerUI.SaveLighting | SettingSaveLoad.cpp:84-92 | the lighting assignments add their members to the object as the lighting step of `Encode` does |
| SettingSaveLoad.PathtracerUI.SaveToneMapping | SettingSaveLoad.cpp:94-96 | the tone mapping assignments add their members to the object as the tone mapping step of `Encode` does |
| SettingSaveLoad.PathtracerUI.SaveSettings | SettingSaveLoad.cpp:25-112 | returns false with nothing written exactly when the stream fails to open; otherwise writes the object `Encode` gives for the record; the record is not changed |
| SettingSaveLoad.PathtracerUI.LoadSettings | SettingSaveLoad.cpp:119-211 | fails with record and reset log unchanged exactly when the file does not open or does not parse; otherwise the record becomes `Merge` of the old record and the parsed object, and the accumulation is reset exactly once, after the merge |
| SettingsProperties.GetKeepsKind | SettingSaveLoad.cpp:14-17 | each setting has one kind of value (bool, int, float, ordinal, colour) in every record, which decides the macro that loads it |
| SettingsProperties.ConvertInvertsToJson | SettingSaveLoad.cpp:14-17 | the load rule inverts the save rule: converting the JSON a value is saved as back to that value's kind yields the value, whatever the setting held before |
| SettingsProperties.MergeKeepsUnsaved | SettingSaveLoad.cpp:137-205 | a load changes none of the fields the codec never touches (`showUI`, `targetLight`, `accumulatedFrames`, ...) |
| SettingsProperties.GenericSaveKeyIsOwn | SettingSaveLoad.cpp:29-34 | each generic setting is saved under a member its own block writes and no other block writes |
| SettingsProperties.GenericKeyNamesSetting | SettingSaveLoad.cpp:29-34 | every member the generic block writes is the save key of one of its settings |
| SettingsProperties.EncodeGenericWrites | SettingSaveLoad.cpp:29-34 | the generic block stores each of its settings, under its key, as the JSON form of its value |
| SettingsProperties.EncodeGenericAdds | SettingSaveLoad.cpp:29-34 | after the generic block the object holds exactly the earlier members plus its own |
| SettingsProperties.EncodeGenericKeeps | SettingSaveLoad.cpp:29-34 | the generic block leaves every member it does not write as it was |
| SettingsProperties.PathTracingSaveKeyIsOwn | SettingSaveLoad.cpp:36-46 | each path tracing setting is saved under a member its own block writes and no other block writes |
| SettingsProperties.PathTracingKeyNamesSetting | SettingSaveLoad.cpp:36-46 | every member the path tracing block writes is the save key of one of its settings |
| SettingsProperties.EncodePathTracingWrites | SettingSaveLoad.cpp:36-46 | the path tracing block stores each of its settings, under its key, as the JSON form of its value |
| SettingsProperties.EncodePathTracingAdds | SettingSaveLoad.cpp:36-46 | after the path tracing block the object holds exactly the earlier members plus its own |
| SettingsProperties.EncodePathTracingKeeps | SettingSaveLoad.cpp:36-46 | the path tracing block leaves every member it does not write as it was |
| SettingsProperties.NrcSaveKeyIsOwn | SettingSaveLoad.cpp:48-65 | each NRC setting is saved under a member its own block writes and no other block writes |
| SettingsProperties.NrcKeyNamesSetting | SettingSaveLoad.cpp:48-65 | every member the NRC block writes is the save key of one of its settings |
| SettingsProperties.EncodeNrcWrites | SettingSaveLoad.cpp:48-65 | the NRC block stores each of its settings, under its key, as the JSON form of its value |
| SettingsProperties.EncodeNrcAdds | SettingSaveLoad.cpp:48-65 | after the NRC block the object holds exactly the earlier members plus its own |
| SettingsProperties.EncodeNrcKeeps | SettingSaveLoad.cpp:48-65 | the NRC block leaves every member it does not write as it was |
| SettingsProperties.SharcSaveKeyIsOwn | SettingSaveLoad.cpp:67-82 | each SHaRC setting is saved under a member its own block writes and no other block writes |
| SettingsProperties.SharcKeyNamesSetting | SettingSaveLoad.cpp:67-82 | every member the SHaRC block writes is the save key of one of its settings |
| SettingsProperties.EncodeSharcWrites | SettingSaveLoad.cpp:67-82 | the SHaRC block stores each of its settings, under its key, as the JSON form of its value |
| SettingsProperties.EncodeSharcAdds | SettingSaveLoad.cpp:67-82 | after the SHaRC block the object holds exactly the earlier members plus its own |
| SettingsProperties.EncodeSharcKeeps | SettingSaveLoad.cpp:67-82 | the SHaRC block leaves every member it does not write as it was |
| SettingsProperties.LightingSaveKeyIsOwn | SettingSaveLoad.cpp:84-92 | each lighting setting is saved under a member its own block writes and no other block writes |
| SettingsProperties.LightingKeyNamesSetting | SettingSaveLoad.cpp:84-92 | every member the lighting block writes is the save key of one of its settings |
| SettingsProperties.EncodeLightingWrites | SettingSaveLoad.cpp:84-92 | the lighting block stores each of its settings, under its key, as the JSON form of its value |
| SettingsProperties.EncodeLightingAdds | SettingSaveLoad.cpp:84-92 | after the lighting block the object holds exactly the earlier members plus its own |
| SettingsProperties.EncodeLightingKeeps | SettingSaveLoad.cpp:84-92 | the lighting block leaves every member it does not write as it was |
| SettingsProperties.ToneMappingSaveKeyIsOwn | SettingSaveLoad.cpp:94-96 | each tone mapping setting is saved under a member its own block writes and no other block writes |
| SettingsProperties.ToneMappingKeyNamesSetting | SettingSaveLoad.cpp:94-96 | every member the tone mapping block writes is the save key of one of its settings |
| SettingsProperties.EncodeToneMappingWrites | SettingSaveLoad.cpp:94-96 | the tone mapping block stores each of its settings, under its key, as the JSON form of its value |
| SettingsProperties.EncodeToneMappingAdds | SettingSaveLoad.cpp:94-96 | after the tone mapping block the object holds exactly the earlier members plus its own |
| SettingsProperties.EncodeToneMappingKeeps | SettingSaveLoad.cpp:94-96 | the tone mapping block leaves every member it does not write as it was |
| SettingsProperties.EncodeAdds | SettingSaveLoad.cpp:27-96 | the saved object holds exactly the members some block writes |
| SettingsProperties.EncodeFollowsTable | SettingSaveLoad.cpp:27-96 | every compiled-in setting is saved under its key as the JSON form of its value: enums as `int` ordinals, the sky colour as a four-element array |
| SettingsProperties.SaveKeyIsSaved | SettingSaveLoad.cpp:27-96 | every setting's save key is one of the members written |
| SettingsProperties.SavedKeyNamesSetting | SettingSaveLoad.cpp:27-96 | every member written is the save key of a compiled-in setting |
| SettingsProperties.EncodeKeys | SettingSaveLoad.cpp:27-96 | the saved object's members are exactly the save keys of the compiled-in settings, both directions |
| SettingsProperties.EnableClearNotSaved | SettingSaveLoad.cpp:69 | no block writes the member `Enable Clear` |
| SettingsProperties.EncodeOmitsEnableClear | SettingSaveLoad.cpp:69 | the saved object never holds `Enable Clear`, the member the clear flag is loaded from |
| SettingsProperties.MergeGenericLoads | SettingSaveLoad.cpp:137-141 | the generic block loads each of its settings by the reference rule: kept when its key is missing, converted from the member otherwise |
| SettingsProperties.MergeGenericKeeps | SettingSaveLoad.cpp:137-141 | the generic block changes no setting of another block |
| SettingsProperties.MergePathTracingLoads | SettingSaveLoad.cpp:143-153 | the path tracing block loads each of its settings by the reference rule: kept when its key is missing, converted from the member otherwise |
| SettingsProperties.MergePathTracingKeeps | SettingSaveLoad.cpp:143-153 | the path tracing block changes no setting of another block |
| SettingsProperties.MergeNrcLoads | SettingSaveLoad.cpp:155-172 | the NRC block loads each of its settings by the reference rule: kept when its key is missing, converted from the member otherwise |
| SettingsProperties.MergeNrcKeeps | SettingSaveLoad.cpp:155-172 | the NRC block changes no setting of another block |
| SettingsProperties.MergeSharcLoads | SettingSaveLoad.cpp:174-188 | the SHaRC block loads each of its settings by the reference rule: kept when its key is missing, converted from the member otherwise |
| SettingsProperties.MergeSharcKeeps | SettingSaveLoad.cpp:174-188 | the SHaRC block changes no setting of another block |
| SettingsProperties.MergeLightingLoads | SettingSaveLoad.cpp:190-201 | the lighting block loads each of its settings by the reference rule: kept when its key is missing, converted from the member otherwise |
| SettingsProperties.MergeLightingKeeps | SettingSaveLoad.cpp:190-201 | the lighting block changes no setting of another block |
| SettingsProperties.MergeToneMappingLoads | SettingSaveLoad.cpp:203-205 | the tone mapping block loads each of its settings by the reference rule: kept when its key is missing, converted from the member otherwise |
| SettingsProperties.MergeToneMappingKeeps | SettingSaveLoad.cpp:203-205 | the tone mapping block changes no setting of another block |
| SettingsProperties.MergeFollowsTable | SettingSaveLoad.cpp:137-205 | every compiled-in setting is loaded by the reference rule from the key it is read under |
| SettingsDetermine.SettingsDetermineRecord | PathtracerUi.h:67-149 | the persisted settings and the untouched fields together cover every field: records agreeing on both are equal |
| SettingsRoundTrip.LoadKeyMatchesSaveKey | SettingSaveLoad.cpp:69 | each setting is read from the member it is saved under, except the SHaRC clear flag (written as `sharcEnableClear`, read as `Enable Clear`, line 176) |
| SettingsRoundTrip.RoundTripSetting | SettingSaveLoad.cpp:137-205 | loading a saved object restores each setting to its saved value, except the clear flag, which keeps its value from before the load |
| SettingsRoundTrip.LoadAfterSave | SettingSaveLoad.cpp:137-205 | loading the save of `u` into any record `t` yields `u` with the clear flag and the untouched fields taken from `t` |
| SettingsRoundTrip.LoadOwnSave | SettingSaveLoad.cpp:137-205 | a record loading its own save is unchanged |
| SettingsRoundTrip.ClearFlagNotRestored | SettingSaveLoad.cpp:176 | when the clear flags differ the load keeps the old flag and does not give the saved record back |
| SettingsRoundTrip.FreshLoadNeverClears | SettingSaveLoad.cpp:176 | a freshly constructed record that loads any save still has the clear flag off |
| SettingsRoundTrip.EmptyDocumentKeepsRecord | SettingSaveLoad.cpp:137-205 | loading an object with no members changes nothing |
| SettingsRoundTrip.SkyColorNeedsFourSlots | SettingSaveLoad.cpp:192-193 | a sky colour member that is missing or not an array of exactly four leaves all four slots alone |
| SettingsRoundTrip.SkyColorAllSlots | SettingSaveLoad.cpp:193-197 | an array of exactly four replaces all four slots together |
| SettingsRoundTrip.TechSelectionUnchecked | SettingSaveLoad.cpp:144 | the selection becomes the stored `int` cast to `uint32_t`: kept as it is when non-negative |
| SettingsRoundTrip.UndeclaredTechSelectionKept | SettingSaveLoad.cpp:144 | the ordinal 9999 names no selection, yet it is loaded as it is |
| SettingsRoundTrip.NegativeTechSelectionWraps | SettingSaveLoad.cpp:144 | a stored -1 becomes the ordinal 0xFFFFFFFF |
| PathtracerUi.PTDebugOutputType.FromOrdinal | PathtracerUi.h:27-38 | a decoded ordinal is the ordinal of the enumerator it gives |
| PathtracerUi.TechSelection.FromOrdinal | PathtracerUi.h:40-49 | a decoded ordinal is the ordinal of a compiled-in enumerator |
| PathtracerUi.DenoiserSelection.FromOrdinal | PathtracerUi.h:52-59 | a decoded ordinal is the ordinal of a compiled-in enumerator |
| PathtracerUi.ToneMappingOperator.FromOrdinal | PathtracerUi.h:61-65 | a decoded ordinal is the ordinal of the enumerator it gives |
| PathtracerUi.DebugOutputOrdinalRoundTrip | PathtracerUi.h:27-38 | every debug output survives encoding as its ordinal |
| PathtracerUi.DebugOutputOrdinals | PathtracerUi.h:27-38 | exactly the ordinals 0 to 8 decode |
| PathtracerUi.TechSelectionOrdinalRoundTrip | PathtracerUi.h:40-49 | every compiled-in selection survives encoding as its ordinal |
| PathtracerUi.TechSelectionOrdinals | PathtracerUi.h:19-20 | with `ENABLE_NRC` and `ENABLE_SHARC` on, exactly the ordinals 0, 1 and 2 decode |
| PathtracerUi.DenoiserSelectionOrdinalRoundTrip | PathtracerUi.h:52-59 | every compiled-in denoiser survives encoding as its ordinal (Nrd is there because `ENABLE_NRD` is on) |
| PathtracerUi.ToneMappingOperatorOrdinalRoundTrip | PathtracerUi.h:61-65 | Linear and Reinhard survive encoding as their ordinals |
| PathtracerUi.Defaults | PathtracerUi.h:67-149 | the freshly constructed record with each field's declared initialiser; `DefaultsSelections` states its enum decodings and sample values, and `FreshLoadNeverClears` that it keeps its clear flag off through any load of a save |
| PathtracerUi.DefaultsSelections | PathtracerUi.h:97-101 | a fresh record's enum fields decode to None, None, Accumulation and Reinhard; 8 bounces, 1 sample per pixel, clear flag off, downscale factor 5 (lines 75, 93, 130, 137) |
| PathtracerUtils.JenkinsHash | PathtracerUtils.h:16-24 | the five wrapping steps in order; `JenkinsHashInverts` states that `JenkinsHashInverse` undoes it and `JenkinsHashInjective` that it is one-to-one on 32-bit words |
| PathtracerUtils.JenkinsHashReferenceValues | PathtracerUtils.h:16-24 | the five wrapping shift-and-mix steps give independently computed reference hashes |
| PathtracerUtils.JenkinsHashInverts | PathtracerUtils.h:16-24 | `JenkinsHashInverse`, each of the five steps undone last first, gives back every input |
| PathtracerUtils.JenkinsHashInjective | PathtracerUtils.h:16-24 | two words hash alike exactly when they are equal, so the hash is a bijection on 32 bits |
| PathtracerUtils.InitRNG | PathtracerUtils.h:36-40 | the hash of the wrapping row-major index xor the frame's hash; `InitRNGSeparatesPixels` states that pixels of one frame share a seed exactly when their indices are equal, and `InitRNGRecoversIndex` that the index can be read back |
| PathtracerUtils.SeedsSeparate | PathtracerUtils.h:38-39 | with one frame hash, two pixel indices give the same seed exactly when they are equal |
| PathtracerUtils.SeedRecoversIndex | PathtracerUtils.h:38-39 | the seed and the frame hash give back the pixel index |
| PathtracerUtils.InitRNGSeparatesPixels | PathtracerUtils.h:36-40 | in one frame two pixels share a seed exactly when their wrapped row-major indices are equal, whatever the heights passed |
| PathtracerUtils.InitRNGRecoversIndex | PathtracerUtils.h:36-40 | a pixel's seed and its frame's hash give back its wrapped row-major index |
| PathtracerUtils.InitRNGReferenceValues | PathtracerUtils.h:36-40 | the seed hashes the wrapping row-major pixel index xor the hashed frame; a wrapped index shares its seed |
| PathtracerUtils.XorShift | PathtracerUtils.h:47-53 | the value returned is the new state; `XorShiftInverse` gives back the old state, so the step is one-to-one; the new state is zero exactly when the old one was; state 1 steps to 0x42021 |
| PathtracerUtils.BounceHeatmap | PathtracerUtils.h:111-122 | blue exactly for bounce 0, green exactly for 1, red exactly for 2 and above |
| PathtracerUtils.UnionOf | PathtracerUtils.h:130 | every flag of a list is contained in its bitwise OR |
| PathtracerUtils.GeometryAttributesAreFlags | PathtracerUtils.h:124-131 | the `GeomAttr_*` values are distinct single bits and `GeomAttr_All` is exactly their OR |
| PathtracerUtils.MaterialAttributesAreFlags | PathtracerUtils.h:224-233 | the `MatAttr_*` values are distinct single bits and `MatAttr_All` is exactly their OR |

## Left out

- **File I/O:**
  - For a save, whether the output stream opens is the parameter `streamOpens`.
  - For a load, the file's text is an `Option<string>`, `None` when it cannot
    be opened.
  - jsoncpp's text parser is the oracle `parse`, which may fail.
  - The writer's formatting (indentation, comment style) is not modelled.
  - The round-trip lemmas relate the object a save builds to the object a
    load merges; they assume the writer and the parser carry the object
    through the file unchanged. That holds except for NaN, below.
- **NaN floats:** jsoncpp's default writer settings (`useSpecialFloats` off,
  used at `SettingSaveLoad.cpp:105-109`) write a NaN float as `null`, and
  `asFloat` reads `null` back as 0.0. So a float field that holds NaN is
  saved and loaded back as 0.0, and `LoadAfterSave`, `LoadOwnSave` and
  `RoundTripSetting` do not carry over to the program for such a field.
- **jsoncpp's cross-kind conversions** are the uninterpreted functions of
  `Coercions`, for example a float read with `asInt` or null read with
  `asBool`. Only the same-kind cases are concrete.
- **jsoncpp's exceptions** are not modelled. jsoncpp throws when a string,
  an array or an object is read with `asBool`, `asInt` or `asFloat`, and
  when a value read with `asInt` is out of range. `LoadSettings` catches
  nothing, so in the program such a read leaves the record merged up to the
  throwing read and skips `ResetAccumulation`. The model's `LoadSettings`
  returns true with a full merge instead, so its ensures does not carry over
  to those documents. A document whose root is not an object is not
  modelled either.
- **String and object members:** `JVal` has no string or object kind, so a
  key holding a string or an object is not represented. Every `LOAD_*` read
  of such a member throws (above). A string or an object under `skyColor`
  fails the `isArray()` test and leaves the colour unchanged, as
  `LoadColor` does for any member that is not an array of four.
- **Reals** in a document are single-precision values. jsoncpp keeps
  doubles, and a double that is not also a float is not represented.
- **Integers** in a document are unbounded. A member outside the 32-bit
  range reads through `Coercions`.
- **Member names:** a parsed document is a map from `Name`. A parser is taken
  to map a spelling that `Text` gives to a codec key onto that key, never
  onto `Other`.
- **The record's boolean fields** are wrapped in `Flag`, which has exactly
  the two values of `bool`. It changes nothing about what is modelled.
- `NrcResolveMode` is declared in `NrcIntegration.h`, which is not part of
  this model.
  - The field holds a raw `uint32_t` ordinal.
  - The default `AddQueryResultToOutput` is a parameter of `Defaults`.
- **Record fields with no bearing on the codec** are left out of `UIData`:
  the material and camera pointers and the two label strings
  (`toneMappingOperatorStrings`, `ptDebugOutputTypeStrings`).
- `Pathtracer::ResetAccumulation` is visible only as an entry appended to
  `resetLog`.
- `PathtracerUi.cpp` is not part of this model: widget construction, file
  dialogs, fonts and colour conversion. Its slider ranges are UI limits that
  a load does not enforce, so the model puts no bounds on loaded values.
- `PathtracerUIState` is not part of this model. It is an unused placeholder
  repeating part of the record.
- **The float and GPU code of `PathtracerUtils.h`** is not part of this
  model: `UintToFloat`, `Rand`, `HashAndColor`, `GetPerpendicularVector`,
  `OffsetRay`, `Temperature`, `GetLightData`, `GetGeometryFromHit` and
  `SampleGeometryMaterial`.
- **`PathtracerUI.LoadSettings`** applies each block's assignments as one
  update of the record. The source assigns field by field. No assignment in
  a block reads a field that another assignment of the same block writes, so
  the resulting record is the same.
