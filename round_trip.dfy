/**
 * Save followed by load. The persisted settings and the fields the codec
 * never touches together determine a record, so what a load of a saved
 * object gives back can be stated as a whole record: the saved record's
 * settings, except the SHaRC clear flag, whose save and load keys differ.
 */
module SettingsRoundTrip {
  import opened Numerics
  import opened MemberNames
  import opened Json
  import opened PathtracerUi
  import opened SettingSaveLoad
  import opened SettingsProperties
  import opened SettingsDetermine

  /** Every setting is read back from the member it is saved under, except the SHaRC clear flag. */
  lemma LoadKeyMatchesSaveKey(s: Setting)
    ensures LoadKey(s) == SaveKey(s) <==> s != OfSharc(SharcEnableClear)
  {
  }

  /**
   * Loading a saved object restores each setting to its saved value, except
   * the SHaRC clear flag, which keeps the value it had before the load.
   */
  lemma {:induction false} RoundTripSetting(t: UIData, u: UIData, c: Coercions, s: Setting)
    requires Enabled(s)
    ensures Get(Merge(t, Encode(u), c), s) == if s == OfSharc(SharcEnableClear) then Get(t, s) else Get(u, s)
  {
    var root := Encode(u);
    if s == OfSharc(SharcEnableClear) {
      EncodeOmitsEnableClear(u);
      MergeFollowsTable(t, root, c, s);
    } else {
      var saved, current := Get(u, s), Get(t, s);
      MergeFollowsTable(t, root, c, s);
      LoadKeyMatchesSaveKey(s);
      EncodeFollowsTable(u, s);
      GetKeepsKind(u, t, s);
      ConvertInvertsToJson(saved, current, c);
    }
  }

  /**
   * The record a load of `u`'s saved object into `t` yields: the settings of
   * `u` except the SHaRC clear flag, and every unsaved field of `t`.
   */
  function Restored(t: UIData, u: UIData): UIData
  {
    u.(sharcEnableClear := t.sharcEnableClear,
       showUI := t.showUI,
       enableBackFaceCull := t.enableBackFaceCull,
       accumulatedFrames := t.accumulatedFrames,
       accumulatedFramesMax := t.accumulatedFramesMax,
       enableAbsorbtion := t.enableAbsorbtion,
       enableTransparentShadows := t.enableTransparentShadows,
       enableSoftShadows := t.enableSoftShadows,
       throughputThreshold := t.throughputThreshold,
       targetLight := t.targetLight,
       enableTonemapping := t.enableTonemapping,
       enableDenoiser := t.enableDenoiser,
       nrcCalculateTrainingLoss := t.nrcCalculateTrainingLoss,
       nrcTrainingWidth := t.nrcTrainingWidth,
       nrcTrainingHeight := t.nrcTrainingHeight)
  }

  lemma GetRestored(t: UIData, u: UIData, s: Setting)
    ensures Get(Restored(t, u), s) == if s == OfSharc(SharcEnableClear) then Get(t, s) else Get(u, s)
  {
  }

  /** Loading a saved object into any record yields `Restored`. */
  lemma {:induction false} LoadAfterSave(t: UIData, u: UIData, c: Coercions)
    ensures Merge(t, Encode(u), c) == Restored(t, u)
  {
    var r := Merge(t, Encode(u), c);
    forall s | Enabled(s)
      ensures Get(r, s) == Get(Restored(t, u), s)
    {
      RoundTripSetting(t, u, c, s);
      GetRestored(t, u, s);
    }
    MergeKeepsUnsaved(t, Encode(u), c);
    SettingsDetermineRecord(r, Restored(t, u));
  }

  /** A record that loads its own saved object is unchanged. */
  lemma {:induction false} LoadOwnSave(u: UIData, c: Coercions)
    ensures Merge(u, Encode(u), c) == u
  {
    LoadAfterSave(u, u, c);
  }

  /**
   * The round trip is lossy exactly through the SHaRC clear flag: a record
   * whose flag differs from the saved one's does not get the saved record back.
   */
  lemma {:induction false} ClearFlagNotRestored(t: UIData, u: UIData, c: Coercions)
    requires t.sharcEnableClear != u.sharcEnableClear
    ensures Merge(t, Encode(u), c).sharcEnableClear == t.sharcEnableClear
    ensures Merge(t, Encode(u), c) != u
  {
    LoadAfterSave(t, u, c);
  }

  /**
   * A freshly constructed record starts with the SHaRC clear flag off, and
   * loading any saved object leaves it off.
   */
  lemma {:induction false} FreshLoadNeverClears(slot3: Float32, resolve: Uint32, u: UIData, c: Coercions)
    ensures Merge(Defaults(slot3, resolve), Encode(u), c).sharcEnableClear == Flag(false)
  {
    LoadAfterSave(Defaults(slot3, resolve), u, c);
  }

  /** Loading an object with no members changes nothing. */
  lemma {:induction false} EmptyDocumentKeepsRecord(u: UIData, c: Coercions)
    ensures Merge(u, map[], c) == u
  {
    var r := Merge(u, map[], c);
    forall s | Enabled(s)
      ensures Get(r, s) == Get(u, s)
    {
      MergeFollowsTable(u, map[], c, s);
    }
    MergeKeepsUnsaved(u, map[], c);
    SettingsDetermineRecord(r, u);
  }

  /** A sky colour member that is not an array of exactly four elements leaves all four slots alone. */
  lemma {:induction false} SkyColorNeedsFourSlots(u: UIData, root: Document, c: Coercions)
    requires !(KeySkyColor in root && IsFourSlotArray(root[KeySkyColor]))
    ensures Merge(u, root, c).skyColor == u.skyColor
  {
    MergeFollowsTable(u, root, c, OfLighting(SkyColor));
  }

  /** An array of exactly four elements replaces all four slots together. */
  lemma {:induction false} SkyColorAllSlots(u: UIData, root: Document, c: Coercions)
    requires KeySkyColor in root && IsFourSlotArray(root[KeySkyColor])
    ensures var e := root[KeySkyColor].elems;
      Merge(u, root, c).skyColor
        == ColorSlots(AsFloat(e[0], c), AsFloat(e[1], c), AsFloat(e[2], c), AsFloat(e[3], c))
  {
    MergeFollowsTable(u, root, c, OfLighting(SkyColor));
  }

  /**
   * An enum member is stored with no range check: the integer read is cast to
   * the ordinal, so a non-negative one is kept as it is, declared or not.
   */
  lemma {:induction false} TechSelectionUnchecked(u: UIData, root: Document, c: Coercions, n: Int32)
    requires KeyTechSelection in root && root[KeyTechSelection] == JInt(n)
    ensures Merge(u, root, c).techSelection == ToUint32(n)
    ensures 0 <= n ==> Merge(u, root, c).techSelection == n
  {
    MergeFollowsTable(u, root, c, OfPathTracing(TechSelectionSetting));
  }

  /** The ordinal 9999 names no selection, yet it is loaded as it is. */
  lemma UndeclaredTechSelectionKept(u: UIData, root: Document, c: Coercions)
    requires KeyTechSelection in root && root[KeyTechSelection] == JInt(9999)
    ensures Merge(u, root, c).techSelection == 9999
    ensures TechSelection.FromOrdinal(Merge(u, root, c).techSelection).None?
  {
    TechSelectionUnchecked(u, root, c, 9999);
  }

  /** A negative integer wraps to a large ordinal. */
  lemma NegativeTechSelectionWraps(u: UIData, root: Document, c: Coercions)
    requires KeyTechSelection in root && root[KeyTechSelection] == JInt(-1)
    ensures Merge(u, root, c).techSelection == 0xFFFF_FFFF
  {
    TechSelectionUnchecked(u, root, c, -1);
  }
}
