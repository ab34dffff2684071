/** The app's global settings, kept in a shared-preferences key/value store. */
module SettingsStore {
  import opened Wrappers
  import opened Strings
  import opened Files
  import opened TrekMeContextModel

  /** Whether the app starts on the map list or on the last map. */
  datatype StartOnPolicy = MAP_LIST | LAST_MAP

  /** The rotation behaviour when viewing a map. */
  datatype RotationMode = NONE | FOLLOW_ORIENTATION | FREE

  /** `StartOnPolicy.name`. */
  function StartOnPolicyName(p: StartOnPolicy): string
  {
    match p
    case MAP_LIST => "MAP_LIST"
    case LAST_MAP => "LAST_MAP"
  }

  /** `StartOnPolicy.valueOf(s)`, with `None` where it throws. */
  function StartOnPolicyValueOf(s: string): Option<StartOnPolicy>
  {
    if s == "MAP_LIST" then Some(MAP_LIST)
    else if s == "LAST_MAP" then Some(LAST_MAP)
    else None
  }

  /** `RotationMode.name`. */
  function RotationModeName(m: RotationMode): string
  {
    match m
    case NONE => "NONE"
    case FOLLOW_ORIENTATION => "FOLLOW_ORIENTATION"
    case FREE => "FREE"
  }

  /** `RotationMode.valueOf(s)`, with `None` where it throws. */
  function RotationModeValueOf(s: string): Option<RotationMode>
  {
    if s == "NONE" then Some(NONE)
    else if s == "FOLLOW_ORIENTATION" then Some(FOLLOW_ORIENTATION)
    else if s == "FREE" then Some(FREE)
    else None
  }

  /** The names written for the enums are read back as the same values. */
  lemma EnumNamesRoundTrip(p: StartOnPolicy, m: RotationMode)
    ensures StartOnPolicyValueOf(StartOnPolicyName(p)) == Some(p)
    ensures RotationModeValueOf(RotationModeName(m)) == Some(m)
  {
  }

  /** A value of the store, by the `put…` call that wrote it. */
  datatype PrefValue =
    | StringPref(s: string)
    | IntPref(i: int)
    | BoolPref(b: bool)
    | StringSetPref(ss: set<string>)

  const AppDirKey: string := "appDir"
  const StartOnPolicyKey: string := "startOnPolicy"
  const FavoriteMapsKey: string := "favoriteMaps"
  const RotationModeKey: string := "rotationMode"
  const MagnifyingFactorKey: string := "magnifyingFactor"
  const LastMapIdKey: string := "lastMapId"
  const DefineScaleWhenCenteredKey: string := "defineScaleWhenCentered"

  /** A string that `toInt()` reads and that `toString()` writes back as is. */
  predicate IsIntText(s: string)
  {
    ParseInt(s).Some? && IntToString(ParseInt(s).value) == s
  }

  /** Each key holds what its setter writes: a name of the enum for the two
      enum keys, the decimal texts of integers for the favourites. */
  predicate WellTyped(prefs: map<string, PrefValue>)
  {
    && (AppDirKey in prefs ==> prefs[AppDirKey].StringPref?)
    && (StartOnPolicyKey in prefs ==>
          prefs[StartOnPolicyKey].StringPref? && StartOnPolicyValueOf(prefs[StartOnPolicyKey].s).Some?)
    && (FavoriteMapsKey in prefs ==>
          prefs[FavoriteMapsKey].StringSetPref? && forall s :: s in prefs[FavoriteMapsKey].ss ==> IsIntText(s))
    && (RotationModeKey in prefs ==>
          prefs[RotationModeKey].StringPref? && RotationModeValueOf(prefs[RotationModeKey].s).Some?)
    && (MagnifyingFactorKey in prefs ==> prefs[MagnifyingFactorKey].IntPref?)
    && (LastMapIdKey in prefs ==> prefs[LastMapIdKey].IntPref?)
    && (DefineScaleWhenCenteredKey in prefs ==> prefs[DefineScaleWhenCenteredKey].BoolPref?)
  }

  /** The texts `setFavoriteMapIds` stores for a list of ids. */
  function FavoriteTexts(ids: seq<int>): set<string>
  {
    set id | id in ids :: IntToString(id)
  }

  class Settings {
    const trekMeContext: TrekMeContextAndroid
    /** The shared preferences. */
    var prefs: map<string, PrefValue>

    ghost predicate Valid()
      reads this
    {
      WellTyped(prefs)
    }

    /** The store as found on disk, written by earlier runs through the setters. */
    constructor (ctx: TrekMeContextAndroid, stored: map<string, PrefValue>)
      requires WellTyped(stored)
      ensures Valid() && trekMeContext == ctx && prefs == stored
    {
      trekMeContext := ctx;
      prefs := stored;
    }

    /** `checkAppPath(path)`: the path is one of the maps directories; false
        while they are unknown. */
    predicate CheckAppPath(path: Path)
      reads trekMeContext
      ensures CheckAppPath(path) <==> trekMeContext.mapsDirList.Some? && path in trekMeContext.mapsDirList.value
    {
      match trekMeContext.mapsDirList
      case None => false
      case Some(dirs) => path in dirs
    }

    /** `getAppDir()`: the stored directory if it is one of the maps
        directories, else the default app directory. */
    function GetAppDir(): (r: Option<Path>)
      requires Valid()
      reads this, trekMeContext
      ensures AppDirKey in prefs && CheckAppPath(prefs[AppDirKey].s) ==> r == Some(prefs[AppDirKey].s)
      ensures !(AppDirKey in prefs && CheckAppPath(prefs[AppDirKey].s)) ==> r == trekMeContext.defaultAppDir
    {
      if AppDirKey in prefs && CheckAppPath(prefs[AppDirKey].s) then Some(prefs[AppDirKey].s)
      else trekMeContext.defaultAppDir
    }

    /** `setAppDir(file)`: stores the path only if it is one of the maps
        directories; otherwise the store is unchanged. */
    method SetAppDir(file: Path)
      requires Valid()
      modifies this
      ensures Valid()
      ensures prefs == if CheckAppPath(file) then old(prefs)[AppDirKey := StringPref(file)] else old(prefs)
      ensures CheckAppPath(file) ==> GetAppDir() == Some(file)
    {
      if CheckAppPath(file) {
        prefs := prefs[AppDirKey := StringPref(file)];
      }
    }

    /** `getStartOnPolicy()`, `MAP_LIST` by default. */
    function GetStartOnPolicy(): (r: StartOnPolicy)
      requires Valid()
      reads this
      ensures StartOnPolicyKey !in prefs ==> r == MAP_LIST
      ensures StartOnPolicyKey in prefs ==> StartOnPolicyName(r) == prefs[StartOnPolicyKey].s
    {
      if StartOnPolicyKey in prefs then StartOnPolicyValueOf(prefs[StartOnPolicyKey].s).value else MAP_LIST
    }

    method SetStartOnPolicy(policy: StartOnPolicy)
      requires Valid()
      modifies this
      ensures Valid()
      ensures prefs == old(prefs)[StartOnPolicyKey := StringPref(StartOnPolicyName(policy))]
      ensures GetStartOnPolicy() == policy
    {
      EnumNamesRoundTrip(policy, NONE);
      prefs := prefs[StartOnPolicyKey := StringPref(StartOnPolicyName(policy))];
    }

    /** `getMagnifyingFactor()`, 0 by default. */
    function GetMagnifyingFactor(): (r: int)
      requires Valid()
      reads this
      ensures MagnifyingFactorKey !in prefs ==> r == 0
      ensures MagnifyingFactorKey in prefs ==> prefs[MagnifyingFactorKey] == IntPref(r)
    {
      if MagnifyingFactorKey in prefs then prefs[MagnifyingFactorKey].i else 0
    }

    method SetMagnifyingFactor(factor: int)
      requires Valid()
      modifies this
      ensures Valid()
      ensures prefs == old(prefs)[MagnifyingFactorKey := IntPref(factor)]
      ensures GetMagnifyingFactor() == factor
    {
      prefs := prefs[MagnifyingFactorKey := IntPref(factor)];
    }

    /** `getRotationMode()`, `NONE` by default. */
    function GetRotationMode(): (r: RotationMode)
      requires Valid()
      reads this
      ensures RotationModeKey !in prefs ==> r == NONE
      ensures RotationModeKey in prefs ==> RotationModeName(r) == prefs[RotationModeKey].s
    {
      if RotationModeKey in prefs then RotationModeValueOf(prefs[RotationModeKey].s).value else NONE
    }

    method SetRotationMode(mode: RotationMode)
      requires Valid()
      modifies this
      ensures Valid()
      ensures prefs == old(prefs)[RotationModeKey := StringPref(RotationModeName(mode))]
      ensures GetRotationMode() == mode
    {
      EnumNamesRoundTrip(MAP_LIST, mode);
      prefs := prefs[RotationModeKey := StringPref(RotationModeName(mode))];
    }

    /** `getDefineScaleCentered()`, true by default. */
    function GetDefineScaleCentered(): (r: bool)
      requires Valid()
      reads this
      ensures DefineScaleWhenCenteredKey !in prefs ==> r
      ensures DefineScaleWhenCenteredKey in prefs ==> prefs[DefineScaleWhenCenteredKey] == BoolPref(r)
    {
      if DefineScaleWhenCenteredKey in prefs then prefs[DefineScaleWhenCenteredKey].b else true
    }

    method SetDefineScaleCentered(defined: bool)
      requires Valid()
      modifies this
      ensures Valid()
      ensures prefs == old(prefs)[DefineScaleWhenCenteredKey := BoolPref(defined)]
      ensures GetDefineScaleCentered() == defined
    {
      prefs := prefs[DefineScaleWhenCenteredKey := BoolPref(defined)];
    }

    /** `getFavoriteMapIds()`: the ids read back from the stored texts, none
        when the favourites were never stored. */
    function GetFavoriteMapIds(): (r: set<int>)
      requires Valid()
      reads this
      ensures FavoriteMapsKey !in prefs ==> r == {}
      ensures FavoriteMapsKey in prefs ==> forall x :: x in r <==> IntToString(x) in prefs[FavoriteMapsKey].ss
    {
      if FavoriteMapsKey in prefs then
        var texts := prefs[FavoriteMapsKey].ss;
        assert forall x :: IntToString(x) in texts ==> ParseInt(IntToString(x)).value == x by {
          forall x | IntToString(x) in texts ensures ParseInt(IntToString(x)).value == x {
            IntRoundTrip(x);
          }
        }
        set s | s in texts :: ParseInt(s).value
      else {}
    }

    /** `setFavoriteMapIds(ids)`: stores the ids as a set of decimal texts. */
    method SetFavoriteMapIds(ids: seq<int>)
      requires Valid()
      modifies this
      ensures Valid()
      ensures prefs == old(prefs)[FavoriteMapsKey := StringSetPref(FavoriteTexts(ids))]
      ensures GetFavoriteMapIds() == set id | id in ids
    {
      forall s | s in FavoriteTexts(ids) ensures IsIntText(s) {
        var id :| id in ids && s == IntToString(id);
        IntRoundTrip(id);
      }
      prefs := prefs[FavoriteMapsKey := StringSetPref(FavoriteTexts(ids))];
      forall x ensures x in GetFavoriteMapIds() <==> x in ids {
        if IntToString(x) in FavoriteTexts(ids) {
          var id :| id in ids && IntToString(x) == IntToString(id);
          IntToStringInjective(x, id);
        }
      }
    }

    /** `getLastMapId()`: null when unset or set to the -1 sentinel. */
    function GetLastMapId(): (r: Option<int>)
      requires Valid()
      reads this
      ensures r != Some(-1)
      ensures LastMapIdKey !in prefs ==> r.None?
      ensures LastMapIdKey in prefs ==> (r.None? <==> prefs[LastMapIdKey].i == -1)
      ensures r.Some? ==> prefs[LastMapIdKey] == IntPref(r.value)
    {
      var id := if LastMapIdKey in prefs then prefs[LastMapIdKey].i else -1;
      if id != -1 then Some(id) else None
    }

    method SetLastMapId(id: int)
      requires Valid()
      modifies this
      ensures Valid()
      ensures prefs == old(prefs)[LastMapIdKey := IntPref(id)]
      ensures GetLastMapId() == if id == -1 then None else Some(id)
    {
      prefs := prefs[LastMapIdKey := IntPref(id)];
    }
  }

  /** After the directories are resolved, the app directory that settings
      report is one of the maps directories, whatever the store holds. */
  lemma AppDirIsAMapsDir(s: Settings, sdkInt: int, externalFilesDirs: seq<Option<Path>>, externalStorageDirectory: Path)
    requires s.Valid()
    requires var r := ResolvedDirs(sdkInt, externalFilesDirs, externalStorageDirectory);
      s.trekMeContext.defaultAppDir == r.0 && s.trekMeContext.mapsDirList == Some(r.1)
    ensures s.GetAppDir().Some? ==> s.CheckAppPath(s.GetAppDir().value)
  {
  }
}
