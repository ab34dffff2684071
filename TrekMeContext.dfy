/** Where the app keeps its files: the default app directory, the directories
    searched for maps, and the sub-directories derived from them. */
module TrekMeContextModel {
  import opened Wrappers
  import opened Files

  /** `Build.VERSION_CODES.Q` (Android 10). */
  const Q: int := 29

  const AppFolderName: string := "trekme"

  /** `filterNotNull()`: the present entries, in order. */
  function FilterNotNull(xs: seq<Option<Path>>): (r: seq<Path>)
    ensures |r| <= |xs|
    ensures forall x :: x in r <==> Some(x) in xs
  {
    if xs == [] then []
    else (match xs[0] case Some(x) => [x] case None => []) + FilterNotNull(xs[1..])
  }

  /** Filtering keeps the order of the entries: it commutes with concatenation. */
  lemma {:induction false} FilterNotNullAppend(a: seq<Option<Path>>, b: seq<Option<Path>>)
    ensures FilterNotNull(a + b) == FilterNotNull(a) + FilterNotNull(b)
    decreases |a|
  {
    if a == [] {
      assert a + b == b;
    } else {
      assert (a + b)[1..] == a[1..] + b;
      FilterNotNullAppend(a[1..], b);
    }
  }

  /** `dirs.drop(1)`. */
  function DropFirst<T>(s: seq<T>): seq<T>
  {
    if |s| >= 1 then s[1..] else []
  }

  /** The (defaultAppDir, mapsDirList) that `resolveDirs` assigns, given the SDK
      version, `getExternalFilesDirs(null)` and `getExternalStorageDirectory()`. */
  function ResolvedDirs(sdkInt: int, externalFilesDirs: seq<Option<Path>>, externalStorageDirectory: Path)
    : (r: (Option<Path>, seq<Path>))
    ensures r.0.Some? ==> r.0.value in r.1
    ensures forall d :: d in r.1 ==> Some(d) in externalFilesDirs || (sdkInt < Q && r.0 == Some(d))
  {
    var dirs := FilterNotNull(externalFilesDirs);
    assert forall d :: d in DropFirst(dirs) ==> d in dirs;
    if sdkInt >= Q then
      (if |dirs| > 0 then Some(dirs[0]) else None, dirs)
    else
      var defaultAppDir := Child(externalStorageDirectory, AppFolderName);
      (Some(defaultAppDir), [defaultAppDir] + DropFirst(dirs))
  }

  /** From Android 10 on, the maps directories are the present external files
      directories and the default app directory is the first of them, if any. */
  lemma ResolvedFromQ(sdkInt: int, externalFilesDirs: seq<Option<Path>>, externalStorageDirectory: Path)
    requires sdkInt >= Q
    ensures var dirs := FilterNotNull(externalFilesDirs);
      var r := ResolvedDirs(sdkInt, externalFilesDirs, externalStorageDirectory);
      && r.1 == dirs
      && (r.0.None? <==> forall i :: 0 <= i < |externalFilesDirs| ==> externalFilesDirs[i].None?)
      && (r.0.Some? ==> r.0.value == dirs[0] && Some(r.0.value) in externalFilesDirs)
  {
    var dirs := FilterNotNull(externalFilesDirs);
    if dirs != [] {
      assert dirs[0] in dirs;
    }
  }

  /** Below Android 10, the default app directory is `trekme` on the external
      storage and heads the maps directories, which then go on with every
      present external files directory but the first. */
  lemma ResolvedBelowQ(sdkInt: int, externalFilesDirs: seq<Option<Path>>, externalStorageDirectory: Path)
    requires sdkInt < Q
    ensures var dirs := FilterNotNull(externalFilesDirs);
      var r := ResolvedDirs(sdkInt, externalFilesDirs, externalStorageDirectory);
      && r.0 == Some(Child(externalStorageDirectory, AppFolderName))
      && r.1[0] == r.0.value
      && |r.1| == (if |dirs| == 0 then 1 else |dirs|)
      && forall i :: 1 <= i < |r.1| ==> r.1[i] == dirs[i]
  {
  }

  /** `parent?.let { File(it, name) }`. */
  function OptionalChild(parent: Option<Path>, name: string): (r: Option<Path>)
    ensures r.Some? <==> parent.Some?
    ensures r.Some? && Separator !in name ==> Parent(r.value) == parent && Name(r.value) == name
  {
    match parent
    case Some(p) =>
      if Separator !in name then ChildParts(p, name); Some(Child(p, name))
      else Some(Child(p, name))
    case None => None
  }

  /** `mapsDirList?.map { File(it, "downloaded") }`. */
  function DownloadDirs(mapsDirList: Option<seq<Path>>): (r: Option<seq<Path>>)
    ensures r.Some? <==> mapsDirList.Some?
    ensures r.Some? ==> |r.value| == |mapsDirList.value|
  {
    match mapsDirList
    case None => None
    case Some(l) => Some(seq(|l|, i requires 0 <= i < |l| => Child(l[i], "downloaded")))
  }

  /** Each download directory is the `downloaded` child of the maps directory
      at the same position; length and order are kept. */
  lemma DownloadDirsParts(l: seq<Path>)
    ensures |DownloadDirs(Some(l)).value| == |l|
    ensures forall i :: 0 <= i < |l| ==>
      && Parent(DownloadDirs(Some(l)).value[i]) == Some(l[i])
      && Name(DownloadDirs(Some(l)).value[i]) == "downloaded"
  {
    forall i | 0 <= i < |l|
      ensures Parent(DownloadDirs(Some(l)).value[i]) == Some(l[i])
      ensures Name(DownloadDirs(Some(l)).value[i]) == "downloaded"
    {
      ChildParts(l[i], "downloaded");
    }
  }

  /** `getSettingsFile(context)`: `settings.json` in the app's private files
      directory. */
  function GetSettingsFile(filesDir: Path): (f: Path)
    ensures Parent(f) == Some(filesDir)
    ensures Name(f) == "settings.json"
  {
    ChildParts(filesDir, "settings.json");
    Child(filesDir, "settings.json")
  }

  /** `TrekMeContextAndroid`. Each `by lazy` property is a field holding
      `None` until its first access and `Some(value)` from then on. */
  class TrekMeContextAndroid {
    var defaultAppDir: Option<Path>
    var mapsDirList: Option<seq<Path>>
    var defaultMapsDownloadDirLazy: Option<Option<Path>>
    var importedDirLazy: Option<Option<Path>>
    var recordingsDirLazy: Option<Option<Path>>
    var downloadDirListLazy: Option<Option<seq<Path>>>
    var credentialsDirLazy: Option<Path>

    constructor ()
      ensures defaultAppDir.None? && mapsDirList.None?
      ensures defaultMapsDownloadDirLazy.None? && importedDirLazy.None? && recordingsDirLazy.None?
      ensures downloadDirListLazy.None? && credentialsDirLazy.None?
    {
      defaultAppDir, mapsDirList := None, None;
      defaultMapsDownloadDirLazy, importedDirLazy, recordingsDirLazy := None, None, None;
      downloadDirListLazy, credentialsDirLazy := None, None;
    }

    /** `resolveDirs(applicationContext)`. */
    method ResolveDirs(sdkInt: int, externalFilesDirs: seq<Option<Path>>, externalStorageDirectory: Path)
      modifies this`defaultAppDir, this`mapsDirList
      ensures var r := ResolvedDirs(sdkInt, externalFilesDirs, externalStorageDirectory);
        defaultAppDir == r.0 && mapsDirList == Some(r.1)
    {
      var dirs := FilterNotNull(externalFilesDirs);
      if sdkInt >= Q {
        defaultAppDir := if |dirs| > 0 then Some(dirs[0]) else None;
        mapsDirList := Some(dirs);
      } else {
        defaultAppDir := Some(Child(externalStorageDirectory, AppFolderName));
        mapsDirList := Some([defaultAppDir.value] + DropFirst(dirs));
      }
    }

    /** `defaultMapsDownloadDir`. */
    method DefaultMapsDownloadDir() returns (d: Option<Path>)
      modifies this`defaultMapsDownloadDirLazy
      ensures d == if old(defaultMapsDownloadDirLazy).Some? then old(defaultMapsDownloadDirLazy).value
                   else OptionalChild(defaultAppDir, "downloaded")
      ensures defaultMapsDownloadDirLazy == Some(d)
    {
      if defaultMapsDownloadDirLazy.None? {
        defaultMapsDownloadDirLazy := Some(OptionalChild(defaultAppDir, "downloaded"));
      }
      d := defaultMapsDownloadDirLazy.value;
    }

    /** `importedDir`: where zip archives are extracted. */
    method ImportedDir() returns (d: Option<Path>)
      modifies this`importedDirLazy
      ensures d == if old(importedDirLazy).Some? then old(importedDirLazy).value
                   else OptionalChild(defaultAppDir, "imported")
      ensures importedDirLazy == Some(d)
    {
      if importedDirLazy.None? {
        importedDirLazy := Some(OptionalChild(defaultAppDir, "imported"));
      }
      d := importedDirLazy.value;
    }

    /** `recordingsDir`. */
    method RecordingsDir() returns (d: Option<Path>)
      modifies this`recordingsDirLazy
      ensures d == if old(recordingsDirLazy).Some? then old(recordingsDirLazy).value
                   else OptionalChild(defaultAppDir, "recordings")
      ensures recordingsDirLazy == Some(d)
    {
      if recordingsDirLazy.None? {
        recordingsDirLazy := Some(OptionalChild(defaultAppDir, "recordings"));
      }
      d := recordingsDirLazy.value;
    }

    /** `downloadDirList`: where maps can be downloaded. */
    method DownloadDirList() returns (l: Option<seq<Path>>)
      modifies this`downloadDirListLazy
      ensures l == if old(downloadDirListLazy).Some? then old(downloadDirListLazy).value
                   else DownloadDirs(mapsDirList)
      ensures downloadDirListLazy == Some(l)
    {
      if downloadDirListLazy.None? {
        downloadDirListLazy := Some(DownloadDirs(mapsDirList));
      }
      l := downloadDirListLazy.value;
    }

    /** `credentialsDir`: `File(defaultAppDir, "credentials")`, a bare relative
        `credentials` when there is no default app directory. */
    method CredentialsDir() returns (d: Path)
      modifies this`credentialsDirLazy
      ensures d == if old(credentialsDirLazy).Some? then old(credentialsDirLazy).value
                   else ChildOfNullable(defaultAppDir, "credentials")
      ensures credentialsDirLazy == Some(d)
    {
      if credentialsDirLazy.None? {
        credentialsDirLazy := Some(ChildOfNullable(defaultAppDir, "credentials"));
      }
      d := credentialsDirLazy.value;
    }
  }

  /** Every lazy directory is fixed at its first access: changing the default
      app directory or the maps directories afterwards does not change it. */
  method LazyDirsAreFixed(ctx: TrekMeContextAndroid, appDir: Option<Path>, dirs: Option<seq<Path>>)
    returns (download1: Option<Path>, download2: Option<Path>, imported1: Option<Path>, imported2: Option<Path>,
             recordings1: Option<Path>, recordings2: Option<Path>, list1: Option<seq<Path>>, list2: Option<seq<Path>>,
             credentials1: Path, credentials2: Path)
    modifies ctx
    ensures download1 == download2 && imported1 == imported2 && recordings1 == recordings2
    ensures list1 == list2 && credentials1 == credentials2
  {
    download1 := ctx.DefaultMapsDownloadDir();
    imported1 := ctx.ImportedDir();
    recordings1 := ctx.RecordingsDir();
    list1 := ctx.DownloadDirList();
    credentials1 := ctx.CredentialsDir();
    ctx.defaultAppDir := appDir;
    ctx.mapsDirList := dirs;
    download2 := ctx.DefaultMapsDownloadDir();
    imported2 := ctx.ImportedDir();
    recordings2 := ctx.RecordingsDir();
    list2 := ctx.DownloadDirList();
    credentials2 := ctx.CredentialsDir();
  }
}
