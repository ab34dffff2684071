# TrekMe core, modelled in Dafny

TrekMe is an Android app that shows maps made of tiles, downloaded from
online map sources or stored on the device, together with recorded and
imported gpx tracks. This project models the parts of the app where its
decisions are made, and proves what those decisions guarantee:

- **Tile providers.** The Spain IGN provider's coverage filter in front of a
  wrapped base provider (`TileStreamProviderIgnSpain`); the Ordnance Survey
  WMTS URL template (`UrlTileBuilderOrdnanceSurvey`); the factory that wires a
  provider for each map source (`ProviderFactory`); and the adapters to the
  map view's provider, which reads local tiles as
  `zoom/row/col<extension>` below the map directory or keeps only the stream
  of a remote answer (`TileViewCompat`).
- **IGN license.** The check of a purchase's age against the 350-day validity
  and the 15-day grace period (`LicenseVerifier`), and the map view model
  that runs it for licensed maps, posts events and persists the purchase
  (`MapViewModel`).
- **Settings.** The shared-preferences store with its keys, defaults, the enum
  names and the app directory guard (`SettingsStore`).
- **Track import.** Which files count as track files, the conversion of a gpx
  track to a route with one marker per point, and the accumulation of routes
  over several input streams (`TrackImport`).
- **Directories.** How the default app directory and the maps directories are
  resolved on each Android version, and the lazily computed directories
  derived from them (`TrekMeContextModel`).

Support modules: `Wrappers` (Option, Result), `Strings` (decimal
rendering and parsing of integers, splitting, suffixes; proved to round
trip), `Files` (a `File` as a path string with '/' as separator), and
`TileModel` (input streams, tile results, the map record).

Pure Kotlin code is modelled by functions and lemmas. Objects whose fields
the source updates are classes: `MapViewViewModel` records the events it
posts and the license info it persists, `Settings` holds its preferences as
a `map` field, `GpxTrackFileToRoutesTask` appends to its route list, and
`TrekMeContextAndroid` keeps each `by lazy` property as a cache field that is
empty until first read. The clock, the billing library, gpx parsing, file
opening and the map's projection are parameters.

## Model

| member | source | states |
|---|---|---|
| TileStreamProviderIgnSpain.GetTileStream | app/src/main/java/com/peterlaurence/trekme/model/providers/stream/TileStreamProviderIgnSpain.kt:18-30 | the base is called at most once, and then with the same row, col and level, and its answer is returned unchanged; with no call the answer is OutOfBounds |
| TileStreamProviderIgnSpain.GetTileStreamCoverage | app/src/main/java/com/peterlaurence/trekme/model/providers/stream/TileStreamProviderIgnSpain.kt:20-29 | the base is asked exactly for the addresses of an independent level-by-level coverage description, and levels up to 2 and 7 to 17 are always served |
| TileStreamProviderIgnSpain.AboveMaxZoom | app/src/main/java/com/peterlaurence/trekme/model/providers/stream/TileStreamProviderIgnSpain.kt:26-27 | above level 17 every address is OutOfBounds without a call to the base |
| TileStreamProviderIgnSpain.LowZoomWindows | app/src/main/java/com/peterlaurence/trekme/model/providers/stream/TileStreamProviderIgnSpain.kt:20-25 | at levels 3 to 6 the base is skipped exactly for rows or columns outside that level's window |
| TileStreamProviderIgnSpain.FilterIgnoresBase | app/src/main/java/com/peterlaurence/trekme/model/providers/stream/TileStreamProviderIgnSpain.kt:20-27 | whether the base is called does not depend on the base |
| UrlTileBuilderOrdnanceSurvey.Build | app/src/main/java/com/peterlaurence/trekme/core/providers/urltilebuilder/UrlTileBuilderOrdnanceSurvey.kt:4-5 | the built URL decodes to the WMTS endpoint and exactly the template's eleven key/value fields, in order |
| UrlTileBuilderOrdnanceSurvey.BuildParseRoundTrip | app/src/main/java/com/peterlaurence/trekme/core/providers/urltilebuilder/UrlTileBuilderOrdnanceSurvey.kt:4-5 | level, row and column are read back from the tileMatrix, tileRow and tileCol fields of the URL built for them |
| UrlTileBuilderOrdnanceSurvey.BuildInjective | app/src/main/java/com/peterlaurence/trekme/core/providers/urltilebuilder/UrlTileBuilderOrdnanceSurvey.kt:4-5 | two tile addresses give the same URL exactly when they are equal |
| UrlTileBuilderOrdnanceSurvey.BuildConstantFields | app/src/main/java/com/peterlaurence/trekme/core/providers/urltilebuilder/UrlTileBuilderOrdnanceSurvey.kt:4-5 | the endpoint and the first eight fields are the same for every address, the key is the literal `<key>`, and the three address fields come last |
| UrlTileBuilderOrdnanceSurvey.DecodeQuery | app/src/main/java/com/peterlaurence/trekme/core/providers/urltilebuilder/UrlTileBuilderOrdnanceSurvey.kt:4-5 | fields free of '&' and '=' in names and of '&' in values are recovered by splitting the query on '&' and '=' |
| ProviderFactory.CreateTileStreamProvider | app/src/main/java/com/peterlaurence/trekme/model/providers/stream/Factory.kt:13-42 | fails, with "Missing data for IGN source", exactly for IGN without IGN data; otherwise the provider and its URL builder both belong to the requested source |
| ProviderFactory.IgnWiring | app/src/main/java/com/peterlaurence/trekme/model/providers/stream/Factory.kt:15-20 | the IGN builder gets the API key and the layer's real name, and the IGN provider the same layer |
| ProviderFactory.OtherSourcesIgnoreData | app/src/main/java/com/peterlaurence/trekme/model/providers/stream/Factory.kt:21-40 | every other source succeeds whatever its data, and the data makes no difference |
| ProviderFactory.DistinctSourcesDistinctProviders | app/src/main/java/com/peterlaurence/trekme/model/providers/stream/Factory.kt:13-42 | providers built for different sources are different |
| TileViewCompat.MakeMapViewTileStreamProvider | app/src/main/java/com/peterlaurence/trekme/viewmodel/common/tileviewcompat/CompatibityUtils.kt:18-36 | fails with NotImplementedError exactly for an UNDEFINED origin; otherwise reads tiles from the map's directory with the map's image extension |
| TileViewCompat.RelativeTilePath | app/src/main/java/com/peterlaurence/trekme/viewmodel/common/tileviewcompat/CompatibityUtils.kt:22 | the relative tile path names zoom, row and column in that order, readable back whatever the extension |
| TileViewCompat.TileFile | app/src/main/java/com/peterlaurence/trekme/viewmodel/common/tileviewcompat/CompatibityUtils.kt:22-25 | the file read for a tile lies below the map directory, and its path relative to that directory names the tile |
| TileViewCompat.LocalGetTileStream | app/src/main/java/com/peterlaurence/trekme/viewmodel/common/tileviewcompat/CompatibityUtils.kt:21-29 | opens the tile's own file, and is null exactly when opening it fails |
| TileViewCompat.DistinctTilesDistinctFiles | app/src/main/java/com/peterlaurence/trekme/viewmodel/common/tileviewcompat/CompatibityUtils.kt:22-25 | two tiles of one map are read from the same file exactly when they are the same tile |
| TileViewCompat.AdaptedGetTileStream | app/src/main/java/com/peterlaurence/trekme/viewmodel/common/tileviewcompat/CompatibityUtils.kt:38-45 | the adapter answers with a stream exactly when the inner provider answers TileStream, and then with that stream |
| TileViewCompat.AdaptedIgnSpain | app/src/main/java/com/peterlaurence/trekme/viewmodel/common/tileviewcompat/CompatibityUtils.kt:38-45 | the Spain IGN provider seen through the adapter gives null outside its coverage and the base's stream inside it |
| LicenseVerifier.CheckTime | app/src/main/java/com/peterlaurence/trekme/billing/ign/LicenseVerifier.kt:16-32 | remaining days lie in 0..350 for a past purchase that is granted, at least 350 for a future one, in 1..14 in the grace period; a purchase not in the past is always granted |
| LicenseVerifier.PastPurchaseBands | app/src/main/java/com/peterlaurence/trekme/billing/ign/LicenseVerifier.kt:21-28 | for a past purchase, age up to 350 days grants with 350 minus the age, 351 to 364 days is the grace period with 365 minus the age, 365 or more is denied, each band both ways |
| LicenseVerifier.FuturePurchase | app/src/main/java/com/peterlaurence/trekme/billing/ign/LicenseVerifier.kt:29-31 | a purchase at or after now grants 350 days plus its distance in days |
| LicenseVerifier.DeniedExactlyAfterAYear | app/src/main/java/com/peterlaurence/trekme/billing/ign/LicenseVerifier.kt:16-32 | access is denied exactly when at least 365 days' worth of milliseconds have passed since the purchase |
| LicenseVerifier.DaysLeftOfPastPurchase | app/src/main/java/com/peterlaurence/trekme/billing/ign/LicenseVerifier.kt:21-28 | counting the grace period, the days of use left for a past purchase are 365 minus its age, and 0 from then on |
| LicenseVerifier.DaysLeftNeverGrow | app/src/main/java/com/peterlaurence/trekme/billing/ign/LicenseVerifier.kt:16-32 | the days of use left never grow as the clock advances, for a purchase in the past, in the future, or between the two readings |
| MapViewModel.OnFailureToReadFile | app/src/main/java/com/peterlaurence/trekme/viewmodel/mapview/MapViewViewModel.kt:57-66 | with a purchase, persists its time and passes without an event; without one, posts an error event, persists nothing and fails |
| MapViewModel.IgnLicenseCheck | app/src/main/java/com/peterlaurence/trekme/viewmodel/mapview/MapViewViewModel.kt:49-83 | a non-licensed map passes with no effect; at most one event, about the map; with a stored license nothing is persisted and the answer is false exactly when the license is outdated |
| MapViewModel.LicenseDecisionTable | app/src/main/java/com/peterlaurence/trekme/viewmodel/mapview/MapViewViewModel.kt:49-83 | every row of the check: non-licensed maps pass; a stored license decides by its age, posting a grace-period or outdated event; with nothing stored a purchase is persisted and passes, and its absence posts an error event and fails |
| MapViewModel.LicenseCheckShape | app/src/main/java/com/peterlaurence/trekme/viewmodel/mapview/MapViewViewModel.kt:49-83 | at most one event, about the map checked; the answer is false exactly when an outdated or error event is posted; something is persisted only for a licensed map with nothing stored and a purchase |
| MapViewModel.CheckAfterPersist | app/src/main/java/com/peterlaurence/trekme/viewmodel/mapview/MapViewViewModel.kt:57-66 | after the purchase was persisted, the next check decides from the purchase's age alone |
| MapViewModel.MapViewViewModel.CheckForIgnLicense | app/src/main/java/com/peterlaurence/trekme/viewmodel/mapview/MapViewViewModel.kt:49-83 | the answer, the events appended and the license info stored are those of the decision table |
| MapViewModel.MapViewViewModel.GetMap | app/src/main/java/com/peterlaurence/trekme/viewmodel/mapview/MapViewViewModel.kt:31-39 | returns the current map unchanged and runs the check only when there is one |
| MapViewModel.MapViewViewModel.GetMapChecked | app/src/main/java/com/peterlaurence/trekme/viewmodel/mapview/MapViewViewModel.kt:28-39 | as documented: returns the current map only when its license check passes, with the same events and persistence as the check |
| MapViewModel.GetMapIgnoresMissingLicense | app/src/main/java/com/peterlaurence/trekme/viewmodel/mapview/MapViewViewModel.kt:31-39 | as written, a licensed map with no stored license and no purchase is returned while the error event is posted |
| MapViewModel.GetMapCheckedRefusesMissingLicense | app/src/main/java/com/peterlaurence/trekme/viewmodel/mapview/MapViewViewModel.kt:28-30 | on the same input the documented behaviour posts the error event and returns no map |
| SettingsStore.EnumNamesRoundTrip | app/src/main/java/com/peterlaurence/trekme/core/settings/Settings.kt:211-217 | the stored names of StartOnPolicy and RotationMode are read back as the same values |
| SettingsStore.Settings.CheckAppPath | app/src/main/java/com/peterlaurence/trekme/core/settings/Settings.kt:86-90 | true exactly when the maps directories are known and hold the path |
| SettingsStore.Settings.GetAppDir | app/src/main/java/com/peterlaurence/trekme/core/settings/Settings.kt:68-72 | the stored directory when it is one of the maps directories; the default app directory when nothing is stored or the stored path is not a maps directory |
| SettingsStore.Settings.SetAppDir | app/src/main/java/com/peterlaurence/trekme/core/settings/Settings.kt:78-84 | stores the path only when it is one of the maps directories, and then reading it back gives it |
| SettingsStore.Settings.GetStartOnPolicy | app/src/main/java/com/peterlaurence/trekme/core/settings/Settings.kt:95-99 | MAP_LIST when unset, otherwise the policy whose name is stored |
| SettingsStore.Settings.SetStartOnPolicy | app/src/main/java/com/peterlaurence/trekme/core/settings/Settings.kt:101-105 | stores the policy's name under startOnPolicy only; reading back gives the policy |
| SettingsStore.Settings.GetMagnifyingFactor | app/src/main/java/com/peterlaurence/trekme/core/settings/Settings.kt:113 | 0 when unset, otherwise the stored integer |
| SettingsStore.Settings.SetMagnifyingFactor | app/src/main/java/com/peterlaurence/trekme/core/settings/Settings.kt:107-111 | stores the factor under magnifyingFactor only; reading back gives it |
| SettingsStore.Settings.GetRotationMode | app/src/main/java/com/peterlaurence/trekme/core/settings/Settings.kt:118-122 | NONE when unset, otherwise the mode whose name is stored |
| SettingsStore.Settings.SetRotationMode | app/src/main/java/com/peterlaurence/trekme/core/settings/Settings.kt:124-128 | stores the mode's name under rotationMode only; reading back gives the mode |
| SettingsStore.Settings.GetDefineScaleCentered | app/src/main/java/com/peterlaurence/trekme/core/settings/Settings.kt:139-141 | true when unset, otherwise the stored boolean |
| SettingsStore.Settings.SetDefineScaleCentered | app/src/main/java/com/peterlaurence/trekme/core/settings/Settings.kt:130-134 | stores the flag under defineScaleWhenCentered only; reading back gives it |
| SettingsStore.Settings.GetFavoriteMapIds | app/src/main/java/com/peterlaurence/trekme/core/settings/Settings.kt:165-169 | no ids when unset; otherwise exactly the ids whose decimal text is stored |
| SettingsStore.Settings.SetFavoriteMapIds | app/src/main/java/com/peterlaurence/trekme/core/settings/Settings.kt:156-160 | stores the set of decimal texts of the ids under favoriteMaps only; reading back gives exactly the set of ids |
| SettingsStore.Settings.GetLastMapId | app/src/main/java/com/peterlaurence/trekme/core/settings/Settings.kt:175-179 | null when unset or -1, otherwise the stored id; never -1 |
| SettingsStore.Settings.SetLastMapId | app/src/main/java/com/peterlaurence/trekme/core/settings/Settings.kt:184-188 | stores the id under lastMapId only; reading back gives it, or null for -1 |
| SettingsStore.AppDirIsAMapsDir | app/src/main/java/com/peterlaurence/trekme/core/settings/Settings.kt:68-90 | once the directories are resolved, the app directory that settings report is always one of the maps directories |
| TrekMeContextModel.FilterNotNull | app/src/main/java/com/peterlaurence/trekme/core/TrekMeContext.kt:125 | keeps exactly the present directories, and no more entries than given |
| TrekMeContextModel.FilterNotNullAppend | app/src/main/java/com/peterlaurence/trekme/core/TrekMeContext.kt:125 | filtering keeps the order of the directories |
| TrekMeContextModel.ResolvedDirs | app/src/main/java/com/peterlaurence/trekme/core/TrekMeContext.kt:124-135 | the default app directory, when there is one, is among the maps directories, and every maps directory is a present external files directory or, below Android 10, the default app directory |
| TrekMeContextModel.ResolvedFromQ | app/src/main/java/com/peterlaurence/trekme/core/TrekMeContext.kt:127-129 | from Android 10 the maps directories are the present external files directories and the default app directory is the first, null exactly when none is present |
| TrekMeContextModel.ResolvedBelowQ | app/src/main/java/com/peterlaurence/trekme/core/TrekMeContext.kt:130-134 | below Android 10 the default app directory is trekme on the external storage, heads the maps directories, and the other present directories but the first follow |
| TrekMeContextModel.OptionalChild | app/src/main/java/com/peterlaurence/trekme/core/TrekMeContext.kt:41-58 | a derived directory is present exactly when the app directory is, and is then its named child |
| TrekMeContextModel.DownloadDirs | app/src/main/java/com/peterlaurence/trekme/core/TrekMeContext.kt:64-68 | the download directories are known exactly when the maps directories are, one per maps directory |
| TrekMeContextModel.DownloadDirsParts | app/src/main/java/com/peterlaurence/trekme/core/TrekMeContext.kt:64-68 | each download directory is the downloaded child of the maps directory at the same position |
| TrekMeContextModel.GetSettingsFile | app/src/main/java/com/peterlaurence/trekme/core/TrekMeContext.kt:106-108 | the settings file is settings.json in the app's files directory |
| TrekMeContextModel.TrekMeContextAndroid.ResolveDirs | app/src/main/java/com/peterlaurence/trekme/core/TrekMeContext.kt:124-135 | sets the default app directory and the maps directories to the resolved pair and changes nothing else |
| TrekMeContextModel.TrekMeContextAndroid.DefaultMapsDownloadDir | app/src/main/java/com/peterlaurence/trekme/core/TrekMeContext.kt:41-45 | computed from the app directory on first read, the cached value on every later read |
| TrekMeContextModel.TrekMeContextAndroid.ImportedDir | app/src/main/java/com/peterlaurence/trekme/core/TrekMeContext.kt:48-52 | computed from the app directory on first read, the cached value on every later read |
| TrekMeContextModel.TrekMeContextAndroid.RecordingsDir | app/src/main/java/com/peterlaurence/trekme/core/TrekMeContext.kt:54-58 | computed from the app directory on first read, the cached value on every later read |
| TrekMeContextModel.TrekMeContextAndroid.DownloadDirList | app/src/main/java/com/peterlaurence/trekme/core/TrekMeContext.kt:64-68 | computed from the maps directories on first read, the cached value on every later read |
| TrekMeContextModel.TrekMeContextAndroid.CredentialsDir | app/src/main/java/com/peterlaurence/trekme/core/TrekMeContext.kt:72-74 | computed on first read, credentials below the app directory or bare when there is none; cached afterwards |
| TrekMeContextModel.LazyDirsAreFixed | app/src/main/java/com/peterlaurence/trekme/core/TrekMeContext.kt:39-74 | each of the five lazy directories (maps download, imported, recordings, download list, credentials), read once, does not follow later changes of the directories it was derived from |
| TrackImport.Extension | app/src/main/java/com/peterlaurence/trekadvisor/core/track/TrackImporter.kt:46-47 | the extension holds no '.', is the whole path when it has no '.', and otherwise is what follows the last '.' |
| TrackImport.IsFileSupported | app/src/main/java/com/peterlaurence/trekadvisor/core/track/TrackImporter.kt:45-52 | a path is supported exactly when it ends with .gpx or .xml, or is the bare word gpx or xml |
| TrackImport.SupportedFileFilter | app/src/main/java/com/peterlaurence/trekadvisor/core/track/TrackImporter.kt:28-35 | accepts exactly the entries that are not directories and whose name ends with .gpx or .xml |
| TrackImport.FilterAgreesWithIsFileSupported | app/src/main/java/com/peterlaurence/trekadvisor/core/track/TrackImporter.kt:28-35 | the file filter accepts only supported files, accepts every supported file name but the bare words, and never a directory |
| TrackImport.Recordings | app/src/main/java/com/peterlaurence/trekadvisor/core/track/TrackImporter.kt:42-43 | null exactly when the directory cannot be listed; otherwise exactly the listed files the filter accepts |
| TrackImport.ToMarker | app/src/main/java/com/peterlaurence/trekadvisor/core/track/TrackImporter.kt:160-175 | the marker keeps the point's latitude and longitude, and has projected values exactly when the map has a projection that projects the point, and then those values |
| TrackImport.RouteOf | app/src/main/java/com/peterlaurence/trekadvisor/core/track/TrackImporter.kt:145-181 | the route is named after the track and visible, and has one marker per point of all segments, marker k made from point k |
| TrackImport.PointsCount | app/src/main/java/com/peterlaurence/trekadvisor/core/track/TrackImporter.kt:156-177 | all points of all segments are kept |
| TrackImport.PointsAppend | app/src/main/java/com/peterlaurence/trekadvisor/core/track/TrackImporter.kt:156-177 | segments are concatenated in order |
| TrackImport.MarkerOfPoint | app/src/main/java/com/peterlaurence/trekadvisor/core/track/TrackImporter.kt:156-177 | point j of segment i becomes the marker after every point of the earlier segments and the first j of its own |
| TrackImport.GpxTrackFileToRoutesTask.GpxTrackToRoute | app/src/main/java/com/peterlaurence/trekadvisor/core/track/TrackImporter.kt:145-181 | the route is named after the track, visible, with one marker per point of all segments in order |
| TrackImport.GpxTrackFileToRoutesTask.DoInBackground | app/src/main/java/com/peterlaurence/trekadvisor/core/track/TrackImporter.kt:115-134 | appends the routes of every stream that parses, in order, and records one error for every stream that does not |
| TrackImport.ImportedRoutesAppend | app/src/main/java/com/peterlaurence/trekadvisor/core/track/TrackImporter.kt:115-134 | importing two batches one after the other is importing them together |
| TrackImport.ImportOutcome | app/src/main/java/com/peterlaurence/trekadvisor/core/track/TrackImporter.kt:115-134 | exactly one error per stream that fails, and every imported route is visible |

## Left out

- The base provider of the Spain IGN provider (`TileStreamProviderRetry` around `TileStreamProviderHttp`) is a parameter; HTTP, retries and the URL builder it is given are not part of this model.
- The URL builders and tile providers other than Ordnance Survey and Spain IGN appear only as the constructors the factory wires; their URLs and fetching are not modelled.
- `MapSourceData` subclasses other than `IgnSourceData` are one value, since only IGN reads its data.
- `TileResult`'s classes live in the core map package, which is not part of this model; `TileStream` and `OutOfBounds` are used as named, and every other answer is one `FetchError` case.
- Opening a tile file is a parameter; any exception it throws is `None`. Logging the unknown origin is left out.
- Kotlin `Long` and `Int` are unbounded integers: `abs(Long.MIN_VALUE)`, overflow of `now - timeMillis` and the `toInt()` truncation of remaining days are not modelled.
- The clock `Date().time`, the billing library and the persistence strategy are inputs; coroutines, `Dispatchers.IO` and the event bus are sequential effects recorded on the view model.
- MapViewModel.MapViewViewModel.GetMap: follows the code, not its documentation (see Findings); the check launched in `viewModelScope` is modelled as running to completion before `getMap` returns; its interleaving with later calls is not modelled.
- The view model's settings getters only delegate to `Settings` and are not modelled separately.
- The settings migration in the `init` block of `Settings` (reading and deleting the old JSON file) and `getScaleCentered`/`setScaleCentered` (a `Float`) are left out.
- SettingsStore.Settings.GetStartOnPolicy: requires the store to hold only what the setters write; `valueOf` throwing on a foreign value is not modelled. The same holds for GetRotationMode and, for a non-numeric favourite, GetFavoriteMapIds.
- SettingsStore.Settings.GetFavoriteMapIds: is a set; the order of the list, which follows the set's iteration order, is not modelled.
- SettingsStore.Settings.CheckAppPath and SettingsStore.Settings.SetAppDir compare and store path strings as given; `File.absolutePath` normalisation is not modelled.
- `TrekMeContext`'s `init`, `createAppDirs`, `createNomediaFile`, `checkAppDir` and `isAppDirReadOnly` touch the file system and are left out; the Android APIs `getExternalFilesDirs`, `getExternalStorageDirectory` and `SDK_INT` are inputs.
- A `File` is its path string with '/' as separator; `File(null, name)` is the bare name.
- GPX parsing (`GPXParser.parse`) and the map's projection are parameters; gpx metadata and any point attribute but latitude and longitude are left out; coordinates are reals, not doubles.
- TrackImport.GpxTrackFileToRoutesTask.DoInBackground: a failure of `stream.close()` after the routes were added, and the stack-trace text of the error, are not modelled; the error is the parser's message.
- `importTrackUri`, `importTrackFile`, `onPostExecute` and the listener interface are file and UI plumbing around `GpxTrackFileToRoutesTask` and are left out; `Uri.path` is taken to be non-null.
- The recordings directory comes from another context object that is not part of this model; it is a parameter of TrackImport.Recordings.

## Findings

| source | as written | input that shows it | evidently intended | confidence | as-written member | corrected member |
|---|---|---|---|---|---|---|
| app/src/main/java/com/peterlaurence/trekme/viewmodel/mapview/MapViewViewModel.kt:28-39 | `getMap` returns the current map whatever the license check decides; the check runs in the background and its answer is dropped | an IGN_LICENSED map with no stored license and no purchase: the error event is posted and the map is still returned | the documented contract: null when there is no map or the license check fails | medium, not executed; the posted event may be the intended way to stop the user, making the comment the stale part | MapViewModel.GetMapIgnoresMissingLicense | MapViewModel.MapViewViewModel.GetMapChecked |
