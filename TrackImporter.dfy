/** Import of gpx tracks as routes of a map, and detection of track files. */
module TrackImport {
  import opened Wrappers
  import opened Strings
  import opened Files
  import opened TileModel

  /** A gpx point: WGS84 coordinates in degrees. */
  datatype TrackPoint = TrackPoint(latitude: real, longitude: real)
  datatype TrackSegment = TrackSegment(trackPoints: seq<TrackPoint>)
  datatype Track = Track(name: string, trackSegments: seq<TrackSegment>)
  /** A parsed gpx document; its optional metadata header is not modelled. */
  datatype Gpx = Gpx(tracks: seq<Track>, wayPoints: seq<TrackPoint>, creator: string, version: string)

  /** A marker of a route: WGS84 coordinates, and projected ones when the map
      has a projection that could project the point. */
  datatype Marker = Marker(lat: real, lon: real, projX: Option<real>, projY: Option<real>)
  datatype Route = Route(name: string, visible: bool, routeMarkers: seq<Marker>)

  /** `Projection.doProjection(latitude, longitude)`, null when it cannot project. */
  type Projection = (real, real) -> Option<(real, real)>

  const SupportedTrackFilesExtensions: seq<string> := ["gpx", "xml"]

  /** What follows the last '.' of the path, or the whole path without one. */
  function Extension(path: string): (ext: string)
    ensures '.' !in ext
    ensures '.' !in path ==> ext == path
    ensures '.' in path ==> |ext| < |path| && path[|path| - |ext| - 1] == '.' && path[|path| - |ext|..] == ext
  {
    var i := LastIndexOf(path, '.');
    var ext := path[i + 1..];
    assert forall k :: 0 <= k < |ext| ==> ext[k] == path[i + 1 + k];
    if i == -1 then
      assert ext == path;
      ext
    else
      ext
  }

  /** `isFileSupported(uri)`, on the uri's path. */
  function IsFileSupported(path: string): (r: bool)
    ensures r <==> (EndsWith(path, ".gpx") || EndsWith(path, ".xml") || path == "gpx" || path == "xml")
  {
    SupportedNames();
    ExtensionIs(path, "gpx");
    ExtensionIs(path, "xml");
    var extension := Extension(path);
    extension != "" && extension in SupportedTrackFilesExtensions
  }

  lemma SupportedNames()
    ensures forall e :: e in SupportedTrackFilesExtensions <==> e == "gpx" || e == "xml"
    ensures '.' !in "gpx" && '.' !in "xml"
    ensures "." + "gpx" == ".gpx" && "." + "xml" == ".xml"
  {
  }

  /** The extension is `e` exactly when the path ends with "." + e or is `e`. */
  lemma ExtensionIs(path: string, e: string)
    requires '.' !in e
    ensures Extension(path) == e <==> EndsWith(path, "." + e) || path == e
  {
    if EndsWith(path, "." + e) {
      var prefix := path[..|path| - |e| - 1];
      assert path == prefix + "." + e;
      ExtensionOfSuffix(prefix, e);
    }
    var ext := Extension(path);
    if ext == e && '.' in path {
      var k := |path| - |e| - 1;
      assert path[k..] == [path[k]] + path[k + 1..];
    }
  }

  /** The extension of `prefix + "." + ext` is `ext` when `ext` has no '.'. */
  lemma ExtensionOfSuffix(prefix: string, ext: string)
    requires '.' !in ext
    ensures Extension(prefix + "." + ext) == ext
  {
    var path := prefix + "." + ext;
    var i := LastIndexOf(path, '.');
    assert path[|prefix|] == '.';
    assert forall k :: |prefix| < k < |path| ==> path[k] == ext[k - |prefix| - 1];
    assert i == |prefix|;
    assert path[i + 1..] == ext;
  }

  /** `SUPPORTED_FILE_FILTER(dir, filename)`: a file (not a directory) whose
      name ends with ".gpx" or ".xml". */
  function SupportedFileFilter(isDirectory: bool, filename: string): (r: bool)
    ensures r <==> !isDirectory && (EndsWith(filename, ".gpx") || EndsWith(filename, ".xml"))
  {
    FilterSuffixes();
    && !isDirectory
    && (EndsWith(filename, "." + SupportedTrackFilesExtensions[0]) || EndsWith(filename, "." + SupportedTrackFilesExtensions[1]))
  }

  /** The filter and `isFileSupported` agree on files, except that only the
      latter accepts the bare names "gpx" and "xml". */
  lemma FilterAgreesWithIsFileSupported(filename: string)
    ensures SupportedFileFilter(false, filename) ==> IsFileSupported(filename)
    ensures IsFileSupported(filename) && filename != "gpx" && filename != "xml" ==> SupportedFileFilter(false, filename)
    ensures !SupportedFileFilter(true, filename)
  {
  }

  lemma FilterSuffixes()
    ensures "." + SupportedTrackFilesExtensions[0] == ".gpx"
    ensures "." + SupportedTrackFilesExtensions[1] == ".xml"
  {
  }

  /** An entry of a directory listing: a name and whether it is a directory. */
  datatype DirEntry = DirEntry(name: string, isDirectory: bool)

  /** `recordings`: `listFiles(SUPPORTED_FILE_FILTER)` on the recordings
      directory, null when it cannot be listed; paths keep the listing order. */
  function Recordings(recordingsDir: Path, listing: Option<seq<DirEntry>>): (r: Option<seq<Path>>)
    ensures r.None? <==> listing.None?
    ensures r.Some? ==> forall p :: p in r.value <==>
      exists e :: e in listing.value && SupportedFileFilter(e.isDirectory, e.name) && p == Child(recordingsDir, e.name)
  {
    match listing
    case None => None
    case Some(entries) => Some(Accepted(recordingsDir, entries))
  }

  function Accepted(dir: Path, entries: seq<DirEntry>): (r: seq<Path>)
    ensures forall p :: p in r <==>
      exists e :: e in entries && SupportedFileFilter(e.isDirectory, e.name) && p == Child(dir, e.name)
  {
    if entries == [] then []
    else
      var e := entries[0];
      var rest := Accepted(dir, entries[1..]);
      assert forall x :: x in entries <==> x == e || x in entries[1..];
      if SupportedFileFilter(e.isDirectory, e.name) then [Child(dir, e.name)] + rest else rest
  }

  /** The marker of one track point: projected values are set only when the
      map has a projection and that projection succeeds; lat/lon always. */
  function ToMarker(p: TrackPoint, projection: Option<Projection>): (m: Marker)
    ensures m.lat == p.latitude && m.lon == p.longitude
    ensures m.projX.Some? == m.projY.Some?
    ensures m.projX.Some? <==> projection.Some? && projection.value(p.latitude, p.longitude).Some?
    ensures m.projX.Some? ==> projection.value(p.latitude, p.longitude) == Some((m.projX.value, m.projY.value))
  {
    var projected := if projection.Some? then projection.value(p.latitude, p.longitude) else None;
    match projected
    case None => Marker(p.latitude, p.longitude, None, None)
    case Some(xy) => Marker(p.latitude, p.longitude, Some(xy.0), Some(xy.1))
  }

  /** All points of the segments, segment after segment. */
  function Points(segments: seq<TrackSegment>): seq<TrackPoint>
  {
    if segments == [] then []
    else Points(segments[..|segments| - 1]) + segments[|segments| - 1].trackPoints
  }

  /** The number of points of the segments. */
  function PointCount(segments: seq<TrackSegment>): nat
  {
    if segments == [] then 0 else |segments[0].trackPoints| + PointCount(segments[1..])
  }

  function MarkersOf(points: seq<TrackPoint>, projection: Option<Projection>): (ms: seq<Marker>)
    ensures |ms| == |points|
    ensures forall k :: 0 <= k < |points| ==> ms[k] == ToMarker(points[k], projection)
  {
    seq(|points|, k requires 0 <= k < |points| => ToMarker(points[k], projection))
  }

  /** `gpxTracktoRoute(track)` as a value: named as the track, visible, and
      one marker per point of all its segments, in order. */
  function RouteOf(track: Track, projection: Option<Projection>): (route: Route)
    ensures route.name == track.name && route.visible
    ensures |route.routeMarkers| == |Points(track.trackSegments)| == PointCount(track.trackSegments)
    ensures forall k :: 0 <= k < |route.routeMarkers| ==>
      route.routeMarkers[k] == ToMarker(Points(track.trackSegments)[k], projection)
  {
    PointsCount(track.trackSegments);
    Route(track.name, true, MarkersOf(Points(track.trackSegments), projection))
  }

  lemma {:induction false} PointsAppend(a: seq<TrackSegment>, b: seq<TrackSegment>)
    ensures Points(a + b) == Points(a) + Points(b)
    decreases |b|
  {
    if b == [] {
      assert a + b == a;
    } else {
      var b' := b[..|b| - 1];
      assert (a + b)[..|a + b| - 1] == a + b';
      PointsAppend(a, b');
    }
  }

  /** Concatenating the segments keeps every point: the route has as many
      markers as the track has points. */
  lemma {:induction false} PointsCount(segments: seq<TrackSegment>)
    ensures |Points(segments)| == PointCount(segments)
    decreases |segments|
  {
    if segments != [] {
      assert segments == [segments[0]] + segments[1..];
      PointsAppend([segments[0]], segments[1..]);
      assert Points([segments[0]]) == Points([]) + segments[0].trackPoints;
      PointsCount(segments[1..]);
    }
  }

  /** Point `j` of segment `i` becomes the marker after all points of the
      earlier segments and the first `j` of segment `i`. */
  lemma MarkerOfPoint(track: Track, projection: Option<Projection>, i: int, j: int)
    requires 0 <= i < |track.trackSegments| && 0 <= j < |track.trackSegments[i].trackPoints|
    ensures var k := PointCount(track.trackSegments[..i]) + j;
      k < |RouteOf(track, projection).routeMarkers| &&
      RouteOf(track, projection).routeMarkers[k] == ToMarker(track.trackSegments[i].trackPoints[j], projection)
  {
    var segs := track.trackSegments;
    assert segs == segs[..i] + ([segs[i]] + segs[i + 1..]);
    PointsAppend(segs[..i], [segs[i]] + segs[i + 1..]);
    PointsAppend([segs[i]], segs[i + 1..]);
    assert Points([segs[i]]) == Points([]) + segs[i].trackPoints;
    PointsCount(segs[..i]);
    var k := PointCount(segs[..i]) + j;
    assert Points(segs)[k] == segs[i].trackPoints[j];
  }

  class GpxTrackFileToRoutesTask {
    /** The projection of the map the routes are imported into, if any. */
    const projection: Option<Projection>
    /** `mNewRouteList`. */
    var newRouteList: seq<Route>
    /** The messages passed to the listener's `onError`. */
    var errors: seq<string>

    constructor (projection: Option<Projection>)
      ensures this.projection == projection && newRouteList == [] && errors == []
    {
      this.projection := projection;
      newRouteList := [];
      errors := [];
    }

    /** `gpxTracktoRoute(track)`: concatenates the markers of all segments. */
    method GpxTrackToRoute(track: Track) returns (route: Route)
      ensures route == RouteOf(track, projection)
    {
      var markers: seq<Marker> := [];
      var segments := track.trackSegments;
      var i := 0;
      while i < |segments|
        invariant 0 <= i <= |segments|
        invariant markers == MarkersOf(Points(segments[..i]), projection)
      {
        var points := segments[i].trackPoints;
        ghost var before := Points(segments[..i]);
        var j := 0;
        while j < |points|
          invariant 0 <= j <= |points|
          invariant markers == MarkersOf(before + points[..j], projection)
        {
          assert before + points[..j + 1] == (before + points[..j]) + [points[j]];
          markers := markers + [ToMarker(points[j], projection)];
          j := j + 1;
        }
        assert segments[..i + 1][..i] == segments[..i];
        assert points[..j] == points;
        i := i + 1;
      }
      assert segments[..i] == segments;
      route := Route(track.name, true, markers);
    }

    /** `doInBackground(streams)`: the routes of every stream that parses are
        appended in order; each stream that fails adds one error. */
    method DoInBackground(inputStreamList: seq<InputStream>, parse: InputStream -> Result<Gpx, string>)
      modifies this
      ensures newRouteList == old(newRouteList) + ImportedRoutes(inputStreamList, parse, projection)
      ensures errors == old(errors) + ParseErrors(inputStreamList, parse)
    {
      var n := 0;
      while n < |inputStreamList|
        invariant 0 <= n <= |inputStreamList|
        invariant newRouteList == old(newRouteList) + ImportedRoutes(inputStreamList[..n], parse, projection)
        invariant errors == old(errors) + ParseErrors(inputStreamList[..n], parse)
        decreases |inputStreamList| - n
      {
        var stream := inputStreamList[n];
        assert inputStreamList[..n + 1][..n] == inputStreamList[..n];
        match parse(stream) {
        case Success(gpx) =>
          var t := 0;
          while t < |gpx.tracks|
            invariant 0 <= t <= |gpx.tracks|
            invariant newRouteList == old(newRouteList) + ImportedRoutes(inputStreamList[..n], parse, projection)
              + RoutesOf(gpx.tracks[..t], projection)
            invariant errors == old(errors) + ParseErrors(inputStreamList[..n], parse)
          {
            var route := GpxTrackToRoute(gpx.tracks[t]);
            assert RoutesOf(gpx.tracks[..t + 1], projection) == RoutesOf(gpx.tracks[..t], projection) + [route];
            newRouteList := newRouteList + [route];
            t := t + 1;
          }
          assert gpx.tracks[..t] == gpx.tracks;
        case Failure(message) =>
          errors := errors + [message];
        }
        n := n + 1;
      }
      assert inputStreamList[..n] == inputStreamList;
    }
  }

  /** One route per track, in the order of the tracks. */
  function RoutesOf(tracks: seq<Track>, projection: Option<Projection>): (rs: seq<Route>)
    ensures |rs| == |tracks|
    ensures forall k :: 0 <= k < |tracks| ==> rs[k] == RouteOf(tracks[k], projection)
  {
    seq(|tracks|, k requires 0 <= k < |tracks| => RouteOf(tracks[k], projection))
  }

  /** The routes of all streams that parse, stream after stream. */
  function ImportedRoutes(streams: seq<InputStream>, parse: InputStream -> Result<Gpx, string>,
                          projection: Option<Projection>): seq<Route>
  {
    if streams == [] then []
    else
      ImportedRoutes(streams[..|streams| - 1], parse, projection) +
      match parse(streams[|streams| - 1])
      case Success(gpx) => RoutesOf(gpx.tracks, projection)
      case Failure(_) => []
  }

  /** The errors of the streams that do not parse, in order. */
  function ParseErrors(streams: seq<InputStream>, parse: InputStream -> Result<Gpx, string>): seq<string>
  {
    if streams == [] then []
    else
      ParseErrors(streams[..|streams| - 1], parse) +
      match parse(streams[|streams| - 1])
      case Success(_) => []
      case Failure(e) => [e]
  }

  /** Importing two batches one after the other is importing them together. */
  lemma {:induction false} ImportedRoutesAppend(s1: seq<InputStream>, s2: seq<InputStream>,
                                                parse: InputStream -> Result<Gpx, string>, projection: Option<Projection>)
    ensures ImportedRoutes(s1 + s2, parse, projection) == ImportedRoutes(s1, parse, projection) + ImportedRoutes(s2, parse, projection)
    ensures ParseErrors(s1 + s2, parse) == ParseErrors(s1, parse) + ParseErrors(s2, parse)
    decreases |s2|
  {
    if s2 == [] {
      assert s1 + s2 == s1;
    } else {
      assert (s1 + s2)[..|s1 + s2| - 1] == s1 + s2[..|s2| - 1];
      ImportedRoutesAppend(s1, s2[..|s2| - 1], parse, projection);
    }
  }

  /** The number of streams that fail to parse. */
  function FailureCount(streams: seq<InputStream>, parse: InputStream -> Result<Gpx, string>): nat
  {
    if streams == [] then 0
    else FailureCount(streams[1..], parse) + (if parse(streams[0]).Failure? then 1 else 0)
  }

  /** Every failing stream reports exactly one error, and every imported route
      is visible. */
  lemma {:induction false} ImportOutcome(streams: seq<InputStream>, parse: InputStream -> Result<Gpx, string>,
                                         projection: Option<Projection>)
    ensures |ParseErrors(streams, parse)| == FailureCount(streams, parse)
    ensures forall r :: r in ImportedRoutes(streams, parse, projection) ==> r.visible
    decreases |streams|
  {
    if streams != [] {
      assert streams == [streams[0]] + streams[1..];
      ImportedRoutesAppend([streams[0]], streams[1..], parse, projection);
      assert [streams[0]][..0] == [];
      ImportOutcome(streams[1..], parse, projection);
    }
  }
}
