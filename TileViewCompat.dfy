/** Adapters from the app's tile providers to the map view's provider, whose
    `getTileStream` answers with a stream or null. */
module TileViewCompat {
  import opened Wrappers
  import opened Strings
  import opened Files
  import opened TileModel
  import IgnSpain = TileStreamProviderIgnSpain

  /** The map view provider built for a local map: it reads tiles below the
      map's directory. */
  datatype MapViewTileStreamProvider = LocalTileFiles(directory: Path, imageExtension: string)

  /** `NotImplementedError`, thrown for a map of unknown origin. */
  datatype NotImplementedError = NotImplementedError

  /** `"$zoomLvl/$row/$col$imageExtension"`: zoom first, then row, then column. */
  function RelativeTilePath(zoomLvl: int, row: int, col: int, imageExtension: string): (rel: string)
    ensures ParseRelativeTilePath(rel, imageExtension) == Some((zoomLvl, row, col))
  {
    TilePathFields(zoomLvl, row, col, imageExtension);
    IntToString(zoomLvl) + [Separator] + IntToString(row) + [Separator] + IntToString(col) + imageExtension
  }

  /** The file a local provider reads for a tile: the relative tile path below
      the map's directory. */
  function TileFile(p: MapViewTileStreamProvider, row: int, col: int, zoomLvl: int): (f: Path)
    ensures var rel := StripPrefix(f, p.directory + [Separator]);
      rel.Some? && ParseRelativeTilePath(rel.value, p.imageExtension) == Some((zoomLvl, row, col))
  {
    var rel := RelativeTilePath(zoomLvl, row, col, p.imageExtension);
    StripAppended(p.directory + [Separator], rel);
    Child(p.directory, rel)
  }

  /** `makeMapViewTileStreamProvider(map)`. */
  function MakeMapViewTileStreamProvider(m: Map): (r: Result<MapViewTileStreamProvider, NotImplementedError>)
    ensures r.Failure? <==> m.origin == UNDEFINED
    ensures r.Success? ==> r.value == LocalTileFiles(m.directory, m.imageExtension)
  {
    match m.origin
    case VIPS => Success(LocalTileFiles(m.directory, m.imageExtension))
    case IGN_LICENSED => Success(LocalTileFiles(m.directory, m.imageExtension))
    case UNDEFINED => Failure(NotImplementedError)
  }

  /** The local provider's `getTileStream(row, col, zoomLvl)`. `openFile` stands
      for `FileInputStream(file)`, with `None` for every exception it throws. */
  function LocalGetTileStream(p: MapViewTileStreamProvider, openFile: Path -> Option<InputStream>,
                              row: int, col: int, zoomLvl: int): (r: Option<InputStream>)
    ensures r == openFile(TileFile(p, row, col, zoomLvl))
  {
    openFile(Child(p.directory, RelativeTilePath(zoomLvl, row, col, p.imageExtension)))
  }

  /** Reads (zoomLvl, row, col) back from a relative tile path. */
  function ParseRelativeTilePath(path: string, imageExtension: string): Option<(int, int, int)>
  {
    match SplitAtFirst(path, Separator)
    case None => None
    case Some(p1) =>
      match SplitAtFirst(p1.1, Separator)
      case None => None
      case Some(p2) =>
        match StripSuffix(p2.1, imageExtension)
        case None => None
        case Some(colText) =>
          var z, r, c := ParseInt(p1.0), ParseInt(p2.0), ParseInt(colText);
          if z.None? || r.None? || c.None? then None else Some((z.value, r.value, c.value))
  }

  /** The tile path names its zoom level, row and column, in that order, so
      that they can be read back whatever the image extension. */
  lemma TilePathFields(zoomLvl: int, row: int, col: int, imageExtension: string)
    ensures var rel := IntToString(zoomLvl) + [Separator] + IntToString(row) + [Separator] + IntToString(col) + imageExtension;
      ParseRelativeTilePath(rel, imageExtension) == Some((zoomLvl, row, col))
  {
    var Z, R, C := IntToString(zoomLvl), IntToString(row), IntToString(col);
    IntToStringAvoids(zoomLvl, Separator);
    IntToStringAvoids(row, Separator);
    var rest := R + [Separator] + C + imageExtension;
    var rel := Z + [Separator] + R + [Separator] + C + imageExtension;
    assert rel == Z + [Separator] + rest;
    SplitAtFirstOf(Z, Separator, rest);
    assert rest == R + [Separator] + (C + imageExtension);
    SplitAtFirstOf(R, Separator, C + imageExtension);
    StripAppended(C, imageExtension);
    assert SplitAtFirst(rel, Separator) == Some((Z, rest));
    assert SplitAtFirst(rest, Separator) == Some((R, C + imageExtension));
    assert StripSuffix(C + imageExtension, imageExtension) == Some(C);
    IntRoundTrip(zoomLvl);
    IntRoundTrip(row);
    IntRoundTrip(col);
  }

  /** Different tiles of one map are read from different files. */
  lemma DistinctTilesDistinctFiles(p: MapViewTileStreamProvider, r1: int, c1: int, z1: int, r2: int, c2: int, z2: int)
    ensures TileFile(p, r1, c1, z1) == TileFile(p, r2, c2, z2) <==> (r1, c1, z1) == (r2, c2, z2)
  {
  }

  /** `toMapViewTileStreamProvider()`'s `getTileStream(row, col, zoomLvl)`: the
      inner provider's stream if it answered with one, else null. */
  function AdaptedGetTileStream(inner: TileFetcher, row: int, col: int, zoomLvl: int): (r: Option<InputStream>)
    ensures r.Some? <==> inner(row, col, zoomLvl).TileStream?
    ensures inner(row, col, zoomLvl).TileStream? ==> r == Some(inner(row, col, zoomLvl).tileStream)
  {
    match inner(row, col, zoomLvl)
    case TileStream(s) => Some(s)
    case _ => None
  }

  /** The Spain IGN provider seen through the adapter: null for every address
      outside its coverage, and otherwise the base provider's stream, if any. */
  lemma AdaptedIgnSpain(base: TileFetcher, row: int, col: int, zoomLvl: int)
    ensures var viewed := (r: int, c: int, z: int) => IgnSpain.GetTileStream(base, r, c, z).result;
      && (!IgnSpain.Served(row, col, zoomLvl) ==> AdaptedGetTileStream(viewed, row, col, zoomLvl) == None)
      && (IgnSpain.Served(row, col, zoomLvl) ==>
            AdaptedGetTileStream(viewed, row, col, zoomLvl) == AdaptedGetTileStream(base, row, col, zoomLvl))
  {
    IgnSpain.GetTileStreamCoverage(base, row, col, zoomLvl);
  }
}
