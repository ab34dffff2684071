/** The tile stream provider for Spain's IGN: a coverage filter in front of
    a wrapped base provider. */
module TileStreamProviderIgnSpain {
  import opened Wrappers
  import opened TileModel

  /** Inclusive row and column ranges known to hold tiles. */
  datatype Window = Window(rowMin: int, rowMax: int, colMin: int, colMax: int)
  {
    predicate Contains(row: int, col: int)
    {
      rowMin <= row <= rowMax && colMin <= col <= colMax
    }
  }

  /** The hand-written coverage table: zoom levels 3 to 6 only. */
  function CoverageWindow(zoomLvl: int): Option<Window>
  {
    match zoomLvl
    case 3 => Some(Window(1, 3, 2, 4))
    case 4 => Some(Window(3, 6, 5, 9))
    case 5 => Some(Window(7, 13, 11, 19))
    case 6 => Some(Window(19, 27, 27, 35))
    case _ => None
  }

  /** The safeguard: no level above this one is ever fetched. */
  const MaxZoom: int := 17

  /** What one call of `getTileStream` returns, with the calls it made to the
      base provider, as (row, col, zoomLvl), in order. */
  datatype Fetched = Fetched(result: TileResult, baseCalls: seq<(int, int, int)>)

  /** `getTileStream(row, col, zoomLvl)`. The base is the wrapped
      `TileStreamProviderRetry(TileStreamProviderHttp(urlTileBuilder))`, whose
      behaviour is not part of this model. */
  function GetTileStream(base: TileFetcher, row: int, col: int, zoomLvl: int): (f: Fetched)
    ensures |f.baseCalls| <= 1
    ensures f.baseCalls == [] ==> f.result == OutOfBounds
    ensures f.baseCalls != [] ==>
      f.baseCalls == [(row, col, zoomLvl)] && f.result == base(row, col, zoomLvl)
  {
    var window := CoverageWindow(zoomLvl);
    if window.Some? && !window.value.Contains(row, col) then Fetched(OutOfBounds, [])
    else if zoomLvl > MaxZoom then Fetched(OutOfBounds, [])
    else Fetched(base(row, col, zoomLvl), [(row, col, zoomLvl)])
  }

  /** The coverage described level by level, independently of the table. */
  predicate Served(row: int, col: int, zoomLvl: int)
  {
    && (zoomLvl == 3 ==> 1 <= row <= 3 && 2 <= col <= 4)
    && (zoomLvl == 4 ==> 3 <= row <= 6 && 5 <= col <= 9)
    && (zoomLvl == 5 ==> 7 <= row <= 13 && 11 <= col <= 19)
    && (zoomLvl == 6 ==> 19 <= row <= 27 && 27 <= col <= 35)
    && zoomLvl <= 17
  }

  /** The base is asked for a tile exactly when the address is served, and then
      it is asked once, with the same row, col and level, and its answer is
      returned unchanged; otherwise the answer is OutOfBounds and the base is
      never called. Zoom levels 2 and below, and 7 to 17, are always served. */
  lemma GetTileStreamCoverage(base: TileFetcher, row: int, col: int, zoomLvl: int)
    ensures Served(row, col, zoomLvl) ==>
      GetTileStream(base, row, col, zoomLvl) == Fetched(base(row, col, zoomLvl), [(row, col, zoomLvl)])
    ensures !Served(row, col, zoomLvl) ==>
      GetTileStream(base, row, col, zoomLvl) == Fetched(OutOfBounds, [])
    ensures (zoomLvl <= 2 || 7 <= zoomLvl <= 17) ==> Served(row, col, zoomLvl)
  {
  }

  /** Above level 17 the answer is OutOfBounds for every row and column, with
      no call to the base. */
  lemma AboveMaxZoom(base: TileFetcher, row: int, col: int, zoomLvl: int)
    requires zoomLvl > MaxZoom
    ensures GetTileStream(base, row, col, zoomLvl) == Fetched(OutOfBounds, [])
  {
  }

  /** Level by level, the addresses refused without a call to the base. */
  lemma LowZoomWindows(base: TileFetcher, row: int, col: int)
    ensures GetTileStream(base, row, col, 3).baseCalls == [] <==> row < 1 || row > 3 || col < 2 || col > 4
    ensures GetTileStream(base, row, col, 4).baseCalls == [] <==> row < 3 || row > 6 || col < 5 || col > 9
    ensures GetTileStream(base, row, col, 5).baseCalls == [] <==> row < 7 || row > 13 || col < 11 || col > 19
    ensures GetTileStream(base, row, col, 6).baseCalls == [] <==> row < 19 || row > 27 || col < 27 || col > 35
  {
  }

  /** The filter never depends on the base: two bases give the same verdict. */
  lemma FilterIgnoresBase(b1: TileFetcher, b2: TileFetcher, row: int, col: int, zoomLvl: int)
    ensures GetTileStream(b1, row, col, zoomLvl).baseCalls == GetTileStream(b2, row, col, zoomLvl).baseCalls
  {
  }
}
