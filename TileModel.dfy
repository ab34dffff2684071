/** The tile-level values shared by the providers and their callers:
    the outcome of fetching one tile, and a map as the tile view sees it. */
module TileModel {
  import opened Files

  /** An open byte stream; ownership passes to whoever receives it. */
  datatype InputStream = InputStream(bytes: seq<bv8>)

  /** The outcome of `TileStreamProvider.getTileStream`. */
  datatype TileResult =
    | TileStream(tileStream: InputStream)
    | OutOfBounds
    | FetchError(message: string)

  /** A `TileStreamProvider.getTileStream` as a function of (row, col, zoomLvl). */
  type TileFetcher = (int, int, int) -> TileResult

  /** Where a map's tiles come from. */
  datatype MapOrigin = VIPS | IGN_LICENSED | UNDEFINED

  /** The fields of a map that the tile view and the license check read. */
  datatype Map = Map(id: int, origin: MapOrigin, directory: Path, imageExtension: string)
}
