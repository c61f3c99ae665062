/** Tile sources and the tiles overlays that draw them, as far as the map
    view and the sample setups need them. */
module TileSources {
  import opened Wrappers

  /** The arguments a bitmap tile source is built from. */
  datatype TileSourceParams = TileSourceParams(
    name: string, zoomMinLevel: int, zoomMaxLevel: int, tileSizePixels: int, imageFilenameEnding: string)

  /** Android's `Color.TRANSPARENT`. */
  const TRANSPARENT: int := 0

  /** A tiles overlay over a provider of the given source. A colour left at
      the overlay's own default is `None`. */
  datatype Overlay = TilesOverlay(tileSource: TileSourceParams, loadingBackgroundColor: Option<int>, loadingLineColor: Option<int>)
}
