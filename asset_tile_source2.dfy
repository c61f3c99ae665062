/** The second copy of the sample asset tile source. Its tile path and its
    null-path guard are the same as `AssetTileSource`'s and are not repeated
    here; its setup differs: it leaves the configuration alone and sets only
    the overlay's loading background. */
module AssetTileSource2 {
  import opened Wrappers
  import opened TileSources
  import opened MapViews
  import AssetTileSource

  /** `setupCustomTilesOverlays`: adds one tiles overlay over the custom
      source with a transparent loading background and the default loading
      lines, and nothing else. */
  method SetupCustomTilesOverlays(mapView: MapView)
    modifies mapView`overlays
    ensures mapView.overlays == old(mapView.overlays) + [TilesOverlay(AssetTileSource.CustomTileSource(), Some(TRANSPARENT), None)]
  {
    var source := AssetTileSource.CustomTileSource();
    var overlay := TilesOverlay(source, Some(TRANSPARENT), None);
    mapView.AddOverlay(overlay);
  }
}
