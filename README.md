# osmdroid map-view core, modelled in Dafny

This project models the self-contained state rules of osmdroid's Android map view. It covers:

- the zoom level and its limits, the zoom `zoomToBoundingBox` settles on, and the placement of child views;
- the one-shot first-layout listeners, map listeners and scroll limits, in both `MapView` and its near-copy `MapViewKt`;
- the on-map zoom buttons' controller;
- three small accumulators: the `IntegerAccepter` integer buffer, the mutable `PointL` point, and the vertex and middle milestone listers;
- the tile path and setup of the two sample asset tile sources;
- the tile provider's time constants and the lazy configuration singleton.

Kotlin and Java integer semantics are written out in `JavaInt`:

- `Long`, `Int` and `Short` wrap around;
- division truncates toward zero;
- `Double.MIN_VALUE` is the smallest positive double, 2^-1074.

Zoom levels are doubles, but only compared and clamped, so they are `real`s.

Code that updates objects in place is modelled as classes with `modifies` frames:

- the views;
- the zoom-button controller;
- the accumulators;
- the configuration holder and provider.

Each such class is tied to a pure step function or an abstraction function. The properties are proved about that function.

Several things are parameters, not computed:

- answers the view gets from its projection: the current centre, whether re-centring moved it, and where a child's anchor projects;
- the zoom computed for a bounding box;
- the display's hit tests;
- the clock;
- a segment's orientation;
- the app's external files directory.

| module | models |
|---|---|
| `JavaInt` | JVM integer arithmetic |
| `Viewport` | zoom clamping, bounding-box zoom, layout parameters and alignment, listener broadcast and removal |
| `ZoomButtons` | `CustomZoomButtonsController` |
| `MapViews` | `MapView` |
| `MapViewsKt` | `MapViewKt` |
| `IntegerAccepters` | `IntegerAccepter` |
| `Points` | `PointL` |
| `Milestones` | `MilestoneVertexLister`, `MilestoneMiddleLister`, `MilestoneStep` |
| `TileSources` | tile-source parameters and the tiles overlay |
| `AssetTileSource`, `AssetTileSource2` | the two sample `AssetsTileSource` files |
| `Configurations` | `Configuration` and the three provider settings used |
| `TileProviderConstants` | `OpenStreetMapTileProviderConstants` |

The doc comments of `setMinZoomLevel` and `setMaxZoomLevel` say "pass null" to fall back to the tile provider's limit. The parameter is a non-null `Double`, so an override, once set, can only be replaced. The model follows the code.

The sample setup in `AssetsTileSource.kt` writes `60000.toShort()`, which is -5536. The model keeps that value, and `AssetTileSource.TileCountNarrowing` states it.

## Model

| member | source | states |
|---|---|---|
| `JavaInt.WrapLong` | osmdroid-android/src/main/java/org/osmdroid/util/PointL.java:34-37 | the `Long` result of an exact sum: in the `Long` range, congruent to it modulo 2^64, and the sum itself when that fits |
| `JavaInt.WrapInt` | osmdroid-android/src/main/java/org/osmdroid/util/IntegerAccepter.kt:22 | the `Int` result of `mIndex++` and of `Long.toInt()`: in the `Int` range, congruent modulo 2^32, unchanged when it fits |
| `JavaInt.ToShort` | osmdroid-simple-map/src/main/java/org/osmdroid/sample/tiles/AssetsTileSource.kt:44-45 | `Int.toShort()`: a `Short`, congruent modulo 2^16, unchanged when it fits |
| `JavaInt.TruncDiv` | osmdroid-android/src/main/java/org/osmdroid/views/overlay/milestones/MilestoneMiddleLister.kt:22-23 | JVM division: the remainder has the sign of the dividend and is smaller than the divisor in magnitude (rounding toward zero) |
| `Viewport.ZoomLimit` | osmdroid-android/src/main/java/org/osmdroid/views/MapView.kt:528-537 | a zoom limit is the override when one is set, otherwise the tiles overlay's limit |
| `Viewport.ClampZoom` | osmdroid-android/src/main/java/org/osmdroid/views/MapView.kt:385 | the stored zoom is at least the minimum; it lies in [min, max] when min <= max; a request inside is kept, one below gives min, one above gives max; with min > max it is min |
| `Viewport.ClampZoomIdempotent` | osmdroid-android/src/main/java/org/osmdroid/views/MapView.kt:384-396 | clamping an already clamped zoom changes nothing |
| `Viewport.ZoomButtonsAfterClamp` | osmdroid-android/src/main/java/org/osmdroid/views/MapView.kt:555-561 | after a clamp, `canZoomIn` holds iff the request was below the maximum and min < max; `canZoomOut` iff it was above the minimum and min < max |
| `Viewport.BoundingBoxZoom` | osmdroid-android/src/main/java/org/osmdroid/views/MapView.kt:454-458 | the bounding-box zoom is at most the maximum and at least the minimum when min <= max; the sentinel or an over-maximum zoom becomes `pMaximumZoom`; an in-range computed zoom is kept |
| `Viewport.BoundingBoxZoomIsClamp` | osmdroid-android/src/main/java/org/osmdroid/views/MapView.kt:455-458 | with min <= max the bounding-box zoom equals the `setZoomLevel` clamp of the sentinel-replaced zoom |
| `Viewport.ClampOrdersDisagree` | osmdroid-android/src/main/java/org/osmdroid/views/MapView.kt:458 | with min > max the bounding-box zoom is the maximum while `setZoomLevel` yields the minimum |
| `Viewport.SentinelIsTinyPositive` | osmdroid-android/src/main/java/org/osmdroid/views/MapView.kt:454 | `Double.MIN_VALUE` is 2^-1074, strictly between 0 and 1, so a zero zoom is not the sentinel |
| `Viewport.NewLayoutParams` | osmdroid-android/src/main/java/org/osmdroid/views/MapView.kt:1490-1506 | the six-argument constructor stores every argument, with a null anchor replaced by (0, 0) |
| `Viewport.LayoutParamsFromAttributes` | osmdroid-android/src/main/java/org/osmdroid/views/MapView.kt:1516-1519 | the XML constructor anchors at (0, 0), bottom-centred, with no offset |
| `Viewport.LayoutParamsFromSource` | osmdroid-android/src/main/java/org/osmdroid/views/MapView.kt:1521 | the copying constructor keeps only the size; anchor null and alignment 0, which matches no case |
| `Viewport.DefaultLayoutParams` | osmdroid-android/src/main/java/org/osmdroid/views/MapView.kt:798-807 | default parameters: wrap content in both directions, bottom-centred on (0, 0), no offset |
| `Viewport.AlignmentIsGrid` | osmdroid-android/src/main/java/org/osmdroid/views/MapView.kt:872-917 | the nine alignments are a 3x3 grid: column (a-1)%3 shifts left by 0, w/2 or w, row (a-1)/3 shifts up by 0, h/2 or h, both after the padding |
| `Viewport.UnknownAlignmentIgnoresPadding` | osmdroid-android/src/main/java/org/osmdroid/views/MapView.kt:869-870 | an alignment outside 1..9 leaves the corner at the anchor pixel, with no padding |
| `Viewport.ChildFrame` | osmdroid-android/src/main/java/org/osmdroid/views/MapView.kt:918-925 | the frame is exactly the child's measured size; for an unknown alignment its corner is anchor plus offsets |
| `Viewport.AnchorWithinFrame` | osmdroid-android/src/main/java/org/osmdroid/views/MapView.kt:872-925 | for a known alignment and non-negative size, the padded and offset anchor lies on the frame |
| `Viewport.ChildFrameFitsLong` | osmdroid-android/src/main/java/org/osmdroid/views/MapView.kt:866-925 | with `Int` inputs no `Long` sum of the frame computation wraps |
| `Viewport.LayoutChildren` | osmdroid-android/src/main/java/org/osmdroid/views/MapView.kt:852-927 | the child loop gives one frame per child in order, none exactly for GONE children, each the child's `ChildFrame` |
| `Viewport.Broadcast` | osmdroid-android/src/main/java/org/osmdroid/views/MapView.kt:1107-1110 | one callback per listener, in registration order, all carrying the same event |
| `Viewport.Notify` | osmdroid-android/src/main/java/org/osmdroid/views/MapView.kt:416-419 | the listener loop makes exactly the `Broadcast` callbacks |
| `Viewport.RemoveFirst` | osmdroid-android/src/main/java/org/osmdroid/views/MapView.kt:946-948 | `remove(o)` drops one occurrence (length minus one, same multiset minus `o`) and is the identity when `o` is absent |
| `Viewport.RemoveFirstDropsFirstOccurrence` | osmdroid-android/src/main/java/org/osmdroid/views/MapView.kt:946-948 | the occurrence `remove(o)` drops is the first one: the result is the list before it followed by the list after it, order kept |
| `Viewport.RemoveAfterAdd` | osmdroid-android/src/main/java/org/osmdroid/views/MapView.kt:941-948 | adding a listener that was not registered and then removing it restores the list |
| `ZoomButtons.Initial` | osmdroid-android/src/main/java/org/osmdroid/views/CustomZoomButtonsController.kt:18-27 | a new controller: NEVER visible, alpha 0, not just activated, not detached, no listener, both directions disabled, 3500 ms show delay, 500 ms fade-out |
| `ZoomButtons.VisibilityStep` | osmdroid-android/src/main/java/org/osmdroid/views/CustomZoomButtonsController.kt:80-86 | `setVisibility` stores the visibility; alpha is 1 exactly for ALWAYS and 0 otherwise; nothing else changes |
| `ZoomButtons.ActivateStep` | osmdroid-android/src/main/java/org/osmdroid/views/CustomZoomButtonsController.kt:129-145 | `activate` changes nothing when detached or not SHOW_AND_FADEOUT; otherwise alpha 1, activation time now, the flag set iff it was clear and alpha was 0, nothing else |
| `ZoomButtons.CheckJustActivatedStep` | osmdroid-android/src/main/java/org/osmdroid/views/CustomZoomButtonsController.kt:157-163 | returns the old flag and leaves it clear, changing nothing else |
| `ZoomButtons.TouchStep` | osmdroid-android/src/main/java/org/osmdroid/views/CustomZoomButtonsController.kt:165-185 | hidden buttons ignore a tap; the first tap after appearing only clears the flag; otherwise a hit is consumed; `onZoom(true)` iff zoom-in hit, enabled and listened to; `onZoom(false)` iff zoom-out hit (not zoom-in), enabled and listened to |
| `ZoomButtons.DetachedIsPermanent` | osmdroid-android/src/main/java/org/osmdroid/views/CustomZoomButtonsController.kt:94-97 | once detached, no sequence of operations clears the latch |
| `ZoomButtons.DetachedIgnoresActivation` | osmdroid-android/src/main/java/org/osmdroid/views/CustomZoomButtonsController.kt:130-132 | once detached, any number of activations leave the state unchanged |
| `ZoomButtons.AlphaStaysBinary` | osmdroid-android/src/main/java/org/osmdroid/views/CustomZoomButtonsController.kt:80-145 | outside the animator every operation keeps alpha at 0 or 1 |
| `ZoomButtons.FirstTapAfterAppearing` | osmdroid-android/src/main/java/org/osmdroid/views/CustomZoomButtonsController.kt:136-171 | after an activation that shows hidden buttons, the first tap is swallowed and the second is dispatched |
| `ZoomButtons.ActivateTwiceClearsFlag` | osmdroid-android/src/main/java/org/osmdroid/views/CustomZoomButtonsController.kt:137-141 | a second activation with no tap between clears the just-activated flag |
| `ZoomButtons.CustomZoomButtonsController.constructor` | osmdroid-android/src/main/java/org/osmdroid/views/CustomZoomButtonsController.kt:19-27 | the fields start in the `Initial` state and no zoom call has been made |
| `ZoomButtons.CustomZoomButtonsController.SetZoomInEnabled` | osmdroid-android/src/main/java/org/osmdroid/views/CustomZoomButtonsController.kt:68-70 | sets only the zoom-in flag |
| `ZoomButtons.CustomZoomButtonsController.SetZoomOutEnabled` | osmdroid-android/src/main/java/org/osmdroid/views/CustomZoomButtonsController.kt:72-74 | sets only the zoom-out flag |
| `ZoomButtons.CustomZoomButtonsController.SetOnZoomListener` | osmdroid-android/src/main/java/org/osmdroid/views/CustomZoomButtonsController.kt:76-78 | sets only the listener |
| `ZoomButtons.CustomZoomButtonsController.SetVisibility` | osmdroid-android/src/main/java/org/osmdroid/views/CustomZoomButtonsController.kt:80-86 | the new state is `VisibilityStep` of the old |
| `ZoomButtons.CustomZoomButtonsController.SetShowFadeOutDelays` | osmdroid-android/src/main/java/org/osmdroid/views/CustomZoomButtonsController.kt:88-92 | sets only the two delays |
| `ZoomButtons.CustomZoomButtonsController.OnDetach` | osmdroid-android/src/main/java/org/osmdroid/views/CustomZoomButtonsController.kt:94-97 | sets only the detached latch |
| `ZoomButtons.CustomZoomButtonsController.Activate` | osmdroid-android/src/main/java/org/osmdroid/views/CustomZoomButtonsController.kt:129-145 | the new state is `ActivateStep` of the old |
| `ZoomButtons.CustomZoomButtonsController.CheckJustActivated` | osmdroid-android/src/main/java/org/osmdroid/views/CustomZoomButtonsController.kt:157-163 | result and new state are `CheckJustActivatedStep` of the old state |
| `ZoomButtons.CustomZoomButtonsController.IsTouched` | osmdroid-android/src/main/java/org/osmdroid/views/CustomZoomButtonsController.kt:165-185 | result and new state are `TouchStep`'s; exactly the `onZoom` call it names is recorded |
| `MapViews.MapView.constructor` | osmdroid-android/src/main/java/org/osmdroid/views/MapView.kt:147-183 | a new view: zoom 0, no overrides, limits off, no listeners or layout; its controller listens to the view, has its buttons enabled as `canZoomIn`/`canZoomOut` say and shows on activation |
| `MapViews.MapView.MinZoomLevel` | osmdroid-android/src/main/java/org/osmdroid/views/MapView.kt:528-530 | the minimum override if set, else the overlay's minimum |
| `MapViews.MapView.MaxZoomLevel` | osmdroid-android/src/main/java/org/osmdroid/views/MapView.kt:536-537 | the maximum override if set, else the overlay's maximum |
| `MapViews.MapView.SetMinZoomLevel` | osmdroid-android/src/main/java/org/osmdroid/views/MapView.kt:543-545 | the override is set and `MinZoomLevel` returns it |
| `MapViews.MapView.SetMaxZoomLevel` | osmdroid-android/src/main/java/org/osmdroid/views/MapView.kt:551-553 | the override is set and `MaxZoomLevel` returns it |
| `MapViews.MapView.CheckZoomButtons` | osmdroid-android/src/main/java/org/osmdroid/views/MapView.kt:1267-1270 | each button is enabled exactly when the view can zoom that way; nothing else in the controller changes |
| `MapViews.MapView.SetZoomLevel` | osmdroid-android/src/main/java/org/osmdroid/views/MapView.kt:384-423 | the stored and returned zoom is the clamp; a change stops flinging; a layout pauses flinging; the centre is re-set with scroll (0, 0); listeners hear a scroll if the centre moved, then one shared zoom event only if the zoom changed; the buttons follow |
| `MapViews.MapView.BoundingBoxZoomChoice` | osmdroid-android/src/main/java/org/osmdroid/views/MapView.kt:442-490 | the settled zoom is at most the maximum, at least the minimum when min <= max, and the sentinel gives `pMaximumZoom` when that is in range |
| `MapViews.MapView.DefaultBoundingBoxZoomChoice` | osmdroid-android/src/main/java/org/osmdroid/views/MapView.kt:492-494 | with the view's own maximum and min <= max, the choice is the `setZoomLevel` clamp with the sentinel read as the maximum |
| `MapViews.MapView.ResetScrollableAreaLimitLatitude` | osmdroid-android/src/main/java/org/osmdroid/views/MapView.kt:689-691 | the latitude limit is off and its bounds are kept |
| `MapViews.MapView.ResetScrollableAreaLimitLongitude` | osmdroid-android/src/main/java/org/osmdroid/views/MapView.kt:693-695 | the longitude limit is off and its bounds are kept |
| `MapViews.MapView.SetScrollableAreaLimitLatitude` | osmdroid-android/src/main/java/org/osmdroid/views/MapView.kt:713-722 | the latitude limit is on with the given north, south and extra pixels |
| `MapViews.MapView.SetScrollableAreaLimitLongitude` | osmdroid-android/src/main/java/org/osmdroid/views/MapView.kt:731-740 | the longitude limit is on with the given west, east and extra pixels |
| `MapViews.MapView.SetScrollableAreaLimitDouble` | osmdroid-android/src/main/java/org/osmdroid/views/MapView.kt:679-687 | a null box turns both limits off keeping their bounds; a box turns both on with its four bounds and 0 extra pixels |
| `MapViews.MapView.SetMapScroll` | osmdroid-android/src/main/java/org/osmdroid/views/MapView.kt:1615-1619 | stores both coordinates exactly and nothing else |
| `MapViews.MapView.SetExpectedCenter` | osmdroid-android/src/main/java/org/osmdroid/views/MapView.kt:1638-1651 | records the centre, sets the scroll to the wrapped negated offsets, and tells listeners of a scroll to (0, 0) iff the centre moved |
| `MapViews.MapView.ScrollTo` | osmdroid-android/src/main/java/org/osmdroid/views/MapView.kt:1098-1111 | moves to (x, y) and gives every map listener one shared scroll event |
| `MapViews.MapView.ScrollBy` | osmdroid-android/src/main/java/org/osmdroid/views/MapView.kt:1114-1116 | moves to the `Long` sum cut to `Int`, and notifies as `scrollTo` does |
| `MapViews.MapView.MyOnLayout` | osmdroid-android/src/main/java/org/osmdroid/views/MapView.kt:842-934 | every child is placed by `FrameOf`; the first layout calls each pending first-layout listener once with the bounds, clears them and latches the flag; later layouts call nobody |
| `MapViews.MapView.AddOnFirstLayoutListener` | osmdroid-android/src/main/java/org/osmdroid/views/MapView.kt:941-944 | a listener is appended only before the first layout |
| `MapViews.MapView.RemoveOnFirstLayoutListener` | osmdroid-android/src/main/java/org/osmdroid/views/MapView.kt:946-948 | removes the first occurrence; null changes nothing |
| `MapViews.MapView.AddMapListener` | osmdroid-android/src/main/java/org/osmdroid/views/MapView.kt:1242-1253 | `setMapListener` and `addMapListener` append the listener |
| `MapViews.MapView.RemoveMapListener` | osmdroid-android/src/main/java/org/osmdroid/views/MapView.kt:1260-1262 | removes the first occurrence; null changes nothing |
| `MapViews.MapView.AddOverlay` | osmdroid-android/src/main/java/org/osmdroid/views/MapView.kt:203-205 | adding to the overlay list appends |
| `MapViews.ReapplyCurrentZoom` | osmdroid-android/src/main/java/org/osmdroid/views/MapView.kt:388-419 | re-setting the current in-range zoom changes no zoom and sends no zoom event |
| `MapViews.FirstLayoutListenerCalledOnce` | osmdroid-android/src/main/java/org/osmdroid/views/MapView.kt:928-944 | over any `n >= 1` layouts, with the listener registered again before each of them, the listener is called exactly once (by the first layout) and the listener list ends empty |
| `MapViewsKt.MapViewKt.constructor` | osmdroid-android/src/main/java/org/osmdroid/views/MapViewKt.kt:172-215 | as for `MapView`: zoom 0, no overrides, limits off, no layout; the controller listens to the view, follows `canZoomIn`/`canZoomOut` and shows on activation |
| `MapViewsKt.MapViewKt.MinZoomLevel` | osmdroid-android/src/main/java/org/osmdroid/views/MapViewKt.kt:556-558 | the minimum override if set, else the overlay's minimum |
| `MapViewsKt.MapViewKt.MaxZoomLevel` | osmdroid-android/src/main/java/org/osmdroid/views/MapViewKt.kt:563-565 | the maximum override if set, else the overlay's maximum |
| `MapViewsKt.MapViewKt.SetMinZoomLevel` | osmdroid-android/src/main/java/org/osmdroid/views/MapViewKt.kt:571-573 | the override is set and `MinZoomLevel` returns it |
| `MapViewsKt.MapViewKt.SetMaxZoomLevel` | osmdroid-android/src/main/java/org/osmdroid/views/MapViewKt.kt:579-581 | the override is set and `MaxZoomLevel` returns it |
| `MapViewsKt.MapViewKt.CheckZoomButtons` | osmdroid-android/src/main/java/org/osmdroid/views/MapViewKt.kt:1022-1025 | each button is enabled exactly when the view can zoom that way |
| `MapViewsKt.MapViewKt.SetZoomLevel` | osmdroid-android/src/main/java/org/osmdroid/views/MapViewKt.kt:411-450 | the same clamp, fling, re-centring, notification and button rules as `MapView.SetZoomLevel` |
| `MapViewsKt.MapViewKt.BoundingBoxZoomChoice` | osmdroid-android/src/main/java/org/osmdroid/views/MapViewKt.kt:469-517 | the settled zoom is at most the maximum, at least the minimum when min <= max, and the sentinel gives `pMaximumZoom` when in range |
| `MapViewsKt.MapViewKt.DefaultBoundingBoxZoomChoice` | osmdroid-android/src/main/java/org/osmdroid/views/MapViewKt.kt:519-521 | with min <= max, the `setZoomLevel` clamp with the sentinel read as the maximum |
| `MapViewsKt.MapViewKt.ResetScrollableAreaLimitLatitude` | osmdroid-android/src/main/java/org/osmdroid/views/MapViewKt.kt:718-720 | the latitude limit is off and its bounds are kept |
| `MapViewsKt.MapViewKt.ResetScrollableAreaLimitLongitude` | osmdroid-android/src/main/java/org/osmdroid/views/MapViewKt.kt:722-724 | the longitude limit is off and its bounds are kept |
| `MapViewsKt.MapViewKt.SetScrollableAreaLimitLatitude` | osmdroid-android/src/main/java/org/osmdroid/views/MapViewKt.kt:742-751 | the latitude limit is on with the given bounds and extra pixels |
| `MapViewsKt.MapViewKt.SetScrollableAreaLimitLongitude` | osmdroid-android/src/main/java/org/osmdroid/views/MapViewKt.kt:760-769 | the longitude limit is on with the given bounds and extra pixels |
| `MapViewsKt.MapViewKt.SetScrollableAreaLimitDouble` | osmdroid-android/src/main/java/org/osmdroid/views/MapViewKt.kt:708-716 | null turns both limits off; a box turns both on with its bounds and 0 extra pixels |
| `MapViewsKt.MapViewKt.SetMapScroll` | osmdroid-android/src/main/java/org/osmdroid/views/MapViewKt.kt:986-990 | stores both coordinates exactly and nothing else |
| `MapViewsKt.MapViewKt.SetExpectedCenter` | osmdroid-android/src/main/java/org/osmdroid/views/MapViewKt.kt:997-1010 | records the centre, sets the wrapped negated offsets, and notifies a scroll iff the centre moved |
| `MapViewsKt.MapViewKt.MyOnLayout` | osmdroid-android/src/main/java/org/osmdroid/views/MapViewKt.kt:871-963 | children placed by the same alignment table; the first layout calls the pending listeners once, clears them and latches the flag |
| `MapViewsKt.ZoomChangesAreUnheard` | osmdroid-android/src/main/java/org/osmdroid/views/MapViewKt.kt:141 | with no way to fill the listener list, zoom changes notify nobody |
| `IntegerAccepters.AddStep` | osmdroid-android/src/main/java/org/osmdroid/util/IntegerAccepter.kt:21-23 | an add writes its value at the cursor when in bounds, keeps every other slot and the length, and advances the cursor by one |
| `IntegerAccepters.AddAllFrom` | osmdroid-android/src/main/java/org/osmdroid/util/IntegerAccepter.kt:21-23 | adds with room for all of them write their values in order from the cursor and leave the rest |
| `IntegerAccepters.ReadBackAfterInit` | osmdroid-android/src/main/java/org/osmdroid/util/IntegerAccepter.kt:17-27 | after `init` and k adds, slot j holds the j-th value for j < k and later slots keep their old contents |
| `IntegerAccepters.AddWhenFull` | osmdroid-android/src/main/java/org/osmdroid/util/IntegerAccepter.kt:22 | an add with the cursor at the end changes no slot but still advances the cursor |
| `IntegerAccepters.IntegerAccepter.constructor` | osmdroid-android/src/main/java/org/osmdroid/util/IntegerAccepter.kt:9-15 | `pSize` zeroed slots with the cursor at 0 |
| `IntegerAccepters.IntegerAccepter.Init` | osmdroid-android/src/main/java/org/osmdroid/util/IntegerAccepter.kt:17-19 | the cursor is 0 and the contents are kept |
| `IntegerAccepters.IntegerAccepter.Add` | osmdroid-android/src/main/java/org/osmdroid/util/IntegerAccepter.kt:21-23 | the new state is `AddStep` of the old; the outcome says whether the store was in bounds |
| `IntegerAccepters.IntegerAccepter.GetValue` | osmdroid-android/src/main/java/org/osmdroid/util/IntegerAccepter.kt:25-27 | a value exactly for an index in bounds, the slot's content |
| `IntegerAccepters.IntegerAccepter.End` | osmdroid-android/src/main/java/org/osmdroid/util/IntegerAccepter.kt:29 | nothing changes |
| `IntegerAccepters.IntegerAccepter.Flush` | osmdroid-android/src/main/java/org/osmdroid/util/IntegerAccepter.kt:30-32 | the cursor is 0 and the contents are kept |
| `Points.PointL.Origin` | osmdroid-android/src/main/java/org/osmdroid/util/PointL.java:12-13 | the no-argument point is (0, 0) |
| `Points.PointL.constructor` | osmdroid-android/src/main/java/org/osmdroid/util/PointL.java:15-18 | stores exactly pX and pY |
| `Points.PointL.Copy` | osmdroid-android/src/main/java/org/osmdroid/util/PointL.java:20-22 | the copy has the other point's coordinates |
| `Points.PointL.Set` | osmdroid-android/src/main/java/org/osmdroid/util/PointL.java:24-27 | takes the other point's coordinates, also when it is the same point |
| `Points.PointL.SetXY` | osmdroid-android/src/main/java/org/osmdroid/util/PointL.java:29-32 | overwrites both coordinates |
| `Points.PointL.Offset` | osmdroid-android/src/main/java/org/osmdroid/util/PointL.java:34-37 | adds the deltas with 64-bit wrap-around |
| `Points.EqualsIsSameCoordinates` | osmdroid-android/src/main/java/org/osmdroid/util/PointL.java:44-54 | `equals` holds iff the other object is a `PointL` with the same x and y (so never for null or another class) |
| `Points.EqualsIsReflexiveAndSymmetric` | osmdroid-android/src/main/java/org/osmdroid/util/PointL.java:44-54 | `equals` is reflexive and symmetric |
| `Points.EqualsIsTransitive` | osmdroid-android/src/main/java/org/osmdroid/util/PointL.java:53 | `equals` is transitive |
| `Points.OffsetUndone` | osmdroid-android/src/main/java/org/osmdroid/util/PointL.java:35-36 | adding d and then the wrapped negation of d restores a coordinate, wrap-around included |
| `Points.OffsetThereAndBack` | osmdroid-android/src/main/java/org/osmdroid/util/PointL.java:34-37 | offsetting a point and then offsetting it back restores it |
| `Milestones.VertexAdd` | osmdroid-android/src/main/java/org/osmdroid/views/overlay/milestones/MilestoneVertexLister.kt:13-18 | `add` emits the start point with the current rank and that segment's orientation, remembers the end point and orientation, and increments the rank |
| `Milestones.VertexEnd` | osmdroid-android/src/main/java/org/osmdroid/views/overlay/milestones/MilestoneVertexLister.kt:20-23 | `end` emits the latest end point with the negated rank and the latest orientation, changing nothing else |
| `Milestones.ListedVertices` | osmdroid-android/src/main/java/org/osmdroid/views/overlay/milestones/MilestoneVertexLister.kt:13-23 | the reference list has one step per segment plus one |
| `Milestones.VertexAddAllFrom` | osmdroid-android/src/main/java/org/osmdroid/views/overlay/milestones/MilestoneVertexLister.kt:13-18 | adds from rank k emit ranks k, k+1, ... at the segment starts and leave the last end point as the latest |
| `Milestones.VertexListing` | osmdroid-android/src/main/java/org/osmdroid/views/overlay/milestones/MilestoneVertexLister.kt:8-23 | `init`, n adds and `end` emit exactly ranks 0..n-1 at the starts and -n at the last end (rank 0 at the stored point when n = 0) |
| `Milestones.MilestoneVertexLister.constructor` | osmdroid-android/src/main/java/org/osmdroid/views/overlay/milestones/MilestoneVertexLister.kt:4-7 | all fields start at zero and no step is emitted |
| `Milestones.MilestoneVertexLister.Init` | osmdroid-android/src/main/java/org/osmdroid/views/overlay/milestones/MilestoneVertexLister.kt:8-11 | the rank is reset to 0; the base class's `super.init()` is not modelled, so the model leaves the step list as it was |
| `Milestones.MilestoneVertexLister.Add` | osmdroid-android/src/main/java/org/osmdroid/views/overlay/milestones/MilestoneVertexLister.kt:13-18 | the new state is `VertexAdd` of the old |
| `Milestones.MilestoneVertexLister.End` | osmdroid-android/src/main/java/org/osmdroid/views/overlay/milestones/MilestoneVertexLister.kt:20-23 | the new state is `VertexEnd` of the old |
| `Milestones.MilestoneVertexLister.InnerAdd` | osmdroid-android/src/main/java/org/osmdroid/views/overlay/milestones/MilestoneVertexLister.kt:25-27 | appends one step with the latest orientation and the given rank |
| `Milestones.SquaredDistance` | osmdroid-android/src/main/java/org/osmdroid/views/overlay/milestones/MilestoneMiddleLister.kt:19 | the squared length is never negative |
| `Milestones.MidpointSymmetric` | osmdroid-android/src/main/java/org/osmdroid/views/overlay/milestones/MilestoneMiddleLister.kt:22-23 | the midpoint does not depend on endpoint order |
| `Milestones.MidpointBetween` | osmdroid-android/src/main/java/org/osmdroid/views/overlay/milestones/MilestoneMiddleLister.kt:22-23 | when the sum fits a `Long` the midpoint lies between the endpoints and twice the midpoint is within 1 of the sum |
| `Milestones.MidpointRoundsTowardZero` | osmdroid-android/src/main/java/org/osmdroid/views/overlay/milestones/MilestoneMiddleLister.kt:22 | halving truncates toward zero: midpoint(-3, 0) = -1 |
| `Milestones.MidpointWrapsPastLongRange` | osmdroid-android/src/main/java/org/osmdroid/views/overlay/milestones/MilestoneMiddleLister.kt:22 | past the `Long` range the sum wraps: midpoint(MAX, MAX) = -1 |
| `Milestones.MiddleSteps` | osmdroid-android/src/main/java/org/osmdroid/views/overlay/milestones/MilestoneMiddleLister.kt:18-26 | at most one step; none iff the squared length is at most the threshold; otherwise the truncated midpoint with the segment's orientation and no tag |
| `Milestones.ThresholdIsSquare` | osmdroid-android/src/main/java/org/osmdroid/views/overlay/milestones/MilestoneMiddleLister.kt:14-21 | for a minimum distance `m >= 0` and a segment of length `len` (so `len * len` is its squared length), the segment gets no middle milestone iff `len <= m` |
| `Milestones.MiddleStepsReversed` | osmdroid-android/src/main/java/org/osmdroid/views/overlay/milestones/MilestoneMiddleLister.kt:18-26 | reversing a segment emits the same step, apart from the orientation |
| `Milestones.MilestoneMiddleLister.constructor` | osmdroid-android/src/main/java/org/osmdroid/views/overlay/milestones/MilestoneMiddleLister.kt:14-16 | the threshold is the square of the minimum distance and no step is emitted |
| `Milestones.MilestoneMiddleLister.Add` | osmdroid-android/src/main/java/org/osmdroid/views/overlay/milestones/MilestoneMiddleLister.kt:18-26 | appends exactly `MiddleSteps` for the segment |
| `AssetTileSource.IntToString` | osmdroid-simple-map/src/main/java/org/osmdroid/sample/tiles/AssetsTileSource.kt:27 | an `Int` is rendered in decimal, non-empty, without '/' or '.', all digits iff non-negative |
| `AssetTileSource.ParseIntToString` | osmdroid-simple-map/src/main/java/org/osmdroid/sample/tiles/AssetsTileSource.kt:26-27 | a rendered number reads back as itself |
| `AssetTileSource.TileRelativeFilename` | osmdroid-simple-map/src/main/java/org/osmdroid/sample/tiles/AssetsTileSource.kt:23-28 | the path starts with name + "/" and ends with "." + ending |
| `AssetTileSource.FilenameRoundTrip` | osmdroid-simple-map/src/main/java/org/osmdroid/sample/tiles/AssetsTileSource2.kt:22-27 | parsing a formatted path gives back the tile, for every zoom, column and row |
| `AssetTileSource.FilenameInjective` | osmdroid-simple-map/src/main/java/org/osmdroid/sample/tiles/AssetsTileSource.kt:27 | for a fixed name and ending, different tiles have different paths |
| `AssetTileSource.AssetToOpen` | osmdroid-simple-map/src/main/java/org/osmdroid/sample/tiles/AssetsTileSource.kt:30-39 | no asset is opened exactly for a null path; otherwise the path itself |
| `AssetTileSource.CustomTileSource` | osmdroid-simple-map/src/main/java/org/osmdroid/sample/tiles/AssetsTileSource.kt:49-56 | "customtiles", zoom 15..19, 256-pixel tiles, "png" |
| `AssetTileSource.SetupCustomTilesOverlays` | osmdroid-simple-map/src/main/java/org/osmdroid/sample/tiles/AssetsTileSource.kt:42-73 | the (lazily created) provider ends with tile count -5536, overshoot 2000 and the external files directory; one tiles overlay with transparent background and lines is appended |
| `AssetTileSource.TileCountNarrowing` | osmdroid-simple-map/src/main/java/org/osmdroid/sample/tiles/AssetsTileSource.kt:44-45 | 60000 is not a `Short` and narrows to -5536; 2000 narrows to itself |
| `AssetTileSource2.SetupCustomTilesOverlays` | osmdroid-simple-map/src/main/java/org/osmdroid/sample/tiles/AssetsTileSource2.kt:41-59 | no configuration is touched; one tiles overlay over the same source with a transparent background and default lines is appended |
| `Configurations.ConfigurationProvider.SetCacheMapTileCount` | osmdroid-android/src/main/java/org/osmdroid/config/IConfigurationProvider.kt:123 | sets the `Short` tile count |
| `Configurations.ConfigurationProvider.SetCacheMapTileOvershoot` | osmdroid-android/src/main/java/org/osmdroid/config/IConfigurationProvider.kt:380 | sets the `Short` overshoot |
| `Configurations.ConfigurationProvider.SetOsmdroidTileCache` | osmdroid-android/src/main/java/org/osmdroid/config/IConfigurationProvider.kt:224 | sets the nullable cache directory |
| `Configurations.Configuration.constructor` | osmdroid-android/src/main/java/org/osmdroid/config/Configuration.kt:14 | no provider at first |
| `Configurations.Configuration.Instance` | osmdroid-android/src/main/java/org/osmdroid/config/Configuration.kt:22-28 | never null: returns the current provider, or creates, keeps and returns a default one |
| `Configurations.Configuration.SetConfigurationProvider` | osmdroid-android/src/main/java/org/osmdroid/config/Configuration.kt:37-40 | installs the given provider, null included |
| `Configurations.ReadTwice` | osmdroid-android/src/main/java/org/osmdroid/config/Configuration.kt:26-27 | two reads with no set between return the same provider |
| `Configurations.SetThenRead` | osmdroid-android/src/main/java/org/osmdroid/config/Configuration.kt:37-40 | after installing a provider, a read returns it |
| `Configurations.SetNullThenRead` | osmdroid-android/src/main/java/org/osmdroid/config/Configuration.kt:22-40 | after installing null, a read creates a fresh default and the next read returns it again |
| `TileProviderConstants.TimeUnits` | osmdroid-android/src/main/java/org/osmdroid/tileprovider/constants/OpenStreetMapTileProviderConstants.kt:18-30 | minute, hour, day, week (7 days), year (365 days), cached-file age (one week) and expiry (30 days) in milliseconds |
| `TileProviderConstants.TimeUnitsFitLong` | osmdroid-android/src/main/java/org/osmdroid/tileprovider/constants/OpenStreetMapTileProviderConstants.kt:30 | every constant fits a `Long`; the year and the expiry exceed `Int`, and the expiry as an `Int` product would wrap to -1702967296 |
| `TileProviderConstants.CachedFileAgeBeforeExpiry` | osmdroid-android/src/main/java/org/osmdroid/tileprovider/constants/OpenStreetMapTileProviderConstants.kt:12-30 | the cached-file age is below the expiry; minimum zoom 0; extension ".tile" |

## Left out

- Drawing, touch and gesture dispatch, fling and the `Scroller`, multitouch, map rotation, tile-size density scaling and the overlay manager. These are Android UI plumbing.
- The projection and `TileSystem`, including `getBoundingBoxZoom`. Their answers are parameters. `TileSystem.truncateToInt` is not applied: a child frame is the `Long` values handed to it.
- `MapViews.MapView.SetZoomLevel` and `MapViewsKt.MapViewKt.SetZoomLevel`: when the layout has occurred, the view also re-centres through its controller, snaps to an overlay item and rescales the tile cache. Only the `pauseFling` flag of that branch is modelled.
- `MapViews.MapView.BoundingBoxZoomChoice` and `MapViewsKt.MapViewKt.BoundingBoxZoomChoice` model only the zoom choice. The animated or immediate move to the box's centre is done by `MapController`, which is not part of this model.
- `MapViews.MapView.ScrollTo`: under a non-zero map orientation, `scrollTo` runs the layout pass again. That is not modelled, because orientation is outside the model.
- `requestLayout`, `invalidate` and `resetProjection` calls.
- `MapViews.MapView.constructor` and `MapViewsKt.MapViewKt.constructor` leave out the Android set-up. That covers the configuration reads, creating the tile provider and tiles overlay, the gesture detectors, and the IDE edit-mode branch that leaves the zoom controller null. The overlay's zoom range is a constructor parameter.
- `MapViewKt` has no methods that add or remove listeners, and its overlays are not modelled. It keeps its listener lists, which stay as they were constructed.
- The controller's fade-out thread, `Thread.sleep` loop and `ValueAnimator`, and `stopFadeOut`. This is concurrency and timing. The opacity is therefore only ever 0 or 1 in this model.
- `onSingleTapConfirmed` and `onLongPress` of the controller. They only forward to `isTouched`.
- The base class `MilestoneLister` and its `init`/`end` are not part of this model. Its list of steps is the `steps` field.
- `getOrientation` and `Distance.getSquaredDistanceToPoint` are not part of this model. The orientation is a parameter, and the squared distance is computed exactly on integers rather than in doubles.
- `Milestones.MilestoneMiddleLister.constructor`: the threshold is an exact real square, not a rounded double.
- `PointL.toString` is not modelled: it is formatting only.
- `IntegerAccepters.IntegerAccepter.constructor` requires a non-negative size; a negative one throws `NegativeArraySizeException`, which is not modelled.
- `Points.PointL.Set` and `Points.PointL.Copy` take a non-null point; the exception Java raises for a null one is not modelled.
- `MapViews.MapView.AddMapListener` and `MapViews.MapView.AddOnFirstLayoutListener`: the `!!` on a null listener throws, and that is not modelled.
- `MapViews.MapView.RemoveOnFirstLayoutListener`: a null listener is modelled as a no-op, which is what `remove(null)` does.
- `AssetTileSource.AssetToOpen`: opening and decoding the asset, and the `IOException` fallback to null, are I/O and not modelled.
- `MapTileIndex` packing is not part of this model. A tile is given by its zoom, column and row.
- The tile provider and the tiles overlay are reduced to the source parameters and the two loading colours the samples set.
- `DefaultConfigurationProvider` is not part of this model. The settings a new default provider holds are a parameter of the holder, and only the three settings the sample writes are modelled.
- The `@Synchronized` getter of the configuration singleton: the model is single-threaded.
- `HTTP_EXPIRES_HEADER`, `HTTP_CACHE_CONTROL_HEADER` and `HTTP_EXPIRES_HEADER_FORMAT` are declared as constants only; nothing is stated about them.
