/** The map view's own state: zoom level and zoom limits, the scroll
    position and scroll limits, registered listeners and the callbacks made
    on them, the first-layout latch, the overlay list and the zoom-button
    controller it keeps in step. The projection, the scroller, gestures and
    drawing are outside: where the view asks the projection something (the
    current centre, whether it moved, where a child's anchor projects), the
    answer is a parameter. */
module MapViews {
  import opened Wrappers
  import opened JavaInt
  import opened Viewport
  import opened TileSources
  import ZoomButtons

  /** The zoom listener the view installs on its own zoom buttons. */
  const MAP_VIEW_ZOOM_LISTENER: ZoomButtons.ZoomListenerId := 0

  /** One scroll limit: whether it is on, its two bounds (north and south,
      or west and east) and how many pixels past them scrolling may go. */
  datatype AxisLimit = AxisLimit(enabled: bool, first: real, second: real, extraPixels: int)

  /** A bounding box, by the four values the scroll limits read from it. */
  datatype BoundingBox = BoundingBox(actualNorth: real, actualSouth: real, lonWest: real, lonEast: real)

  class MapView {
    var zoomLevel: real
    var minimumZoomLevel: Option<real>
    var maximumZoomLevel: Option<real>
    /** The zoom range of the tiles overlay, used when no override is set. */
    const overlayMinimumZoomLevel: int
    const overlayMaximumZoomLevel: int
    var isFlinging: bool
    var pauseFling: bool
    var scrollableAreaLimitLatitude: bool
    var scrollableAreaLimitNorth: real
    var scrollableAreaLimitSouth: real
    var scrollableAreaLimitLongitude: bool
    var scrollableAreaLimitWest: real
    var scrollableAreaLimitEast: real
    var scrollableAreaLimitExtraPixelWidth: int
    var scrollableAreaLimitExtraPixelHeight: int
    var onFirstLayoutListeners: seq<ListenerId>
    var layoutOccurred: bool
    var expectedCenter: Option<GeoPoint>
    var mapScrollX: int
    var mapScrollY: int
    var mapListeners: seq<ListenerId>
    /** Every callback made on a map or first-layout listener, oldest first. */
    var notifications: seq<Notification>
    var overlays: seq<Overlay>
    const zoomController: ZoomButtons.CustomZoomButtonsController

    /** The scroll position is a pair of `Long`s, and once the first layout
        has happened no first-layout listener is pending. */
    ghost predicate Valid()
      reads this
    {
      IsLong(mapScrollX) && IsLong(mapScrollY) && (layoutOccurred ==> onFirstLayoutListeners == [])
    }

    /** A view after construction: zoom 0, no overrides, no limits, no
        listeners, no layout yet; its zoom buttons listen to the view, are
        shown on activation only, and reflect the zoom range. */
    constructor (overlayMinimum: int, overlayMaximum: int)
      ensures Valid() && fresh(zoomController)
      ensures zoomLevel == 0.0 && minimumZoomLevel.None? && maximumZoomLevel.None?
      ensures overlayMinimumZoomLevel == overlayMinimum && overlayMaximumZoomLevel == overlayMaximum
      ensures !isFlinging && !pauseFling && !layoutOccurred && expectedCenter.None?
      ensures !scrollableAreaLimitLatitude && !scrollableAreaLimitLongitude
      ensures mapScrollX == 0 && mapScrollY == 0
      ensures onFirstLayoutListeners == [] && mapListeners == [] && notifications == [] && overlays == []
      ensures zoomController.State() == ZoomButtons.Initial().(
        listener := Some(MAP_VIEW_ZOOM_LISTENER),
        zoomInEnabled := CanZoomIn(), zoomOutEnabled := CanZoomOut(),
        visibility := ZoomButtons.SHOW_AND_FADEOUT, alpha := 0.0)
      ensures zoomController.zoomRequests == []
    {
      overlayMinimumZoomLevel := overlayMinimum;
      overlayMaximumZoomLevel := overlayMaximum;
      zoomController := new ZoomButtons.CustomZoomButtonsController();
      zoomLevel := 0.0;
      minimumZoomLevel := None;
      maximumZoomLevel := None;
      isFlinging := false;
      pauseFling := false;
      scrollableAreaLimitLatitude := false;
      scrollableAreaLimitNorth := 0.0;
      scrollableAreaLimitSouth := 0.0;
      scrollableAreaLimitLongitude := false;
      scrollableAreaLimitWest := 0.0;
      scrollableAreaLimitEast := 0.0;
      scrollableAreaLimitExtraPixelWidth := 0;
      scrollableAreaLimitExtraPixelHeight := 0;
      onFirstLayoutListeners := [];
      layoutOccurred := false;
      expectedCenter := None;
      mapScrollX := 0;
      mapScrollY := 0;
      mapListeners := [];
      notifications := [];
      overlays := [];
      new;
      zoomController.SetOnZoomListener(Some(MAP_VIEW_ZOOM_LISTENER));
      CheckZoomButtons();
      zoomController.SetVisibility(ZoomButtons.SHOW_AND_FADEOUT);
    }

    // ------------------------------------------------------------ zoom

    /** `getMinZoomLevel`: the override if one was set, otherwise the tiles
        overlay's minimum. */
    function MinZoomLevel(): (z: real)
      reads this
      ensures minimumZoomLevel.Some? ==> z == minimumZoomLevel.value
      ensures minimumZoomLevel.None? ==> z == overlayMinimumZoomLevel as real
    {
      ZoomLimit(minimumZoomLevel, overlayMinimumZoomLevel)
    }

    /** `maxZoomLevel`: the override if one was set, otherwise the tiles
        overlay's maximum. */
    function MaxZoomLevel(): (z: real)
      reads this
      ensures maximumZoomLevel.Some? ==> z == maximumZoomLevel.value
      ensures maximumZoomLevel.None? ==> z == overlayMaximumZoomLevel as real
    {
      ZoomLimit(maximumZoomLevel, overlayMaximumZoomLevel)
    }

    method SetMinZoomLevel(z: real)
      modifies this`minimumZoomLevel
      ensures minimumZoomLevel == Some(z) && MinZoomLevel() == z
    {
      minimumZoomLevel := Some(z);
    }

    method SetMaxZoomLevel(z: real)
      modifies this`maximumZoomLevel
      ensures maximumZoomLevel == Some(z) && MaxZoomLevel() == z
    {
      maximumZoomLevel := Some(z);
    }

    predicate CanZoomIn()
      reads this
    {
      Viewport.CanZoomIn(zoomLevel, MaxZoomLevel())
    }

    predicate CanZoomOut()
      reads this
    {
      Viewport.CanZoomOut(zoomLevel, MinZoomLevel())
    }

    /** `checkZoomButtons`: each zoom button is enabled exactly when the
        view can zoom that way. */
    method CheckZoomButtons()
      modifies zoomController
      ensures zoomController.State() == old(zoomController.State()).(zoomInEnabled := CanZoomIn(), zoomOutEnabled := CanZoomOut())
      ensures zoomController.zoomRequests == old(zoomController.zoomRequests)
    {
      zoomController.SetZoomInEnabled(CanZoomIn());
      zoomController.SetZoomOutEnabled(CanZoomOut());
    }

    /** `setZoomLevel`. `currentCenter` is the projection's centre before the
        change and `centerMoved` whether re-centring on it moved the
        projection's centre. The zoom is clamped into the current limits; a
        real change stops a fling and is announced to every map listener
        with one shared event; the map is re-centred (scroll reset to 0,
        with a scroll event if the centre moved) and the buttons updated. */
    method SetZoomLevel(requested: real, currentCenter: GeoPoint, centerMoved: bool) returns (z: real)
      requires Valid()
      modifies this`zoomLevel, this`isFlinging, this`pauseFling, this`expectedCenter
      modifies this`mapScrollX, this`mapScrollY, this`notifications, zoomController
      ensures Valid()
      ensures z == zoomLevel == ClampZoom(MinZoomLevel(), MaxZoomLevel(), requested)
      ensures isFlinging == (old(isFlinging) && zoomLevel == old(zoomLevel))
      ensures pauseFling == (old(pauseFling) || layoutOccurred)
      ensures expectedCenter == Some(currentCenter) && mapScrollX == 0 && mapScrollY == 0
      ensures notifications == old(notifications)
        + (if centerMoved then Broadcast(mapListeners, ScrollEvent(0, 0)) else [])
        + (if zoomLevel != old(zoomLevel) then Broadcast(mapListeners, ZoomEvent(zoomLevel)) else [])
      ensures zoomController.State() == old(zoomController.State()).(zoomInEnabled := CanZoomIn(), zoomOutEnabled := CanZoomOut())
      ensures zoomController.zoomRequests == old(zoomController.zoomRequests)
    {
      var newZoomLevel := ClampZoom(MinZoomLevel(), MaxZoomLevel(), requested);
      var curZoomLevel := zoomLevel;
      if newZoomLevel != curZoomLevel {
        isFlinging := false;
      }
      zoomLevel := newZoomLevel;
      SetExpectedCenter(currentCenter, 0, 0, centerMoved);
      CheckZoomButtons();
      if layoutOccurred {
        pauseFling := true;
      }
      if newZoomLevel != curZoomLevel {
        var sent := Notify(mapListeners, ZoomEvent(newZoomLevel));
        notifications := notifications + sent;
      }
      z := zoomLevel;
    }

    /** The zoom `zoomToBoundingBox` settles on, for the zoom the tile
        system computed for the box and the caller's maximum. */
    function BoundingBoxZoomChoice(computedZoom: real, maximumZoom: real): (z: real)
      reads this
      ensures z <= MaxZoomLevel()
      ensures MinZoomLevel() <= MaxZoomLevel() ==> MinZoomLevel() <= z
      ensures computedZoom == DOUBLE_MIN_VALUE && MinZoomLevel() <= maximumZoom <= MaxZoomLevel() ==> z == maximumZoom
    {
      BoundingBoxZoom(computedZoom, maximumZoom, MinZoomLevel(), MaxZoomLevel())
    }

    /** The three-argument `zoomToBoundingBox`, whose maximum is the view's
        own: with consistent limits it is the `setZoomLevel` clamp of the
        computed zoom, the sentinel standing for the maximum. */
    function DefaultBoundingBoxZoomChoice(computedZoom: real): (z: real)
      reads this
      ensures MinZoomLevel() <= MaxZoomLevel() ==>
        z == ClampZoom(MinZoomLevel(), MaxZoomLevel(), if computedZoom == DOUBLE_MIN_VALUE then MaxZoomLevel() else computedZoom)
    {
      BoundingBoxZoomChoice(computedZoom, MaxZoomLevel())
    }

    // ---------------------------------------------------- scroll limits

    function LatitudeLimit(): AxisLimit
      reads this
    {
      AxisLimit(scrollableAreaLimitLatitude, scrollableAreaLimitNorth, scrollableAreaLimitSouth, scrollableAreaLimitExtraPixelHeight)
    }

    function LongitudeLimit(): AxisLimit
      reads this
    {
      AxisLimit(scrollableAreaLimitLongitude, scrollableAreaLimitWest, scrollableAreaLimitEast, scrollableAreaLimitExtraPixelWidth)
    }

    /** Turns the latitude limit off; its bounds are kept. */
    method ResetScrollableAreaLimitLatitude()
      modifies this`scrollableAreaLimitLatitude
      ensures LatitudeLimit() == old(LatitudeLimit()).(enabled := false)
    {
      scrollableAreaLimitLatitude := false;
    }

    /** Turns the longitude limit off; its bounds are kept. */
    method ResetScrollableAreaLimitLongitude()
      modifies this`scrollableAreaLimitLongitude
      ensures LongitudeLimit() == old(LongitudeLimit()).(enabled := false)
    {
      scrollableAreaLimitLongitude := false;
    }

    method SetScrollableAreaLimitLatitude(north: real, south: real, extraPixelHeight: int)
      modifies this`scrollableAreaLimitLatitude, this`scrollableAreaLimitNorth
      modifies this`scrollableAreaLimitSouth, this`scrollableAreaLimitExtraPixelHeight
      ensures LatitudeLimit() == AxisLimit(true, north, south, extraPixelHeight)
    {
      scrollableAreaLimitLatitude := true;
      scrollableAreaLimitNorth := north;
      scrollableAreaLimitSouth := south;
      scrollableAreaLimitExtraPixelHeight := extraPixelHeight;
    }

    method SetScrollableAreaLimitLongitude(west: real, east: real, extraPixelWidth: int)
      modifies this`scrollableAreaLimitLongitude, this`scrollableAreaLimitWest
      modifies this`scrollableAreaLimitEast, this`scrollableAreaLimitExtraPixelWidth
      ensures LongitudeLimit() == AxisLimit(true, west, east, extraPixelWidth)
    {
      scrollableAreaLimitLongitude := true;
      scrollableAreaLimitWest := west;
      scrollableAreaLimitEast := east;
      scrollableAreaLimitExtraPixelWidth := extraPixelWidth;
    }

    /** `setScrollableAreaLimitDouble`: no box switches both limits off and
        keeps their bounds; a box switches both on with its bounds and no
        extra pixels. */
    method SetScrollableAreaLimitDouble(box: Option<BoundingBox>)
      modifies this`scrollableAreaLimitLatitude, this`scrollableAreaLimitNorth
      modifies this`scrollableAreaLimitSouth, this`scrollableAreaLimitExtraPixelHeight
      modifies this`scrollableAreaLimitLongitude, this`scrollableAreaLimitWest
      modifies this`scrollableAreaLimitEast, this`scrollableAreaLimitExtraPixelWidth
      ensures box.None? ==> LatitudeLimit() == old(LatitudeLimit()).(enabled := false)
      ensures box.None? ==> LongitudeLimit() == old(LongitudeLimit()).(enabled := false)
      ensures box.Some? ==> LatitudeLimit() == AxisLimit(true, box.value.actualNorth, box.value.actualSouth, 0)
      ensures box.Some? ==> LongitudeLimit() == AxisLimit(true, box.value.lonWest, box.value.lonEast, 0)
    {
      match box
      case None =>
        ResetScrollableAreaLimitLatitude();
        ResetScrollableAreaLimitLongitude();
      case Some(b) =>
        SetScrollableAreaLimitLatitude(b.actualNorth, b.actualSouth, 0);
        SetScrollableAreaLimitLongitude(b.lonWest, b.lonEast, 0);
    }

    // ----------------------------------------------------------- scroll

    method SetMapScroll(x: int, y: int)
      requires IsLong(x) && IsLong(y)
      modifies this`mapScrollX, this`mapScrollY
      ensures mapScrollX == x && mapScrollY == y
    {
      mapScrollX := x;
      mapScrollY := y;
    }

    /** `setExpectedCenter`: records the centre and sets the scroll to the
        negated offsets (a negated `Long.MIN_VALUE` wraps to itself); map
        listeners hear of a scroll to (0, 0) when the projection's centre
        moved. */
    method SetExpectedCenter(center: GeoPoint, offsetX: int, offsetY: int, centerMoved: bool)
      requires IsLong(offsetX) && IsLong(offsetY)
      modifies this`expectedCenter, this`mapScrollX, this`mapScrollY, this`notifications
      ensures expectedCenter == Some(center)
      ensures mapScrollX == WrapLong(-offsetX) && mapScrollY == WrapLong(-offsetY)
      ensures notifications == old(notifications) + (if centerMoved then Broadcast(mapListeners, ScrollEvent(0, 0)) else [])
    {
      expectedCenter := Some(center);
      SetMapScroll(WrapLong(-offsetX), WrapLong(-offsetY));
      if centerMoved {
        var sent := Notify(mapListeners, ScrollEvent(0, 0));
        notifications := notifications + sent;
      }
    }

    /** `scrollTo`: moves to (x, y) and tells every map listener, with one
        shared event. */
    method ScrollTo(x: int, y: int)
      requires IsInt(x) && IsInt(y)
      modifies this`mapScrollX, this`mapScrollY, this`notifications
      ensures mapScrollX == x && mapScrollY == y
      ensures notifications == old(notifications) + Broadcast(mapListeners, ScrollEvent(x, y))
    {
      SetMapScroll(x, y);
      var sent := Notify(mapListeners, ScrollEvent(x, y));
      notifications := notifications + sent;
    }

    /** `scrollBy`: the `Long` sum of position and delta, cut to an `Int`. */
    method ScrollBy(x: int, y: int)
      requires Valid() && IsInt(x) && IsInt(y)
      modifies this`mapScrollX, this`mapScrollY, this`notifications
      ensures Valid()
      ensures mapScrollX == WrapInt(WrapLong(old(mapScrollX) + x)) && mapScrollY == WrapInt(WrapLong(old(mapScrollY) + y))
      ensures notifications == old(notifications) + Broadcast(mapListeners, ScrollEvent(mapScrollX, mapScrollY))
    {
      ScrollTo(WrapInt(WrapLong(mapScrollX + x)), WrapInt(WrapLong(mapScrollY + y)));
    }

    // ----------------------------------------------------------- layout

    /** `myOnLayout`: places every child that is not GONE, and on the first
        layout only, calls each pending first-layout listener once with the
        view's bounds, forgets them all and latches the flag. */
    method MyOnLayout(children: seq<Child>, paddingLeft: int, paddingTop: int, l: int, t: int, r: int, b: int)
      returns (frames: seq<Option<Rect>>)
      requires Valid()
      modifies this`layoutOccurred, this`onFirstLayoutListeners, this`notifications
      ensures Valid() && layoutOccurred && onFirstLayoutListeners == []
      ensures |frames| == |children|
      ensures forall i :: 0 <= i < |children| ==> frames[i] == FrameOf(children[i], paddingLeft, paddingTop)
      ensures old(layoutOccurred) ==> notifications == old(notifications)
      ensures !old(layoutOccurred) ==>
        notifications == old(notifications) + Broadcast(old(onFirstLayoutListeners), FirstLayoutEvent(l, t, r, b))
    {
      frames := LayoutChildren(children, paddingLeft, paddingTop);
      if !layoutOccurred {
        layoutOccurred := true;
        var sent := Notify(onFirstLayoutListeners, FirstLayoutEvent(l, t, r, b));
        notifications := notifications + sent;
        onFirstLayoutListeners := [];
      }
    }

    /** Listeners are only taken before the first layout; afterwards the
        call is ignored, as the listener would never be called. */
    method AddOnFirstLayoutListener(listener: ListenerId)
      requires Valid()
      modifies this`onFirstLayoutListeners
      ensures Valid()
      ensures onFirstLayoutListeners == if layoutOccurred then old(onFirstLayoutListeners) else old(onFirstLayoutListeners) + [listener]
    {
      if !layoutOccurred {
        onFirstLayoutListeners := onFirstLayoutListeners + [listener];
      }
    }

    method RemoveOnFirstLayoutListener(listener: Option<ListenerId>)
      requires Valid()
      modifies this`onFirstLayoutListeners
      ensures Valid()
      ensures listener.None? ==> onFirstLayoutListeners == old(onFirstLayoutListeners)
      ensures listener.Some? ==> onFirstLayoutListeners == RemoveFirst(old(onFirstLayoutListeners), listener.value)
    {
      if listener.Some? {
        onFirstLayoutListeners := RemoveFirst(onFirstLayoutListeners, listener.value);
      }
    }

    predicate IsLayoutOccurred()
      reads this
    {
      layoutOccurred
    }

    // -------------------------------------------------------- listeners

    /** `setMapListener` (deprecated) and `addMapListener` both append. */
    method AddMapListener(listener: ListenerId)
      modifies this`mapListeners
      ensures mapListeners == old(mapListeners) + [listener]
    {
      mapListeners := mapListeners + [listener];
    }

    method RemoveMapListener(listener: Option<ListenerId>)
      modifies this`mapListeners
      ensures listener.None? ==> mapListeners == old(mapListeners)
      ensures listener.Some? ==> mapListeners == RemoveFirst(old(mapListeners), listener.value)
    {
      if listener.Some? {
        mapListeners := RemoveFirst(mapListeners, listener.value);
      }
    }

    /** `getOverlays()?.add(overlay)`. */
    method AddOverlay(overlay: Overlay)
      modifies this`overlays
      ensures overlays == old(overlays) + [overlay]
    {
      overlays := overlays + [overlay];
    }
  }

  /** Setting the zoom the view already holds, within its limits, changes
      no zoom and announces no zoom event. */
  method ReapplyCurrentZoom(v: MapView, currentCenter: GeoPoint)
    requires v.Valid() && v.MinZoomLevel() <= v.zoomLevel <= v.MaxZoomLevel()
    modifies v, v.zoomController
    ensures v.zoomLevel == old(v.zoomLevel) && v.notifications == old(v.notifications)
  {
    var _ := v.SetZoomLevel(v.zoomLevel, currentCenter, false);
  }

  /** A first-layout listener registered before the first of `n` layouts
      is called exactly once, by that first layout, even though it is
      registered again before every later layout: later layouts call
      nobody and later registrations are ignored. */
  method FirstLayoutListenerCalledOnce(v: MapView, listener: ListenerId, children: seq<Child>, n: nat, l: int, t: int, r: int, b: int)
    requires v.Valid() && !v.layoutOccurred && v.onFirstLayoutListeners == []
    requires n >= 1
    modifies v
    ensures v.layoutOccurred && v.onFirstLayoutListeners == []
    ensures v.notifications == old(v.notifications) + [Notification(listener, FirstLayoutEvent(l, t, r, b))]
  {
    var k := 0;
    while k < n
      invariant 0 <= k <= n
      invariant v.Valid()
      invariant v.onFirstLayoutListeners == []
      invariant k == 0 ==> !v.layoutOccurred && v.notifications == old(v.notifications)
      invariant k > 0 ==> v.layoutOccurred
      invariant k > 0 ==> v.notifications == old(v.notifications) + [Notification(listener, FirstLayoutEvent(l, t, r, b))]
    {
      v.AddOnFirstLayoutListener(listener);
      var _ := v.MyOnLayout(children, 0, 0, l, t, r, b);
      k := k + 1;
    }
  }
}
