/** The map view's viewport rules that do not depend on the view object:
    choosing the zoom limits, clamping a requested zoom, the zoom that
    `zoomToBoundingBox` settles on, the placement of a child view from its
    layout parameters, and the notifications sent to registered listeners.
    Both map-view classes use these definitions. */
module Viewport {
  import opened Wrappers
  import opened JavaInt

  // ---------------------------------------------------------------- zoom

  function Pow2(n: nat): (p: nat)
    ensures p >= 1
  {
    if n == 0 then 1 else 2 * Pow2(n - 1)
  }

  /** `Double.MIN_VALUE`: the smallest positive double, 2^-1074 (not the most
      negative double). `getBoundingBoxZoom` returns it when it cannot
      compute a zoom, e.g. for a box that is a single point. */
  const DOUBLE_MIN_VALUE: real := 1.0 / (Pow2(1074) as real)

  /** A zoom limit: the explicit override when one was set, otherwise the
      tiles overlay's own limit. */
  function ZoomLimit(override: Option<real>, overlayLimit: int): (z: real)
    ensures override.Some? ==> z == override.value
    ensures override.None? ==> z == overlayLimit as real
  {
    match override
    case Some(v) => v
    case None => overlayLimit as real
  }

  /** The zoom `setZoomLevel` stores: the request is first lowered to the
      maximum, then raised to the minimum. */
  function ClampZoom(minZoom: real, maxZoom: real, requested: real): (z: real)
    ensures z >= minZoom
    ensures minZoom <= maxZoom ==> minZoom <= z <= maxZoom
    ensures minZoom <= requested <= maxZoom ==> z == requested
    ensures requested < minZoom ==> z == minZoom
    ensures minZoom <= maxZoom < requested ==> z == maxZoom
    ensures maxZoom < minZoom ==> z == minZoom
  {
    var lowered := if requested > maxZoom then maxZoom else requested;
    if lowered < minZoom then minZoom else lowered
  }

  /** Clamping twice is clamping once: re-setting the zoom the view already
      holds leaves it where it is. */
  lemma ClampZoomIdempotent(minZoom: real, maxZoom: real, requested: real)
    ensures ClampZoom(minZoom, maxZoom, ClampZoom(minZoom, maxZoom, requested)) == ClampZoom(minZoom, maxZoom, requested)
  {
  }

  /** The zoom-in and zoom-out buttons after a clamp: zooming in is still
      possible exactly when the request was below the maximum and the limits
      leave room, and zooming out exactly when it was above the minimum and
      the limits leave room. Equal limits disable both. */
  lemma ZoomButtonsAfterClamp(minZoom: real, maxZoom: real, requested: real)
    ensures CanZoomIn(ClampZoom(minZoom, maxZoom, requested), maxZoom) <==> requested < maxZoom && minZoom < maxZoom
    ensures CanZoomOut(ClampZoom(minZoom, maxZoom, requested), minZoom) <==> requested > minZoom && minZoom < maxZoom
  {
  }

  predicate CanZoomIn(zoom: real, maxZoom: real) { zoom < maxZoom }

  predicate CanZoomOut(zoom: real, minZoom: real) { zoom > minZoom }

  /** The zoom `zoomToBoundingBox` settles on. The computed zoom is replaced
      by `maximumZoom` when it is the "no zoom" sentinel or above
      `maximumZoom`; the result is then raised to the minimum and lowered to
      the maximum, in that order (the opposite order to `ClampZoom`). */
  function BoundingBoxZoom(computed: real, maximumZoom: real, minZoom: real, maxZoom: real): (z: real)
    ensures z <= maxZoom
    ensures minZoom <= maxZoom ==> minZoom <= z
    ensures (computed == DOUBLE_MIN_VALUE || computed > maximumZoom) && minZoom <= maximumZoom <= maxZoom ==> z == maximumZoom
    ensures computed != DOUBLE_MIN_VALUE && minZoom <= computed <= maximumZoom && computed <= maxZoom ==> z == computed
  {
    var next := if computed == DOUBLE_MIN_VALUE || computed > maximumZoom then maximumZoom else computed;
    var raised := if next < minZoom then minZoom else next;
    if raised > maxZoom then maxZoom else raised
  }

  /** With consistent limits the two clamping orders agree: the bounding-box
      zoom is the `setZoomLevel` clamp of the sentinel-replaced zoom. */
  lemma BoundingBoxZoomIsClamp(computed: real, maximumZoom: real, minZoom: real, maxZoom: real)
    requires minZoom <= maxZoom
    ensures BoundingBoxZoom(computed, maximumZoom, minZoom, maxZoom) ==
      ClampZoom(minZoom, maxZoom, if computed == DOUBLE_MIN_VALUE || computed > maximumZoom then maximumZoom else computed)
  {
  }

  /** With a minimum above the maximum the two orders disagree for every
      request: `setZoomLevel` ends at the minimum, `zoomToBoundingBox` at the
      maximum. */
  lemma ClampOrdersDisagree(computed: real, maximumZoom: real, minZoom: real, maxZoom: real, requested: real)
    requires maxZoom < minZoom
    ensures BoundingBoxZoom(computed, maximumZoom, minZoom, maxZoom) == maxZoom
    ensures ClampZoom(minZoom, maxZoom, requested) == minZoom
  {
  }

  /** The sentinel is a tiny positive zoom, so a computed zoom of exactly
      zero is not mistaken for it. */
  lemma SentinelIsTinyPositive()
    ensures 0.0 < DOUBLE_MIN_VALUE < 1.0
  {
  }

  // -------------------------------------------------------------- layout

  const TOP_LEFT: int := 1
  const TOP_CENTER: int := 2
  const TOP_RIGHT: int := 3
  const CENTER_LEFT: int := 4
  const CENTER: int := 5
  const CENTER_RIGHT: int := 6
  const BOTTOM_LEFT: int := 7
  const BOTTOM_CENTER: int := 8
  const BOTTOM_RIGHT: int := 9

  /** Android's `ViewGroup.LayoutParams.WRAP_CONTENT`. */
  const WRAP_CONTENT: int := -2

  datatype GeoPoint = GeoPoint(latitude: real, longitude: real)

  /** Per-child layout information: requested size, the geographic anchor
      (null when a constructor left it unset), the alignment of the child
      relative to that anchor, and a pixel offset. */
  datatype LayoutParams = LayoutParams(
    width: int, height: int, geoPoint: Option<GeoPoint>, alignment: int, offsetX: int, offsetY: int)

  /** The six-argument constructor: a null anchor becomes (0, 0). */
  function NewLayoutParams(width: int, height: int, geoPoint: Option<GeoPoint>, alignment: int, offsetX: int, offsetY: int): (lp: LayoutParams)
    ensures lp.geoPoint.Some?
    ensures geoPoint.Some? ==> lp.geoPoint == geoPoint
    ensures geoPoint.None? ==> lp.geoPoint == Some(GeoPoint(0.0, 0.0))
    ensures lp.width == width && lp.height == height
    ensures lp.alignment == alignment && lp.offsetX == offsetX && lp.offsetY == offsetY
  {
    LayoutParams(width, height, if geoPoint.Some? then geoPoint else Some(GeoPoint(0.0, 0.0)), alignment, offsetX, offsetY)
  }

  /** The constructor from XML attributes, given the width and height the
      attributes hold: anchored at (0, 0), bottom-centred, no offset. */
  function LayoutParamsFromAttributes(width: int, height: int): (lp: LayoutParams)
    ensures lp.geoPoint == Some(GeoPoint(0.0, 0.0)) && lp.alignment == BOTTOM_CENTER
    ensures lp.offsetX == 0 && lp.offsetY == 0
    ensures lp.width == width && lp.height == height
  {
    LayoutParams(width, height, Some(GeoPoint(0.0, 0.0)), BOTTOM_CENTER, 0, 0)
  }

  /** The constructor copying a plain `ViewGroup.LayoutParams`: only the size
      is copied; the anchor stays null and the alignment 0, which no
      alignment case matches. */
  function LayoutParamsFromSource(width: int, height: int): (lp: LayoutParams)
    ensures lp.geoPoint.None? && !(TOP_LEFT <= lp.alignment <= BOTTOM_RIGHT)
    ensures lp.offsetX == 0 && lp.offsetY == 0
    ensures lp.width == width && lp.height == height
  {
    LayoutParams(width, height, None, 0, 0, 0)
  }

  /** `generateDefaultLayoutParams`: wrap content, bottom-centred on (0, 0). */
  function DefaultLayoutParams(): (lp: LayoutParams)
    ensures lp.width == WRAP_CONTENT && lp.height == WRAP_CONTENT
    ensures lp.geoPoint == Some(GeoPoint(0.0, 0.0)) && lp.alignment == BOTTOM_CENTER
    ensures lp.offsetX == 0 && lp.offsetY == 0
  {
    NewLayoutParams(WRAP_CONTENT, WRAP_CONTENT, None, BOTTOM_CENTER, 0, 0)
  }

  /** A child's frame as the `Long` values handed to the pixel truncation. */
  datatype Rect = Rect(left: int, top: int, right: int, bottom: int)

  /** The top-left corner of a child before its offsets, for the anchor pixel
      (x, y): one case per alignment, each with the view's padding; any other
      alignment keeps (x, y) without padding. Halves use `Int` division,
      which truncates toward zero. */
  function AlignedCorner(alignment: int, paddingLeft: int, paddingTop: int, x: int, y: int, childWidth: int, childHeight: int): (corner: (int, int))
  {
    if alignment == TOP_LEFT then (paddingLeft + x, paddingTop + y)
    else if alignment == TOP_CENTER then (paddingLeft + x - TruncDiv(childWidth, 2), paddingTop + y)
    else if alignment == TOP_RIGHT then (paddingLeft + x - childWidth, paddingTop + y)
    else if alignment == CENTER_LEFT then (paddingLeft + x, paddingTop + y - TruncDiv(childHeight, 2))
    else if alignment == CENTER then (paddingLeft + x - TruncDiv(childWidth, 2), paddingTop + y - TruncDiv(childHeight, 2))
    else if alignment == CENTER_RIGHT then (paddingLeft + x - childWidth, paddingTop + y - TruncDiv(childHeight, 2))
    else if alignment == BOTTOM_LEFT then (paddingLeft + x, paddingTop + y - childHeight)
    else if alignment == BOTTOM_CENTER then (paddingLeft + x - TruncDiv(childWidth, 2), paddingTop + y - childHeight)
    else if alignment == BOTTOM_RIGHT then (paddingLeft + x - childWidth, paddingTop + y - childHeight)
    else (x, y)
  }

  /** How far a child moves back along one axis for a column (or row) of the
      3x3 alignment grid: not at all, half its size, or its full size. */
  function GridShift(position: int, size: int): int
  {
    if position == 0 then 0 else if position == 1 then TruncDiv(size, 2) else size
  }

  /** The alignment table read as a 3x3 grid: alignment a lies in column
      (a - 1) % 3 (left, centre, right) and row (a - 1) / 3 (top, centre,
      bottom), and each axis shifts independently. */
  lemma AlignmentIsGrid(alignment: int, paddingLeft: int, paddingTop: int, x: int, y: int, childWidth: int, childHeight: int)
    requires TOP_LEFT <= alignment <= BOTTOM_RIGHT
    ensures AlignedCorner(alignment, paddingLeft, paddingTop, x, y, childWidth, childHeight) ==
      (paddingLeft + x - GridShift((alignment - 1) % 3, childWidth),
       paddingTop + y - GridShift((alignment - 1) / 3, childHeight))
  {
  }

  /** An alignment outside the table places the child's corner on the
      anchor pixel itself, with neither padding applied. */
  lemma UnknownAlignmentIgnoresPadding(alignment: int, paddingLeft: int, paddingTop: int, x: int, y: int, childWidth: int, childHeight: int)
    requires !(TOP_LEFT <= alignment <= BOTTOM_RIGHT)
    ensures AlignedCorner(alignment, paddingLeft, paddingTop, x, y, childWidth, childHeight) == (x, y)
  {
  }

  /** A child's frame: the aligned corner moved by the child's offsets, and
      the measured size added to reach the right and bottom edges. */
  function ChildFrame(lp: LayoutParams, paddingLeft: int, paddingTop: int, x: int, y: int, childWidth: int, childHeight: int): (r: Rect)
    ensures r.right - r.left == childWidth && r.bottom - r.top == childHeight
    ensures !(TOP_LEFT <= lp.alignment <= BOTTOM_RIGHT) ==> r.left == x + lp.offsetX && r.top == y + lp.offsetY
  {
    var corner := AlignedCorner(lp.alignment, paddingLeft, paddingTop, x, y, childWidth, childHeight);
    var left := corner.0 + lp.offsetX;
    var top := corner.1 + lp.offsetY;
    Rect(left, top, left + childWidth, top + childHeight)
  }

  /** For a child of non-negative size with a known alignment, the padded
      and offset anchor pixel lies on the child's frame. */
  lemma AnchorWithinFrame(lp: LayoutParams, paddingLeft: int, paddingTop: int, x: int, y: int, childWidth: int, childHeight: int)
    requires TOP_LEFT <= lp.alignment <= BOTTOM_RIGHT && childWidth >= 0 && childHeight >= 0
    ensures var r := ChildFrame(lp, paddingLeft, paddingTop, x, y, childWidth, childHeight);
      r.left <= paddingLeft + x + lp.offsetX <= r.right && r.top <= paddingTop + y + lp.offsetY <= r.bottom
  {
    AlignmentIsGrid(lp.alignment, paddingLeft, paddingTop, x, y, childWidth, childHeight);
  }

  /** When every input is an `Int`, as the view's fields are, no `Long` sum
      in the frame computation can wrap, so the exact values are the ones
      the code computes. */
  lemma ChildFrameFitsLong(lp: LayoutParams, paddingLeft: int, paddingTop: int, x: int, y: int, childWidth: int, childHeight: int)
    requires IsInt(lp.offsetX) && IsInt(lp.offsetY) && IsInt(paddingLeft) && IsInt(paddingTop)
    requires IsInt(x) && IsInt(y) && IsInt(childWidth) && IsInt(childHeight)
    ensures var r := ChildFrame(lp, paddingLeft, paddingTop, x, y, childWidth, childHeight);
      IsLong(r.left) && IsLong(r.top) && IsLong(r.right) && IsLong(r.bottom)
  {
  }

  /** A child view as the layout pass sees it: whether it is GONE, its
      layout parameters, its measured size, and the pixel its anchor
      projects to (after the map's rotation, when there is one). */
  datatype Child = Child(gone: bool, params: LayoutParams, measuredWidth: int, measuredHeight: int, anchorX: int, anchorY: int)

  /** The frame the layout pass gives a child; GONE children get none. */
  function FrameOf(c: Child, paddingLeft: int, paddingTop: int): Option<Rect>
  {
    if c.gone then None
    else Some(ChildFrame(c.params, paddingLeft, paddingTop, c.anchorX, c.anchorY, c.measuredWidth, c.measuredHeight))
  }

  /** The child loop of `myOnLayout`: each child in order, GONE ones
      skipped. */
  method LayoutChildren(children: seq<Child>, paddingLeft: int, paddingTop: int) returns (frames: seq<Option<Rect>>)
    ensures |frames| == |children|
    ensures forall i :: 0 <= i < |children| ==> (frames[i].None? <==> children[i].gone)
    ensures forall i :: 0 <= i < |children| ==> frames[i] == FrameOf(children[i], paddingLeft, paddingTop)
  {
    frames := [];
    var i := 0;
    while i < |children|
      invariant 0 <= i <= |children|
      invariant |frames| == i
      invariant forall k :: 0 <= k < i ==> frames[k] == FrameOf(children[k], paddingLeft, paddingTop)
    {
      var child := children[i];
      if child.gone {
        frames := frames + [None];
      } else {
        var lp := child.params;
        var frame := ChildFrame(lp, paddingLeft, paddingTop, child.anchorX, child.anchorY, child.measuredWidth, child.measuredHeight);
        frames := frames + [Some(frame)];
      }
      i := i + 1;
    }
  }

  // ----------------------------------------------------------- listeners

  /** The identity of a registered listener object. */
  type ListenerId = nat

  /** What a listener is told: a scroll to (x, y), a new zoom level, or the
      first layout with the view's bounds. */
  datatype MapEvent =
    | ScrollEvent(x: int, y: int)
    | ZoomEvent(zoomLevel: real)
    | FirstLayoutEvent(left: int, top: int, right: int, bottom: int)

  /** One callback made on one listener. */
  datatype Notification = Notification(listener: ListenerId, event: MapEvent)

  /** One callback per listener, in registration order, all with the same
      event object. */
  function Broadcast(listeners: seq<ListenerId>, event: MapEvent): (ns: seq<Notification>)
    ensures |ns| == |listeners|
    ensures forall i :: 0 <= i < |ns| ==> ns[i].listener == listeners[i] && ns[i].event == event
  {
    if |listeners| == 0 then [] else [Notification(listeners[0], event)] + Broadcast(listeners[1..], event)
  }

  /** The `for (listener in listeners)` loop that calls each listener. */
  method Notify(listeners: seq<ListenerId>, event: MapEvent) returns (sent: seq<Notification>)
    ensures sent == Broadcast(listeners, event)
  {
    sent := [];
    var i := 0;
    while i < |listeners|
      invariant 0 <= i <= |listeners|
      invariant |sent| == i
      invariant forall k :: 0 <= k < i ==> sent[k] == Notification(listeners[k], event)
    {
      sent := sent + [Notification(listeners[i], event)];
      i := i + 1;
    }
    BroadcastIsPointwise(listeners, event, sent);
  }

  lemma BroadcastIsPointwise(listeners: seq<ListenerId>, event: MapEvent, sent: seq<Notification>)
    requires |sent| == |listeners|
    requires forall k :: 0 <= k < |sent| ==> sent[k] == Notification(listeners[k], event)
    ensures sent == Broadcast(listeners, event)
  {
    var b := Broadcast(listeners, event);
    assert forall k :: 0 <= k < |sent| ==> sent[k] == b[k];
  }

  /** `LinkedList.remove(o)` / `ArrayList.remove(o)`: the first occurrence
      goes, the rest keep their order; nothing changes if `x` is absent. */
  function RemoveFirst(s: seq<ListenerId>, x: ListenerId): (r: seq<ListenerId>)
    ensures x !in s ==> r == s
    ensures x in s ==> |r| == |s| - 1 && multiset(r) == multiset(s) - multiset{x}
    ensures forall y :: y in r ==> y in s
  {
    if |s| == 0 then []
    else if s[0] == x then
      assert s == [x] + s[1..];
      s[1..]
    else
      assert s == [s[0]] + s[1..];
      [s[0]] + RemoveFirst(s[1..], x)
  }

  /** Index of the first occurrence of `x` in `s`. */
  function FirstIndex(s: seq<ListenerId>, x: ListenerId): (i: nat)
    requires x in s
    ensures i < |s| && s[i] == x && x !in s[..i]
  {
    if s[0] == x then 0
    else
      assert x in s[1..] by { assert s == [s[0]] + s[1..]; }
      var k := FirstIndex(s[1..], x);
      assert s[..k + 1] == [s[0]] + s[1..][..k];
      k + 1
  }

  lemma {:induction false} RemoveFirstSplitsAtFirstIndex(s: seq<ListenerId>, x: ListenerId)
    requires x in s
    ensures RemoveFirst(s, x) == s[..FirstIndex(s, x)] + s[FirstIndex(s, x) + 1..]
  {
    if s[0] != x {
      assert s == [s[0]] + s[1..];
      assert x in s[1..];
      RemoveFirstSplitsAtFirstIndex(s[1..], x);
      var k := FirstIndex(s[1..], x);
      assert s[..k + 1] == [s[0]] + s[1..][..k];
      assert s[k + 2..] == s[1..][k + 1..];
    }
  }

  /** The occurrence `remove` drops is the first one: everything before it
      is kept in order, and so is everything after it. */
  lemma RemoveFirstDropsFirstOccurrence(s: seq<ListenerId>, x: ListenerId)
    requires x in s
    ensures exists i :: 0 <= i < |s| && s[i] == x && x !in s[..i] && RemoveFirst(s, x) == s[..i] + s[i + 1..]
  {
    var i := FirstIndex(s, x);
    RemoveFirstSplitsAtFirstIndex(s, x);
    assert 0 <= i < |s| && s[i] == x && x !in s[..i] && RemoveFirst(s, x) == s[..i] + s[i + 1..];
  }

  /** Adding a listener and then removing it gives back the list before the
      add when the listener was not registered already. */
  lemma {:induction false} RemoveAfterAdd(s: seq<ListenerId>, x: ListenerId)
    requires x !in s
    ensures RemoveFirst(s + [x], x) == s
  {
    if |s| > 0 {
      assert (s + [x])[1..] == s[1..] + [x];
      RemoveAfterAdd(s[1..], x);
    }
  }
}
