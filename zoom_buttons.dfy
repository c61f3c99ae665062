/** The on-map zoom buttons' controller: whether the buttons are shown, their
    opacity, whether they may still react to taps, and how a tap on them is
    dispatched to the zoom listener. The state is described by a value
    (`ControllerState`) with one step function per operation; the controller
    class updates its fields in place and is proved to follow those steps.
    The fade-out thread and animator, the clock and the display's hit tests
    are outside: `now` and the hit results are parameters. */
module ZoomButtons {
  import opened Wrappers

  datatype Visibility = ALWAYS | NEVER | SHOW_AND_FADEOUT

  /** The identity of the zoom listener object. */
  type ZoomListenerId = nat

  datatype ControllerState = ControllerState(
    listener: Option<ZoomListenerId>,
    zoomInEnabled: bool,
    zoomOutEnabled: bool,
    alpha: real,
    detached: bool,
    visibility: Visibility,
    fadeOutAnimationDurationInMillis: int,
    showDelayInMillis: int,
    justActivated: bool,
    latestActivation: int)

  /** Outside the fade-out animation the buttons are either fully hidden or
      fully shown. */
  predicate AlphaIsBinary(s: ControllerState) { s.alpha == 0.0 || s.alpha == 1.0 }

  /** A new controller: never shown, transparent, no listener, both
      directions disabled, 3.5 s show delay and 0.5 s fade-out. */
  function Initial(): (s: ControllerState)
    ensures s.visibility == NEVER && s.alpha == 0.0
    ensures !s.justActivated && !s.detached && s.latestActivation == 0
    ensures s.listener.None? && !s.zoomInEnabled && !s.zoomOutEnabled
    ensures s.showDelayInMillis == 3500 && s.fadeOutAnimationDurationInMillis == 500
    ensures AlphaIsBinary(s)
  {
    ControllerState(None, false, false, 0.0, false, NEVER, 500, 3500, false, 0)
  }

  /** `setVisibility`: ALWAYS shows the buttons at full opacity, the other two
      hide them; nothing else changes. */
  function VisibilityStep(s: ControllerState, v: Visibility): (t: ControllerState)
    ensures t.visibility == v
    ensures t.alpha == 1.0 <==> v == ALWAYS
    ensures t.alpha == 0.0 <==> v != ALWAYS
    ensures t.(visibility := s.visibility, alpha := s.alpha) == s
  {
    s.(visibility := v, alpha := if v == ALWAYS then 1.0 else 0.0)
  }

  /** `activate`: inert once detached or unless the visibility is
      SHOW_AND_FADEOUT. Otherwise the buttons become fully visible and the
      activation time is recorded. The just-activated flag toggles: a set
      flag is cleared, a clear one is set only if the buttons were hidden. */
  function ActivateStep(s: ControllerState, now: int): (t: ControllerState)
    ensures s.detached || s.visibility != SHOW_AND_FADEOUT ==> t == s
    ensures !s.detached && s.visibility == SHOW_AND_FADEOUT ==>
      t.alpha == 1.0 && t.latestActivation == now &&
      (t.justActivated <==> !s.justActivated && s.alpha == 0.0) &&
      t.(alpha := s.alpha, latestActivation := s.latestActivation, justActivated := s.justActivated) == s
  {
    if s.detached || s.visibility != SHOW_AND_FADEOUT then s
    else s.(justActivated := if !s.justActivated then s.alpha == 0.0 else false, alpha := 1.0, latestActivation := now)
  }

  /** `checkJustActivated`: reports the flag and clears it. */
  function CheckJustActivatedStep(s: ControllerState): (r: (bool, ControllerState))
    ensures r.0 == s.justActivated
    ensures !r.1.justActivated && r.1.(justActivated := s.justActivated) == s
  {
    (s.justActivated, s.(justActivated := false))
  }

  /** What a tap does: whether the controller consumed it, the `onZoom`
      call made on the listener (`Some(true)` zooms in), and the state
      afterwards. */
  datatype TouchOutcome = TouchOutcome(handled: bool, zoomCall: Option<bool>, state: ControllerState)

  /** `isTouched`, given whether the tap hits the zoom-in and the zoom-out
      button. */
  function TouchStep(s: ControllerState, hitZoomIn: bool, hitZoomOut: bool): (o: TouchOutcome)
    // hidden buttons ignore the tap and change nothing
    ensures s.alpha == 0.0 ==> o == TouchOutcome(false, None, s)
    // the first tap after the buttons appeared only consumes the flag
    ensures s.alpha != 0.0 && s.justActivated ==> o == TouchOutcome(false, None, s.(justActivated := false))
    // otherwise a hit is consumed, zoom-in checked first
    ensures s.alpha != 0.0 && !s.justActivated ==> o.state == s && (o.handled <==> hitZoomIn || hitZoomOut)
    ensures o.zoomCall == Some(true) <==>
      s.alpha != 0.0 && !s.justActivated && hitZoomIn && s.zoomInEnabled && s.listener.Some?
    ensures o.zoomCall == Some(false) <==>
      s.alpha != 0.0 && !s.justActivated && !hitZoomIn && hitZoomOut && s.zoomOutEnabled && s.listener.Some?
  {
    if s.alpha == 0.0 then TouchOutcome(false, None, s)
    else
      var (wasJust, s1) := CheckJustActivatedStep(s);
      if wasJust then TouchOutcome(false, None, s1)
      else if hitZoomIn then TouchOutcome(true, if s.zoomInEnabled && s.listener.Some? then Some(true) else None, s1)
      else if hitZoomOut then TouchOutcome(true, if s.zoomOutEnabled && s.listener.Some? then Some(false) else None, s1)
      else TouchOutcome(false, None, s1)
  }

  /** Every public operation of the controller. */
  datatype Op =
    | SetZoomInEnabled(enabled: bool)
    | SetZoomOutEnabled(enabled: bool)
    | SetOnZoomListener(listener: Option<ZoomListenerId>)
    | SetVisibility(visibility: Visibility)
    | SetShowFadeOutDelays(showDelayInMillis: int, fadeOutAnimationDurationInMillis: int)
    | OnDetach
    | Activate(now: int)
    | Touch(hitZoomIn: bool, hitZoomOut: bool)

  function Apply(s: ControllerState, op: Op): ControllerState
  {
    match op
    case SetZoomInEnabled(b) => s.(zoomInEnabled := b)
    case SetZoomOutEnabled(b) => s.(zoomOutEnabled := b)
    case SetOnZoomListener(l) => s.(listener := l)
    case SetVisibility(v) => VisibilityStep(s, v)
    case SetShowFadeOutDelays(show, fade) => s.(showDelayInMillis := show, fadeOutAnimationDurationInMillis := fade)
    case OnDetach => s.(detached := true)
    case Activate(now) => ActivateStep(s, now)
    case Touch(hitIn, hitOut) => TouchStep(s, hitIn, hitOut).state
  }

  function Run(s: ControllerState, ops: seq<Op>): ControllerState
    decreases |ops|
  {
    if |ops| == 0 then s else Run(Apply(s, ops[0]), ops[1..])
  }

  /** `onDetach` is a latch: no sequence of operations clears it. */
  lemma {:induction false} DetachedIsPermanent(s: ControllerState, ops: seq<Op>)
    requires s.detached
    ensures Run(s, ops).detached
    decreases |ops|
  {
    if |ops| > 0 {
      DetachedIsPermanent(Apply(s, ops[0]), ops[1..]);
    }
  }

  /** Once detached, activations do nothing: only the setters change state. */
  lemma {:induction false} DetachedIgnoresActivation(s: ControllerState, nows: seq<int>)
    requires s.detached
    ensures Run(s, seq(|nows|, i requires 0 <= i < |nows| => Activate(nows[i]))) == s
    decreases |nows|
  {
    var ops := seq(|nows|, i requires 0 <= i < |nows| => Activate(nows[i]));
    if |nows| > 0 {
      assert ops[1..] == seq(|nows[1..]|, i requires 0 <= i < |nows[1..]| => Activate(nows[1..][i]));
      DetachedIgnoresActivation(s, nows[1..]);
    }
  }

  /** Outside the animator the opacity only ever takes the values 0 and 1. */
  lemma {:induction false} AlphaStaysBinary(s: ControllerState, ops: seq<Op>)
    requires AlphaIsBinary(s)
    ensures AlphaIsBinary(Run(s, ops))
    decreases |ops|
  {
    if |ops| > 0 {
      AlphaStaysBinary(Apply(s, ops[0]), ops[1..]);
    }
  }

  /** The tap that follows the buttons' appearance only reveals them; the
      tap after it is dispatched as usual. */
  lemma FirstTapAfterAppearing(s: ControllerState, now: int, hitIn1: bool, hitOut1: bool, hitIn2: bool, hitOut2: bool)
    requires !s.detached && s.visibility == SHOW_AND_FADEOUT && s.alpha == 0.0 && !s.justActivated
    ensures var t := ActivateStep(s, now);
      var first := TouchStep(t, hitIn1, hitOut1);
      var second := TouchStep(first.state, hitIn2, hitOut2);
      !first.handled && first.zoomCall.None? && (second.handled <==> hitIn2 || hitOut2)
  {
  }

  /** Two activations with no tap between them leave no tap to swallow: the
      second one clears the flag the first one set. */
  lemma ActivateTwiceClearsFlag(s: ControllerState, now1: int, now2: int)
    requires !s.detached && s.visibility == SHOW_AND_FADEOUT
    ensures !ActivateStep(ActivateStep(s, now1), now2).justActivated
  {
  }

  /** The controller object. `zoomRequests` records the `onZoom` calls made
      on the listener, oldest first. */
  class CustomZoomButtonsController {
    var listener: Option<ZoomListenerId>
    var zoomInEnabled: bool
    var zoomOutEnabled: bool
    var alpha: real
    var detached: bool
    var visibility: Visibility
    var fadeOutAnimationDurationInMillis: int
    var showDelayInMillis: int
    var justActivated: bool
    var latestActivation: int
    var zoomRequests: seq<bool>

    function State(): ControllerState
      reads this
    {
      ControllerState(listener, zoomInEnabled, zoomOutEnabled, alpha, detached, visibility,
        fadeOutAnimationDurationInMillis, showDelayInMillis, justActivated, latestActivation)
    }

    constructor ()
      ensures State() == Initial() && zoomRequests == []
    {
      listener := None;
      zoomInEnabled := false;
      zoomOutEnabled := false;
      alpha := 0.0;
      detached := false;
      visibility := NEVER;
      fadeOutAnimationDurationInMillis := 500;
      showDelayInMillis := 3500;
      justActivated := false;
      latestActivation := 0;
      zoomRequests := [];
    }

    method SetZoomInEnabled(enabled: bool)
      modifies this
      ensures State() == Apply(old(State()), Op.SetZoomInEnabled(enabled)) && zoomRequests == old(zoomRequests)
    {
      zoomInEnabled := enabled;
    }

    method SetZoomOutEnabled(enabled: bool)
      modifies this
      ensures State() == Apply(old(State()), Op.SetZoomOutEnabled(enabled)) && zoomRequests == old(zoomRequests)
    {
      zoomOutEnabled := enabled;
    }

    method SetOnZoomListener(l: Option<ZoomListenerId>)
      modifies this
      ensures State() == Apply(old(State()), Op.SetOnZoomListener(l)) && zoomRequests == old(zoomRequests)
    {
      listener := l;
    }

    method SetVisibility(v: Visibility)
      modifies this
      ensures State() == VisibilityStep(old(State()), v) && zoomRequests == old(zoomRequests)
    {
      visibility := v;
      alpha := match v
        case ALWAYS => 1.0
        case NEVER => 0.0
        case SHOW_AND_FADEOUT => 0.0;
    }

    method SetShowFadeOutDelays(showDelay: int, fadeOutDuration: int)
      modifies this
      ensures State() == Apply(old(State()), Op.SetShowFadeOutDelays(showDelay, fadeOutDuration))
      ensures zoomRequests == old(zoomRequests)
    {
      showDelayInMillis := showDelay;
      fadeOutAnimationDurationInMillis := fadeOutDuration;
    }

    method OnDetach()
      modifies this
      ensures State() == Apply(old(State()), Op.OnDetach) && zoomRequests == old(zoomRequests)
    {
      detached := true;
    }

    method Activate(now: int)
      modifies this
      ensures State() == ActivateStep(old(State()), now) && zoomRequests == old(zoomRequests)
    {
      if detached {
        return;
      }
      if visibility != SHOW_AND_FADEOUT {
        return;
      }
      var previousAlpha := alpha;
      justActivated := if !justActivated then previousAlpha == 0.0 else false;
      alpha := 1.0;
      latestActivation := now;
    }

    method CheckJustActivated() returns (wasJustActivated: bool)
      modifies this
      ensures (wasJustActivated, State()) == CheckJustActivatedStep(old(State()))
      ensures zoomRequests == old(zoomRequests)
    {
      if justActivated {
        justActivated := false;
        return true;
      }
      return false;
    }

    method IsTouched(hitZoomIn: bool, hitZoomOut: bool) returns (handled: bool)
      modifies this
      ensures var o := TouchStep(old(State()), hitZoomIn, hitZoomOut);
        handled == o.handled && State() == o.state &&
        zoomRequests == old(zoomRequests) + (if o.zoomCall.Some? then [o.zoomCall.value] else [])
    {
      if alpha == 0.0 {
        return false;
      }
      var wasJustActivated := CheckJustActivated();
      if wasJustActivated {
        return false;
      }
      if hitZoomIn {
        if zoomInEnabled && listener.Some? {
          zoomRequests := zoomRequests + [true];
        }
        return true;
      }
      if hitZoomOut {
        if zoomOutEnabled && listener.Some? {
          zoomRequests := zoomRequests + [false];
        }
        return true;
      }
      return false;
    }
  }
}
