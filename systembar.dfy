/**
 * The car system bar view: which of its three button groups is shown, the
 * home and control-center buttons, the notification-shade and HVAC buttons
 * (whose panels exclude each other), touch forwarding to the overlay panels,
 * and handing the user tracker to every system-bar button of the view tree.
 */
module CarSystemBar {
  import opened Wrappers

  /** View.VISIBLE, View.INVISIBLE and View.GONE. */
  datatype Visibility = Visible | Invisible | Gone

  const BUTTON_TYPE_NAVIGATION: int := 0
  const BUTTON_TYPE_KEYGUARD: int := 1
  const BUTTON_TYPE_OCCLUSION: int := 2

  /** A touch event, reduced to its action and raw y coordinate. */
  datatype TouchEvent = TouchEvent(action: int, y: int)

  /** One call of a status-bar window touch listener. */
  datatype Dispatch = Dispatch(listener: int, event: TouchEvent)

  /** The calls triggerAllTouchListeners makes, in iteration order of the listener collection. */
  function Dispatches(listeners: seq<int>, event: TouchEvent): (r: seq<Dispatch>)
    ensures |r| == |listeners|
    ensures forall i :: 0 <= i < |r| ==> r[i].listener == listeners[i] && r[i].event == event
  {
    if |listeners| == 0 then []
    else Dispatches(listeners[..|listeners| - 1], event) + [Dispatch(listeners[|listeners| - 1], event)]
  }

  /**
   * The decision of onInterceptTouchEvent. `hasListeners` says the listener set
   * is non-null and non-empty; `shadeOpen` is None when no notification-shade
   * controller is set; `superIntercepts` is what LinearLayout would answer.
   */
  function InterceptDecision(hasListeners: bool, buttonsDraggable: bool, consumeWhenPanelOpen: bool,
                             shadeOpen: Option<bool>, superIntercepts: bool): (r: bool)
    ensures hasListeners && !buttonsDraggable ==> !r
    ensures hasListeners && buttonsDraggable && consumeWhenPanelOpen && shadeOpen == Some(true) ==> r
    ensures (!hasListeners || (buttonsDraggable && !(consumeWhenPanelOpen && shadeOpen == Some(true))))
              ==> r == superIntercepts
  {
    if hasListeners then
      if !buttonsDraggable then false
      else
        var shouldConsumeEvent := if shadeOpen.None? then false else shadeOpen.value;
        if consumeWhenPanelOpen && shouldConsumeEvent then true else superIntercepts
    else superIntercepts
  }

  // ---------------------------------------------------------------------------------------------
  // Notification shade and HVAC panel exclusivity
  // ---------------------------------------------------------------------------------------------

  /**
   * Whether the notification shade and the HVAC panel are open; None stands for
   * a controller that was never set. A controller's togglePanel flips its panel.
   */
  datatype Panels = Panels(shadeOpen: Option<bool>, hvacOpen: Option<bool>)

  predicate BothOpen(p: Panels)
  {
    p.shadeOpen == Some(true) && p.hvacOpen == Some(true)
  }

  /** The panels after onNotificationsClick; `buttonDisabled` is a disabled notifications button. */
  function AfterNotificationsClick(p: Panels, buttonDisabled: bool): Panels
  {
    if buttonDisabled then p
    else match p.shadeOpen
      case None => p
      case Some(open) =>
        var hvac := if !open && p.hvacOpen == Some(true) then Some(false) else p.hvacOpen;
        Panels(Some(!open), hvac)
  }

  /** The panels after onHvacClick. */
  function AfterHvacClick(p: Panels): Panels
  {
    match p.hvacOpen
    case None => p
    case Some(open) =>
      var shade := if !open && p.shadeOpen == Some(true) then Some(false) else p.shadeOpen;
      Panels(shade, Some(!open))
  }

  /** Opening the shade with a click always leaves HVAC closed, and the reverse. */
  lemma OpeningOnePanelClosesTheOther(p: Panels, buttonDisabled: bool)
    ensures (AfterNotificationsClick(p, buttonDisabled).shadeOpen == Some(true) && p.shadeOpen != Some(true))
              ==> AfterNotificationsClick(p, buttonDisabled).hvacOpen != Some(true)
    ensures (AfterHvacClick(p).hvacOpen == Some(true) && p.hvacOpen != Some(true))
              ==> AfterHvacClick(p).shadeOpen != Some(true)
  {
  }

  /** A click on the button of the open panel closes it and leaves the other panel as it was. */
  lemma ClosingClickTouchesOnlyItsPanel(p: Panels)
    ensures p.shadeOpen == Some(true) ==>
      AfterNotificationsClick(p, false) == Panels(Some(false), p.hvacOpen)
    ensures p.hvacOpen == Some(true) ==> AfterHvacClick(p) == Panels(p.shadeOpen, Some(false))
  {
  }

  datatype Click = NotificationsClick(buttonDisabled: bool) | HvacClick

  function AfterClicks(p: Panels, clicks: seq<Click>): Panels
    decreases |clicks|
  {
    if |clicks| == 0 then p
    else
      var q := match clicks[0]
        case NotificationsClick(disabled) => AfterNotificationsClick(p, disabled)
        case HvacClick => AfterHvacClick(p);
      AfterClicks(q, clicks[1..])
  }

  /** Starting from "not both open", no sequence of clicks opens both panels. */
  lemma {:induction false} ClicksNeverOpenBothPanels(p: Panels, clicks: seq<Click>)
    requires !BothOpen(p)
    ensures !BothOpen(AfterClicks(p, clicks))
    decreases |clicks|
  {
    if |clicks| > 0 {
      var q := match clicks[0]
        case NotificationsClick(disabled) => AfterNotificationsClick(p, disabled)
        case HvacClick => AfterHvacClick(p);
      assert !BothOpen(q);
      ClicksNeverOpenBothPanels(q, clicks[1..]);
    }
  }

  // ---------------------------------------------------------------------------------------------
  // The view tree walked by setupSystemBarButtons
  // ---------------------------------------------------------------------------------------------

  /**
   * A view of the system bar: a CarSystemBarButton (with the user tracker it
   * was given, and its own child views, which the walk does not enter), a
   * plain ViewGroup, or any other view.
   */
  datatype View =
    | ButtonView(userTracker: Option<int>, inner: seq<View>)
    | GroupView(children: seq<View>)
    | OtherView(id: int)

  /** The tree after every button reachable through view groups has been given `tracker`. */
  function WithUserTracker(v: View, tracker: int): View
    decreases v
  {
    match v
    case ButtonView(_, inner) => ButtonView(Some(tracker), inner)
    case GroupView(cs) => GroupView(seq(|cs|, i requires 0 <= i < |cs| => WithUserTracker(cs[i], tracker)))
    case OtherView(_) => v
  }

  /** Every button reachable through view groups holds `tracker`. */
  predicate ReachableButtonsHave(v: View, tracker: int)
    decreases v
  {
    match v
    case ButtonView(t, _) => t == Some(tracker)
    case GroupView(cs) => forall i :: 0 <= i < |cs| ==> ReachableButtonsHave(cs[i], tracker)
    case OtherView(_) => true
  }

  /** Same tree apart from the user trackers of reachable buttons. */
  predicate SameShape(v: View, w: View)
    decreases v
  {
    match v
    case ButtonView(_, inner) => w.ButtonView? && w.inner == inner
    case GroupView(cs) =>
      w.GroupView? && |w.children| == |cs| &&
      forall i :: 0 <= i < |cs| ==> SameShape(cs[i], w.children[i])
    case OtherView(_) => w == v
  }

  lemma {:induction false} WithUserTrackerReachesEveryButton(v: View, tracker: int)
    ensures ReachableButtonsHave(WithUserTracker(v, tracker), tracker)
    ensures SameShape(v, WithUserTracker(v, tracker))
    decreases v
  {
    match v
    case ButtonView(_, _) =>
    case GroupView(cs) =>
      forall i | 0 <= i < |cs|
        ensures ReachableButtonsHave(WithUserTracker(cs[i], tracker), tracker)
        ensures SameShape(cs[i], WithUserTracker(cs[i], tracker))
      {
        WithUserTrackerReachesEveryButton(cs[i], tracker);
      }
    case OtherView(_) =>
  }

  /** A tree whose reachable buttons already hold the tracker is left as it is. */
  lemma {:induction false} WithUserTrackerIdempotent(v: View, tracker: int)
    requires ReachableButtonsHave(v, tracker)
    ensures WithUserTracker(v, tracker) == v
    decreases v
  {
    match v
    case ButtonView(_, _) =>
    case GroupView(cs) =>
      forall i | 0 <= i < |cs| ensures WithUserTracker(cs[i], tracker) == cs[i] {
        WithUserTrackerIdempotent(cs[i], tracker);
      }
      assert WithUserTracker(v, tracker).children == cs;
    case OtherView(_) =>
  }

  /** setupSystemBarButtons(View, UserTracker): the recursive walk with its loop over children. */
  method SetupSystemBarButtons(v: View, tracker: int) returns (r: View)
    ensures r == WithUserTracker(v, tracker)
    decreases v
  {
    match v {
      case ButtonView(_, inner) =>
        r := ButtonView(Some(tracker), inner);
      case GroupView(cs) =>
        var done: seq<View> := [];
        var i := 0;
        while i < |cs|
          invariant 0 <= i <= |cs|
          invariant |done| == i
          invariant forall k :: 0 <= k < i ==> done[k] == WithUserTracker(cs[k], tracker)
        {
          var child := SetupSystemBarButtons(cs[i], tracker);
          done := done + [child];
          i := i + 1;
        }
        r := GroupView(done);
      case OtherView(_) =>
        r := v;
    }
  }

  // ---------------------------------------------------------------------------------------------
  // The view itself
  // ---------------------------------------------------------------------------------------------

  /** CarSystemBarView. A child view that the layout lacks is None. */
  class CarSystemBarView {
    /** config_consumeSystemBarTouchWhenNotificationPanelOpen and config_systemBarButtonsDraggable. */
    const consumeTouchWhenPanelOpen: bool
    const buttonsDraggable: bool

    var homeButton: Option<Visibility>
    var passengerHomeButton: Option<Visibility>
    var controlCenterButton: Option<Visibility>
    var navButtons: Option<Visibility>
    var lockScreenButtons: Option<Visibility>
    var occlusionButtons: Option<Visibility>
    /** The notifications button, holding whether it is disabled. */
    var notificationsButton: Option<bool>
    var panels: Panels
    /** How often each panel controller's togglePanel and the disabled-click runnable ran. */
    var shadeToggles: nat
    var hvacToggles: nat
    var disabledClickRuns: nat
    /** The status-bar window touch listeners (None while never set), and every call made to them. */
    var touchListeners: Option<seq<int>>
    var touchLog: seq<Dispatch>

    constructor (consumeTouchWhenPanelOpen: bool, buttonsDraggable: bool,
                 homeButton: Option<Visibility>, passengerHomeButton: Option<Visibility>,
                 controlCenterButton: Option<Visibility>, navButtons: Option<Visibility>,
                 lockScreenButtons: Option<Visibility>, occlusionButtons: Option<Visibility>,
                 notificationsButton: Option<bool>, panels: Panels)
      ensures this.consumeTouchWhenPanelOpen == consumeTouchWhenPanelOpen
      ensures this.buttonsDraggable == buttonsDraggable
      ensures this.homeButton == homeButton && this.passengerHomeButton == passengerHomeButton
      ensures this.controlCenterButton == controlCenterButton
      ensures this.navButtons == navButtons && this.lockScreenButtons == lockScreenButtons
      ensures this.occlusionButtons == occlusionButtons
      ensures this.notificationsButton == notificationsButton && this.panels == panels
      ensures shadeToggles == 0 && hvacToggles == 0 && disabledClickRuns == 0
      ensures touchListeners.None? && touchLog == []
    {
      this.consumeTouchWhenPanelOpen := consumeTouchWhenPanelOpen;
      this.buttonsDraggable := buttonsDraggable;
      this.homeButton := homeButton;
      this.passengerHomeButton := passengerHomeButton;
      this.controlCenterButton := controlCenterButton;
      this.navButtons := navButtons;
      this.lockScreenButtons := lockScreenButtons;
      this.occlusionButtons := occlusionButtons;
      this.notificationsButton := notificationsButton;
      this.panels := panels;
      shadeToggles, hvacToggles, disabledClickRuns := 0, 0, 0;
      touchListeners := None;
      touchLog := [];
    }

    /** Exactly one of the three button groups is VISIBLE and the other two are GONE. */
    predicate ExactlyOneButtonGroupVisible()
      reads this
    {
      || (navButtons == Some(Visible) && lockScreenButtons == Some(Gone) && occlusionButtons == Some(Gone))
      || (navButtons == Some(Gone) && lockScreenButtons == Some(Visible) && occlusionButtons == Some(Gone))
      || (navButtons == Some(Gone) && lockScreenButtons == Some(Gone) && occlusionButtons == Some(Visible))
    }

    /** updateHomeButtonVisibility. */
    method UpdateHomeButtonVisibility(isPassenger: bool)
      modifies this`homeButton, this`passengerHomeButton
      ensures !isPassenger || old(passengerHomeButton).None? ==>
        homeButton == old(homeButton) && passengerHomeButton == old(passengerHomeButton)
      ensures isPassenger && old(passengerHomeButton).Some? ==>
        passengerHomeButton == Some(Visible) &&
        homeButton == (if old(homeButton).Some? then Some(Gone) else None)
    {
      if !isPassenger {
        return;
      }
      if passengerHomeButton.Some? {
        if homeButton.Some? {
          homeButton := Some(Gone);
        }
        passengerHomeButton := Some(Visible);
      }
    }

    /** updateControlCenterButtonVisibility: both arms of its conditional are GONE. */
    method UpdateControlCenterButtonVisibility(isMumd: bool)
      modifies this`controlCenterButton
      ensures controlCenterButton == (if old(controlCenterButton).Some? then Some(Gone) else None)
    {
      if controlCenterButton.Some? {
        controlCenterButton := Some(if isMumd then Gone else Gone);
      }
    }

    /** showButtonsOfType; an unknown type changes nothing. */
    method ShowButtonsOfType(buttonsType: int)
      modifies this`navButtons, this`lockScreenButtons, this`occlusionButtons
      ensures !(0 <= buttonsType <= 2) ==>
        navButtons == old(navButtons) && lockScreenButtons == old(lockScreenButtons) &&
        occlusionButtons == old(occlusionButtons)
      ensures 0 <= buttonsType <= 2 ==>
        navButtons == (if old(navButtons).None? then None
                       else Some(if buttonsType == BUTTON_TYPE_NAVIGATION then Visible else Gone)) &&
        lockScreenButtons == (if old(lockScreenButtons).None? then None
                              else Some(if buttonsType == BUTTON_TYPE_KEYGUARD then Visible else Gone)) &&
        occlusionButtons == (if old(occlusionButtons).None? then None
                             else Some(if buttonsType == BUTTON_TYPE_OCCLUSION then Visible else Gone))
      ensures (0 <= buttonsType <= 2 && old(navButtons).Some? && old(lockScreenButtons).Some? &&
               old(occlusionButtons).Some?) ==> ExactlyOneButtonGroupVisible()
    {
      if buttonsType == BUTTON_TYPE_NAVIGATION {
        SetNavigationButtonsVisibility(Visible);
        SetKeyguardButtonsVisibility(Gone);
        SetOcclusionButtonsVisibility(Gone);
      } else if buttonsType == BUTTON_TYPE_KEYGUARD {
        SetNavigationButtonsVisibility(Gone);
        SetKeyguardButtonsVisibility(Visible);
        SetOcclusionButtonsVisibility(Gone);
      } else if buttonsType == BUTTON_TYPE_OCCLUSION {
        SetNavigationButtonsVisibility(Gone);
        SetKeyguardButtonsVisibility(Gone);
        SetOcclusionButtonsVisibility(Visible);
      }
    }

    method SetNavigationButtonsVisibility(visibility: Visibility)
      modifies this`navButtons
      ensures navButtons == (if old(navButtons).None? then None else Some(visibility))
    {
      if navButtons.Some? {
        navButtons := Some(visibility);
      }
    }

    method SetKeyguardButtonsVisibility(visibility: Visibility)
      modifies this`lockScreenButtons
      ensures lockScreenButtons == (if old(lockScreenButtons).None? then None else Some(visibility))
    {
      if lockScreenButtons.Some? {
        lockScreenButtons := Some(visibility);
      }
    }

    method SetOcclusionButtonsVisibility(visibility: Visibility)
      modifies this`occlusionButtons
      ensures occlusionButtons == (if old(occlusionButtons).None? then None else Some(visibility))
    {
      if occlusionButtons.Some? {
        occlusionButtons := Some(visibility);
      }
    }

    /**
     * onNotificationsClick: a disabled button runs its disabled runnable and
     * toggles nothing; otherwise HVAC is closed first when the shade is about
     * to open, and the shade is toggled exactly once.
     */
    method OnNotificationsClick()
      modifies this`panels, this`shadeToggles, this`hvacToggles, this`disabledClickRuns
      ensures panels == AfterNotificationsClick(old(panels), old(notificationsButton) == Some(true))
      ensures old(notificationsButton) == Some(true) ==>
        disabledClickRuns == old(disabledClickRuns) + 1 &&
        shadeToggles == old(shadeToggles) && hvacToggles == old(hvacToggles)
      ensures old(notificationsButton) != Some(true) ==>
        disabledClickRuns == old(disabledClickRuns) &&
        shadeToggles == old(shadeToggles) + (if old(panels).shadeOpen.Some? then 1 else 0) &&
        hvacToggles == old(hvacToggles) +
          (if old(panels).shadeOpen == Some(false) && old(panels).hvacOpen == Some(true) then 1 else 0)
    {
      if notificationsButton.Some? && notificationsButton.value {
        disabledClickRuns := disabledClickRuns + 1;
        return;
      }
      if panels.shadeOpen.Some? {
        if !panels.shadeOpen.value && panels.hvacOpen.Some? && panels.hvacOpen.value {
          ToggleHvacPanel();
        }
        ToggleNotificationsPanel();
      }
    }

    /** onHvacClick: the shade is closed first when HVAC is about to open; HVAC is toggled once. */
    method OnHvacClick()
      modifies this`panels, this`shadeToggles, this`hvacToggles
      ensures panels == AfterHvacClick(old(panels))
      ensures hvacToggles == old(hvacToggles) + (if old(panels).hvacOpen.Some? then 1 else 0)
      ensures shadeToggles == old(shadeToggles) +
        (if old(panels).hvacOpen == Some(false) && old(panels).shadeOpen == Some(true) then 1 else 0)
    {
      if panels.hvacOpen.Some? {
        if !panels.hvacOpen.value && panels.shadeOpen.Some? && panels.shadeOpen.value {
          ToggleNotificationsPanel();
        }
        ToggleHvacPanel();
      }
    }

    /** NotificationsShadeController.togglePanel, on a set controller. */
    method ToggleNotificationsPanel()
      requires panels.shadeOpen.Some?
      modifies this`panels, this`shadeToggles
      ensures panels == old(panels).(shadeOpen := Some(!old(panels).shadeOpen.value))
      ensures shadeToggles == old(shadeToggles) + 1
    {
      panels := panels.(shadeOpen := Some(!panels.shadeOpen.value));
      shadeToggles := shadeToggles + 1;
    }

    /** HvacPanelController.togglePanel, on a set controller. */
    method ToggleHvacPanel()
      requires panels.hvacOpen.Some?
      modifies this`panels, this`hvacToggles
      ensures panels == old(panels).(hvacOpen := Some(!old(panels).hvacOpen.value))
      ensures hvacToggles == old(hvacToggles) + 1
    {
      panels := panels.(hvacOpen := Some(!panels.hvacOpen.value));
      hvacToggles := hvacToggles + 1;
    }

    /** setStatusBarWindowTouchListeners. */
    method SetStatusBarWindowTouchListeners(listeners: Option<seq<int>>)
      modifies this`touchListeners
      ensures touchListeners == listeners
    {
      touchListeners := listeners;
    }

    /** triggerAllTouchListeners: every listener is called once with the event. */
    method TriggerAllTouchListeners(event: TouchEvent)
      modifies this`touchLog
      ensures touchLog == old(touchLog) + (if touchListeners.None? then [] else Dispatches(touchListeners.value, event))
    {
      if touchListeners.None? {
        return;
      }
      var listeners := touchListeners.value;
      var i := 0;
      while i < |listeners|
        invariant 0 <= i <= |listeners|
        invariant touchLog == old(touchLog) + Dispatches(listeners[..i], event)
      {
        assert listeners[..i + 1][..i] == listeners[..i];
        touchLog := touchLog + [Dispatch(listeners[i], event)];
        i := i + 1;
      }
      assert listeners[..i] == listeners;
    }

    /** onInterceptTouchEvent; `superIntercepts` is LinearLayout's own answer. */
    method OnInterceptTouchEvent(event: TouchEvent, superIntercepts: bool) returns (r: bool)
      modifies this`touchLog
      ensures r == InterceptDecision(touchListeners.Some? && |touchListeners.value| > 0, buttonsDraggable,
                                     consumeTouchWhenPanelOpen, panels.shadeOpen, superIntercepts)
      ensures touchLog == old(touchLog) +
        (if touchListeners.Some? && |touchListeners.value| > 0 && buttonsDraggable
         then Dispatches(touchListeners.value, event) else [])
    {
      if touchListeners.Some? && |touchListeners.value| > 0 {
        if !buttonsDraggable {
          return false;
        }
        var shouldConsumeEvent := if panels.shadeOpen.None? then false else panels.shadeOpen.value;
        TriggerAllTouchListeners(event);
        if consumeTouchWhenPanelOpen && shouldConsumeEvent {
          return true;
        }
      }
      return superIntercepts;
    }

    /** onTouchEvent: forwards the event to every listener, then answers as LinearLayout does. */
    method OnTouchEvent(event: TouchEvent, superHandles: bool) returns (r: bool)
      modifies this`touchLog
      ensures r == superHandles
      ensures touchLog == old(touchLog) + (if touchListeners.None? then [] else Dispatches(touchListeners.value, event))
    {
      TriggerAllTouchListeners(event);
      return superHandles;
    }
  }
}
