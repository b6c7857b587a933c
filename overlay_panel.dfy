/**
 * The drag-to-open overlay panel: its direction (from the top bar or from the
 * bottom bar), which touch actions open and close it, the clip bounds that
 * reveal it, the end position of its animations, the settle decision at the
 * end of a drag, and the visible / expanded / animating / tracking flags that
 * expanding, collapsing, animating and resetting change.
 */
module OverlayPanel {
  import opened Wrappers

  /** The two accepted arguments of setOverlayDirection. */
  const OVERLAY_FROM_TOP_BAR: int := 0
  const OVERLAY_FROM_BOTTOM_BAR: int := 1

  /** The values of mAnimateDirection. */
  const POSITIVE_DIRECTION: int := 1
  const NEGATIVE_DIRECTION: int := -1

  /** DEFAULT_FLING_VELOCITY; velocities are whole numbers in this model. */
  const DEFAULT_FLING_VELOCITY: int := 0

  /** MotionEvent.ACTION_DOWN and MotionEvent.ACTION_UP. */
  const ACTION_DOWN: int := 0
  const ACTION_UP: int := 1

  datatype Rect = Rect(left: int, top: int, right: int, bottom: int)

  /** setOverlayDirection's mapping; None is the IllegalArgumentException. */
  function DirectionFor(overlayDirection: int): (r: Option<int>)
    ensures overlayDirection == OVERLAY_FROM_TOP_BAR <==> r == Some(POSITIVE_DIRECTION)
    ensures overlayDirection == OVERLAY_FROM_BOTTOM_BAR <==> r == Some(NEGATIVE_DIRECTION)
    ensures r.None? <==> overlayDirection != OVERLAY_FROM_TOP_BAR && overlayDirection != OVERLAY_FROM_BOTTOM_BAR
  {
    if overlayDirection == OVERLAY_FROM_TOP_BAR then Some(POSITIVE_DIRECTION)
    else if overlayDirection == OVERLAY_FROM_BOTTOM_BAR then Some(NEGATIVE_DIRECTION)
    else None
  }

  predicate IsOverlayFromTopBar(direction: int)
  {
    direction == POSITIVE_DIRECTION
  }

  predicate IsOverlayFromBottomBar(direction: int)
  {
    direction == NEGATIVE_DIRECTION
  }

  predicate IsOpeningAction(direction: int, action: int)
  {
    if IsOverlayFromTopBar(direction) then action == ACTION_DOWN
    else if IsOverlayFromBottomBar(direction) then action == ACTION_UP
    else false
  }

  predicate IsClosingAction(direction: int, action: int)
  {
    if IsOverlayFromTopBar(direction) then action == ACTION_UP
    else if IsOverlayFromBottomBar(direction) then action == ACTION_DOWN
    else false
  }

  /**
   * No action both opens and closes the panel; a top-bar panel opens on DOWN and
   * closes on UP, a bottom-bar panel the other way round, any other direction on
   * nothing.
   */
  lemma OpeningAndClosingActions(direction: int, action: int)
    ensures !(IsOpeningAction(direction, action) && IsClosingAction(direction, action))
    ensures direction == POSITIVE_DIRECTION ==>
      (IsOpeningAction(direction, action) <==> action == ACTION_DOWN) &&
      (IsClosingAction(direction, action) <==> action == ACTION_UP)
    ensures direction == NEGATIVE_DIRECTION ==>
      (IsOpeningAction(direction, action) <==> action == ACTION_UP) &&
      (IsClosingAction(direction, action) <==> action == ACTION_DOWN)
    ensures direction != POSITIVE_DIRECTION && direction != NEGATIVE_DIRECTION ==>
      !IsOpeningAction(direction, action) && !IsClosingAction(direction, action)
  {
  }

  /** Math.max(0, Math.min(y, height)). */
  function ClampToPanel(y: int, height: nat): (r: int)
    ensures 0 <= r <= height
    ensures 0 <= y <= height ==> r == y
    ensures y < 0 ==> r == 0
    ensures y > height ==> r == height
  {
    if y < 0 then 0 else if y > height then height else y
  }

  /** The clip set by setViewClipBounds(y) for a layout of the given size. */
  function ClipBoundsFor(direction: int, y: int, width: int, height: nat): (r: Rect)
    ensures 0 <= r.top <= r.bottom <= height
    ensures r.left == 0 && r.right == width
    ensures IsOverlayFromTopBar(direction) ==> r.top == 0 && r.bottom == ClampToPanel(y, height)
    ensures !IsOverlayFromTopBar(direction) ==> r.top == ClampToPanel(y, height) && r.bottom == height
  {
    var clamped := ClampToPanel(y, height);
    if IsOverlayFromTopBar(direction) then Rect(0, 0, width, clamped)
    else Rect(0, clamped, width, height)
  }

  /** getCurrentStartPosition: the moving edge of the clip. */
  function CurrentStartPosition(direction: int, clip: Rect): int
  {
    if IsOverlayFromTopBar(direction) then clip.bottom else clip.top
  }

  /** getDefaultStartPosition: the fully closed edge. */
  function DefaultStartPosition(direction: int, height: nat): int
  {
    if IsOverlayFromTopBar(direction) then 0 else height
  }

  /** getEndPosition. */
  function EndPosition(direction: int, isClosing: bool, height: nat): (r: int)
    ensures r == 0 || r == height
    ensures r == height <==> (height == 0 ||
      (IsOverlayFromTopBar(direction) && !isClosing) || (IsOverlayFromBottomBar(direction) && isClosing))
  {
    if (IsOverlayFromTopBar(direction) && !isClosing) || (IsOverlayFromBottomBar(direction) && isClosing)
    then height
    else 0
  }

  /** Reading the start position back from the clip of y gives the clamped y. */
  lemma StartPositionOfClip(direction: int, y: int, width: int, height: nat)
    ensures CurrentStartPosition(direction, ClipBoundsFor(direction, y, width, height)) == ClampToPanel(y, height)
  {
  }

  /**
   * A panel clipped at the end position of an opening animation is fully shown,
   * and one clipped at the end position of a closing animation is fully hidden.
   */
  lemma EndPositionShowsOrHidesAll(direction: int, width: int, height: nat)
    requires direction == POSITIVE_DIRECTION || direction == NEGATIVE_DIRECTION
    ensures var open := ClipBoundsFor(direction, EndPosition(direction, false, height), width, height);
      open.top == 0 && open.bottom == height
    ensures var closed := ClipBoundsFor(direction, EndPosition(direction, true, height), width, height);
      closed.top == closed.bottom
    ensures DefaultStartPosition(direction, height) == EndPosition(direction, true, height)
  {
  }

  /** onScroll: the handle-bar translation for the clamped y. */
  function HandleBarTranslation(direction: int, y: int, handleBarHeight: nat): (r: int)
    ensures y >= 0 ==> 0 <= r
    ensures y >= 0 ==> r <= y
    ensures IsOverlayFromTopBar(direction) ==> r == if y - handleBarHeight > 0 then y - handleBarHeight else 0
    ensures !IsOverlayFromTopBar(direction) ==> r == y
  {
    if IsOverlayFromTopBar(direction) then (if 0 > y - handleBarHeight then 0 else y - handleBarHeight)
    else y
  }

  /** maybeCompleteAnimation's choice between closing and opening the panel. */
  function ShouldClosePanel(direction: int, settleClosePercentage: int, cursorPercentage: int): (r: bool)
    ensures IsOverlayFromTopBar(direction) ==> (r <==> cursorPercentage < settleClosePercentage)
    ensures !IsOverlayFromTopBar(direction) ==> (r <==> cursorPercentage > settleClosePercentage)
  {
    if IsOverlayFromTopBar(direction) then settleClosePercentage > cursorPercentage
    else settleClosePercentage < cursorPercentage
  }

  /** A cursor exactly at the settle percentage never closes the panel. */
  lemma SettleAtCursorOpens(direction: int, p: int)
    ensures !ShouldClosePanel(direction, p, p)
  {
  }

  // ---------------------------------------------------------------------------------------------
  // The controller's state and its transitions
  // ---------------------------------------------------------------------------------------------

  /** A started ValueAnimator: its range, velocity and the isClosing captured by its end handler. */
  datatype Animation = Animation(from: int, to: int, velocity: int, isClosing: bool)

  /** An animatePanel call waiting for the first layout pass (the layout had no clip bounds). */
  datatype LayoutWaiter = LayoutWaiter(velocity: int, isClosing: bool)

  /**
   * What the controller's subclass and the platform decide: the layout size, the
   * handle bar's height (None when there is no handle bar), the subclass hooks
   * getSettleClosePercentage, shouldAnimateExpandPanel and shouldAnimateCollapsePanel,
   * and whether the current user is fully set up.
   */
  datatype PanelConfig = PanelConfig(
    height: nat, width: nat, handleBarHeight: Option<nat>, settleClosePercentage: int,
    shouldAnimateExpand: bool, shouldAnimateCollapse: bool, userFullySetup: bool)

  /** The controller's mutable fields. */
  datatype PanelState = PanelState(
    direction: int, visible: bool, expanded: bool, animating: bool, tracking: bool,
    openingVelocity: int, closingVelocity: int, settleClosePercentage: int,
    clip: Option<Rect>, handleBarTranslation: int, animation: Option<Animation>,
    layoutWaiters: seq<LayoutWaiter>, inflated: bool)

  /** The controller's invariant: a valid direction, a clip inside the layout, an animator iff animating. */
  predicate ValidState(c: PanelConfig, s: PanelState)
  {
    && (s.direction == POSITIVE_DIRECTION || s.direction == NEGATIVE_DIRECTION)
    && (s.clip.Some? ==> 0 <= s.clip.value.top <= s.clip.value.bottom <= c.height)
    && (s.animating <==> s.animation.Some?)
  }

  /** setViewClipBounds followed by onScroll. */
  function AfterSetClip(c: PanelConfig, s: PanelState, y: int): PanelState
  {
    var clamped := ClampToPanel(y, c.height);
    s.(clip := Some(ClipBoundsFor(s.direction, y, c.width, c.height)),
       handleBarTranslation :=
         if c.handleBarHeight.Some? then HandleBarTranslation(s.direction, clamped, c.handleBarHeight.value)
         else s.handleBarTranslation)
  }

  /** resetPanelVisibility. */
  function AfterReset(s: PanelState): PanelState
  {
    s.(visible := false, clip := None, expanded := false)
  }

  /** animate: does nothing while an animation runs. */
  function AfterAnimate(s: PanelState, from: int, to: int, velocity: int, isClosing: bool): PanelState
  {
    if s.animating then s
    else s.(animating := true, tracking := true, animation := Some(Animation(from, to, velocity, isClosing)))
  }

  /** The end handler of the animator started by animate. */
  function AfterAnimationEnd(s: PanelState): PanelState
    requires s.animation.Some?
  {
    var ended := s.(animating := false, tracking := false, animation := None,
                    openingVelocity := DEFAULT_FLING_VELOCITY, closingVelocity := DEFAULT_FLING_VELOCITY);
    if s.animation.value.isClosing then AfterReset(ended) else ended.(expanded := true)
  }

  /** animatePanel. */
  function AfterAnimatePanel(c: PanelConfig, s: PanelState, velocity: int, isClosing: bool): PanelState
  {
    var to := EndPosition(s.direction, isClosing, c.height);
    match s.clip
    case Some(rect) =>
      var from := CurrentStartPosition(s.direction, rect);
      if from != to then AfterAnimate(s, from, to, velocity, isClosing)
      else if isClosing then AfterReset(s)
      else if !s.animating && !s.expanded then s.(expanded := true)
      else s
    case None => s.(layoutWaiters := s.layoutWaiters + [LayoutWaiter(velocity, isClosing)])
  }

  /** animateExpandPanel. */
  function AfterExpand(c: PanelConfig, s: PanelState): PanelState
  {
    if !c.shouldAnimateExpand || !c.userFullySetup then s
    else AfterAnimatePanel(c, s.(visible := true), s.openingVelocity, false).(expanded := true)
  }

  /** animateCollapsePanel. */
  function AfterCollapse(c: PanelConfig, s: PanelState): PanelState
  {
    if !c.shouldAnimateCollapse then s
    else if !s.expanded && !s.visible then s
    else AfterAnimatePanel(c, s, s.closingVelocity, true)
  }

  /** toggle (inflating the view first when needed). */
  function AfterToggle(c: PanelConfig, s: PanelState): PanelState
  {
    var inflated := s.(inflated := true);
    if inflated.expanded then AfterCollapse(c, inflated) else AfterExpand(c, inflated)
  }

  /** maybeCompleteAnimation, for the cursor percentage computed by the gesture code. */
  function AfterMaybeComplete(c: PanelConfig, s: PanelState, cursorPercentage: int): PanelState
  {
    if !s.visible then s
    else
      var settled := if s.settleClosePercentage == 0 then s.(settleClosePercentage := c.settleClosePercentage) else s;
      AfterAnimatePanel(c, settled, DEFAULT_FLING_VELOCITY,
                   ShouldClosePanel(settled.direction, settled.settleClosePercentage, cursorPercentage))
  }

  /** The first layout pass: every waiting listener removes itself and calls animate. */
  function RunLayoutWaiters(c: PanelConfig, s: PanelState, waiters: seq<LayoutWaiter>): PanelState
    decreases |waiters|
  {
    if |waiters| == 0 then s
    else
      var w := waiters[0];
      var next := AfterAnimate(s, DefaultStartPosition(s.direction, c.height),
                          EndPosition(s.direction, false, c.height), w.velocity, w.isClosing);
      RunLayoutWaiters(c, next, waiters[1..])
  }

  function AfterGlobalLayout(c: PanelConfig, s: PanelState): PanelState
  {
    RunLayoutWaiters(c, s.(layoutWaiters := []), s.layoutWaiters)
  }

  // ---------------------------------------------------------------------------------------------
  // Properties of the transitions
  // ---------------------------------------------------------------------------------------------

  /** animate does nothing while an animation is running. */
  lemma AnimateIgnoredWhileAnimating(s: PanelState, from: int, to: int, velocity: int, isClosing: bool)
    requires s.animating
    ensures AfterAnimate(s, from, to, velocity, isClosing) == s
  {
  }

  /**
   * The end handler clears animating and tracking, resets both velocities, and
   * on closing hides and collapses the panel, on opening expands it.
   */
  lemma AnimationEndEffect(s: PanelState)
    requires s.animation.Some?
    ensures var e := AfterAnimationEnd(s);
      !e.animating && !e.tracking && e.animation.None? &&
      e.openingVelocity == DEFAULT_FLING_VELOCITY && e.closingVelocity == DEFAULT_FLING_VELOCITY
    ensures s.animation.value.isClosing ==>
      !AfterAnimationEnd(s).visible && !AfterAnimationEnd(s).expanded && AfterAnimationEnd(s).clip.None?
    ensures !s.animation.value.isClosing ==>
      AfterAnimationEnd(s).expanded && AfterAnimationEnd(s).visible == s.visible && AfterAnimationEnd(s).clip == s.clip
  {
  }

  /** A permitted expand leaves the panel visible and expanded. */
  lemma ExpandPanelShowsPanel(c: PanelConfig, s: PanelState)
    requires c.shouldAnimateExpand && c.userFullySetup
    ensures AfterExpand(c, s).visible && AfterExpand(c, s).expanded
  {
  }

  /** An expand that the subclass or the user set-up forbids changes nothing. */
  lemma ExpandPanelRefused(c: PanelConfig, s: PanelState)
    requires !c.shouldAnimateExpand || !c.userFullySetup
    ensures AfterExpand(c, s) == s
  {
  }

  /** Collapsing a panel that is neither expanded nor visible changes nothing. */
  lemma CollapseHiddenPanelNoOp(c: PanelConfig, s: PanelState)
    requires !s.expanded && !s.visible
    ensures AfterCollapse(c, s) == s
  {
  }

  /** toggle collapses exactly when the panel is expanded. */
  lemma ToggleCollapsesIffExpanded(c: PanelConfig, s: PanelState)
    ensures s.expanded ==> AfterToggle(c, s) == AfterCollapse(c, s.(inflated := true))
    ensures !s.expanded ==> AfterToggle(c, s) == AfterExpand(c, s.(inflated := true))
  {
  }

  /** maybeCompleteAnimation does nothing on a hidden panel. */
  lemma MaybeCompleteHiddenNoOp(c: PanelConfig, s: PanelState, cursorPercentage: int)
    requires !s.visible
    ensures AfterMaybeComplete(c, s, cursorPercentage) == s
  {
  }

  /**
   * Closing a visible, laid-out top-bar panel from a drag released above the
   * settle line starts a closing animation whose end hides the panel.
   */
  lemma ReleasedAboveSettleLineCloses(c: PanelConfig, s: PanelState, cursorPercentage: int)
    requires ValidState(c, s) && s.direction == POSITIVE_DIRECTION
    requires s.visible && !s.animating && s.clip.Some? && s.clip.value.bottom > 0
    requires s.settleClosePercentage != 0 && s.settleClosePercentage > cursorPercentage
    ensures var t := AfterMaybeComplete(c, s, cursorPercentage);
      t.animation == Some(Animation(s.clip.value.bottom, 0, DEFAULT_FLING_VELOCITY, true)) &&
      !AfterAnimationEnd(t).visible && !AfterAnimationEnd(t).expanded
  {
  }

  /** Clipping, resetting and ending an animation keep the controller's invariant. */
  lemma ClipResetEndKeepValid(c: PanelConfig, s: PanelState, y: int)
    requires ValidState(c, s)
    ensures ValidState(c, AfterSetClip(c, s, y))
    ensures ValidState(c, AfterReset(s))
    ensures s.animation.Some? ==> ValidState(c, AfterAnimationEnd(s))
  {
  }

  /** animatePanel keeps the controller's invariant. */
  lemma AnimatePanelKeepsValid(c: PanelConfig, s: PanelState, velocity: int, isClosing: bool)
    requires ValidState(c, s)
    ensures ValidState(c, AfterAnimatePanel(c, s, velocity, isClosing))
  {
  }

  /** animateExpandPanel keeps the controller's invariant. */
  lemma ExpandKeepsValid(c: PanelConfig, s: PanelState)
    requires ValidState(c, s)
    ensures ValidState(c, AfterExpand(c, s))
  {
    if c.shouldAnimateExpand && c.userFullySetup {
      AnimatePanelKeepsValid(c, s.(visible := true), s.openingVelocity, false);
    }
  }

  /** animateCollapsePanel keeps the controller's invariant. */
  lemma CollapseKeepsValid(c: PanelConfig, s: PanelState)
    requires ValidState(c, s)
    ensures ValidState(c, AfterCollapse(c, s))
  {
    if c.shouldAnimateCollapse && (s.expanded || s.visible) {
      AnimatePanelKeepsValid(c, s, s.closingVelocity, true);
    }
  }

  /** toggle keeps the controller's invariant. */
  lemma ToggleKeepsValid(c: PanelConfig, s: PanelState)
    requires ValidState(c, s)
    ensures ValidState(c, AfterToggle(c, s))
  {
    var i := s.(inflated := true);
    assert ValidState(c, i);
    if i.expanded {
      CollapseKeepsValid(c, i);
    } else {
      ExpandKeepsValid(c, i);
    }
  }

  /** maybeCompleteAnimation keeps the controller's invariant. */
  lemma MaybeCompleteKeepsValid(c: PanelConfig, s: PanelState, cursor: int)
    requires ValidState(c, s)
    ensures ValidState(c, AfterMaybeComplete(c, s, cursor))
  {
    if s.visible {
      var settled := if s.settleClosePercentage == 0 then s.(settleClosePercentage := c.settleClosePercentage) else s;
      assert ValidState(c, settled);
      AnimatePanelKeepsValid(c, settled, DEFAULT_FLING_VELOCITY,
                             ShouldClosePanel(settled.direction, settled.settleClosePercentage, cursor));
    }
  }

  /** Running the layout waiters keeps the invariant and starts at most one animation. */
  lemma {:induction false} RunLayoutWaitersEffect(c: PanelConfig, s: PanelState, waiters: seq<LayoutWaiter>)
    requires ValidState(c, s)
    ensures ValidState(c, RunLayoutWaiters(c, s, waiters))
    ensures s.animating ==> RunLayoutWaiters(c, s, waiters) == s
    ensures !s.animating && |waiters| > 0 ==>
      RunLayoutWaiters(c, s, waiters).animation ==
        Some(Animation(DefaultStartPosition(s.direction, c.height), EndPosition(s.direction, false, c.height),
                       waiters[0].velocity, waiters[0].isClosing))
    ensures !s.animating && |waiters| == 0 ==> RunLayoutWaiters(c, s, waiters) == s
    ensures RunLayoutWaiters(c, s, waiters).visible == s.visible
    ensures RunLayoutWaiters(c, s, waiters).expanded == s.expanded
    decreases |waiters|
  {
    if |waiters| > 0 {
      var w := waiters[0];
      var next := AfterAnimate(s, DefaultStartPosition(s.direction, c.height),
                          EndPosition(s.direction, false, c.height), w.velocity, w.isClosing);
      RunLayoutWaitersEffect(c, next, waiters[1..]);
      if !s.animating {
        assert next.animating;
        AnimatedStateIgnoresWaiters(c, next, waiters[1..]);
      }
    }
  }

  lemma {:induction false} AnimatedStateIgnoresWaiters(c: PanelConfig, s: PanelState, waiters: seq<LayoutWaiter>)
    requires s.animating
    ensures RunLayoutWaiters(c, s, waiters) == s
    decreases |waiters|
  {
    if |waiters| > 0 {
      AnimatedStateIgnoresWaiters(c, s, waiters[1..]);
    }
  }

  // ---------------------------------------------------------------------------------------------
  // The controller
  // ---------------------------------------------------------------------------------------------

  /** OverlayPanelViewController, with its subclass hooks fixed by `config`. */
  class OverlayPanelViewController {
    const config: PanelConfig

    var animateDirection: int
    var panelVisible: bool
    var panelExpanded: bool
    var isAnimating: bool
    var isTracking: bool
    var openingVelocity: int
    var closingVelocity: int
    var settleClosePercentage: int
    /** The layout's clip bounds (None is null) and the handle bar's translation. */
    var clipBounds: Option<Rect>
    var handleBarTranslation: int
    /** The running animator. */
    var animation: Option<Animation>
    /** Global-layout listeners registered by animatePanel and not yet run. */
    var layoutWaiters: seq<LayoutWaiter>
    var inflated: bool

    function State(): PanelState
      reads this
    {
      PanelState(animateDirection, panelVisible, panelExpanded, isAnimating, isTracking,
                 openingVelocity, closingVelocity, settleClosePercentage, clipBounds,
                 handleBarTranslation, animation, layoutWaiters, inflated)
    }

    predicate Valid()
      reads this
    {
      ValidState(config, State())
    }

    constructor (config: PanelConfig)
      ensures this.config == config && Valid()
      ensures State() == PanelState(POSITIVE_DIRECTION, false, false, false, false,
                                    DEFAULT_FLING_VELOCITY, DEFAULT_FLING_VELOCITY, 0, None, 0, None, [], false)
    {
      this.config := config;
      animateDirection := POSITIVE_DIRECTION;
      panelVisible, panelExpanded, isAnimating, isTracking := false, false, false, false;
      openingVelocity, closingVelocity := DEFAULT_FLING_VELOCITY, DEFAULT_FLING_VELOCITY;
      settleClosePercentage := 0;
      clipBounds := None;
      handleBarTranslation := 0;
      animation := None;
      layoutWaiters := [];
      inflated := false;
    }

    /** setOverlayDirection: an unsupported value is rejected and changes nothing. */
    method SetOverlayDirection(direction: int) returns (r: Outcome<string>)
      requires Valid()
      modifies this`animateDirection
      ensures Valid()
      ensures DirectionFor(direction).Some? ==> r == Pass && animateDirection == DirectionFor(direction).value
      ensures DirectionFor(direction).None? ==> r.Fail? && animateDirection == old(animateDirection)
    {
      if direction == OVERLAY_FROM_TOP_BAR {
        animateDirection := POSITIVE_DIRECTION;
      } else if direction == OVERLAY_FROM_BOTTOM_BAR {
        animateDirection := NEGATIVE_DIRECTION;
      } else {
        return Fail("Direction not supported");
      }
      return Pass;
    }

    method SetPanelVisible(visible: bool)
      modifies this`panelVisible
      ensures panelVisible == visible
    {
      panelVisible := visible;
    }

    method SetPanelExpanded(expand: bool)
      modifies this`panelExpanded
      ensures panelExpanded == expand
    {
      panelExpanded := expand;
    }

    /** setViewClipBounds, which ends by calling onScroll with the clamped position. */
    method SetViewClipBounds(y: int)
      requires Valid()
      modifies this`clipBounds, this`handleBarTranslation
      ensures Valid() && State() == AfterSetClip(config, old(State()), y)
    {
      var clamped := if 0 > (if y < config.height then y else config.height) then 0
                     else (if y < config.height then y else config.height);
      var top, bottom;
      if IsOverlayFromTopBar(animateDirection) {
        top, bottom := 0, clamped;
      } else {
        top, bottom := clamped, config.height;
      }
      clipBounds := Some(Rect(0, top, config.width, bottom));
      OnScroll(clamped);
    }

    /** onScroll: moves the handle bar, when there is one. */
    method OnScroll(y: int)
      modifies this`handleBarTranslation
      ensures handleBarTranslation ==
        if config.handleBarHeight.Some? then HandleBarTranslation(animateDirection, y, config.handleBarHeight.value)
        else old(handleBarTranslation)
    {
      if config.handleBarHeight.None? {
        return;
      }
      var handleBarPos := y;
      if IsOverlayFromTopBar(animateDirection) {
        var shifted := y - config.handleBarHeight.value;
        handleBarPos := if 0 > shifted then 0 else shifted;
      }
      handleBarTranslation := handleBarPos;
    }

    /** resetPanelVisibility. */
    method ResetPanelVisibility()
      requires Valid()
      modifies this`panelVisible, this`clipBounds, this`panelExpanded
      ensures Valid() && State() == AfterReset(old(State()))
    {
      SetPanelVisible(false);
      clipBounds := None;
      SetPanelExpanded(false);
    }

    /** animate: starts an animator unless one is running. */
    method Animate(from: int, to: int, velocity: int, isClosing: bool)
      requires Valid()
      modifies this`isAnimating, this`isTracking, this`animation
      ensures Valid() && State() == AfterAnimate(old(State()), from, to, velocity, isClosing)
    {
      if isAnimating {
        return;
      }
      isAnimating := true;
      isTracking := true;
      animation := Some(Animation(from, to, velocity, isClosing));
    }

    /** An update of the running animator: the clip follows the animated value. */
    method OnAnimationUpdate(animatedValue: int)
      requires Valid() && animation.Some?
      modifies this`clipBounds, this`handleBarTranslation
      ensures Valid() && State() == AfterSetClip(config, old(State()), animatedValue)
    {
      SetViewClipBounds(animatedValue);
    }

    /** The end handler of the running animator. */
    method OnAnimationEnd()
      requires Valid() && animation.Some?
      modifies this
      ensures Valid() && State() == AfterAnimationEnd(old(State()))
    {
      var closing := animation.value.isClosing;
      isAnimating := false;
      isTracking := false;
      animation := None;
      openingVelocity := DEFAULT_FLING_VELOCITY;
      closingVelocity := DEFAULT_FLING_VELOCITY;
      if closing {
        ResetPanelVisibility();
      } else {
        SetPanelExpanded(true);
      }
    }

    /** animatePanel. */
    method AnimatePanel(velocity: int, isClosing: bool)
      requires Valid()
      modifies this
      ensures Valid() && State() == AfterAnimatePanel(config, old(State()), velocity, isClosing)
    {
      var to := EndPosition(animateDirection, isClosing, config.height);
      if clipBounds.Some? {
        var from := CurrentStartPosition(animateDirection, clipBounds.value);
        if from != to {
          Animate(from, to, velocity, isClosing);
        } else if isClosing {
          ResetPanelVisibility();
        } else if !isAnimating && !panelExpanded {
          SetPanelExpanded(true);
        }
        return;
      }
      layoutWaiters := layoutWaiters + [LayoutWaiter(velocity, isClosing)];
    }

    /** The first layout pass: each waiting listener removes itself and calls animate. */
    method OnGlobalLayout()
      requires Valid()
      modifies this
      ensures Valid() && State() == AfterGlobalLayout(config, old(State()))
    {
      var waiters := layoutWaiters;
      layoutWaiters := [];
      var i := 0;
      while i < |waiters|
        invariant 0 <= i <= |waiters|
        invariant Valid()
        invariant RunLayoutWaiters(config, State(), waiters[i..]) == AfterGlobalLayout(config, old(State()))
      {
        assert waiters[i..][1..] == waiters[i + 1..];
        Animate(DefaultStartPosition(animateDirection, config.height),
                EndPosition(animateDirection, false, config.height), waiters[i].velocity, waiters[i].isClosing);
        i := i + 1;
      }
    }

    /** animateExpandPanel. */
    method AnimateExpandPanel()
      requires Valid()
      modifies this
      ensures Valid() && State() == AfterExpand(config, old(State()))
    {
      if !config.shouldAnimateExpand {
        return;
      }
      if !config.userFullySetup {
        return;
      }
      SetPanelVisible(true);
      AnimatePanel(openingVelocity, false);
      SetPanelExpanded(true);
    }

    /** animateCollapsePanel. */
    method AnimateCollapsePanel()
      requires Valid()
      modifies this
      ensures Valid() && State() == AfterCollapse(config, old(State()))
    {
      if !config.shouldAnimateCollapse {
        return;
      }
      if !panelExpanded && !panelVisible {
        return;
      }
      AnimatePanel(closingVelocity, true);
    }

    /** toggle. */
    method Toggle()
      requires Valid()
      modifies this
      ensures Valid() && State() == AfterToggle(config, old(State()))
    {
      if !inflated {
        inflated := true;
      }
      if panelExpanded {
        AnimateCollapsePanel();
      } else {
        AnimateExpandPanel();
      }
    }

    /** maybeCompleteAnimation, at the end of a drag whose cursor percentage the gesture code computed. */
    method MaybeCompleteAnimation(cursorPercentage: int)
      requires Valid()
      modifies this
      ensures Valid() && State() == AfterMaybeComplete(config, old(State()), cursorPercentage)
    {
      if panelVisible {
        if settleClosePercentage == 0 {
          settleClosePercentage := config.settleClosePercentage;
        }
        var closePanel := if IsOverlayFromTopBar(animateDirection)
          then settleClosePercentage > cursorPercentage
          else settleClosePercentage < cursorPercentage;
        AnimatePanel(DEFAULT_FLING_VELOCITY, closePanel);
      }
    }
  }
}
