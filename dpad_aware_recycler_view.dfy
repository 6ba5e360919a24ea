/**
 * The per-instance state machine of the D-pad aware list widget: the directional-key
 * press counter, the visibility of the background and foreground selectors, the table of
 * selector bounds animators, and the scroll-offset fractions it keeps in step with its
 * layout decorator.
 */
module DpadAware {
  import opened Wrappers
  import opened HostToolkit
  import opened NavKeys
  import opened SelectorRules

  /** The callback object the widget registers on its selectors (it forwards redraw requests). */
  class SelectorCallback {
    constructor () { }
  }

  /** The failure of the reflective step that hands the wrapped layout manager its back-reference. */
  datatype LayoutError = BackReferenceNotSet

  /** A request to bring `rect` of child `child` on screen, as forwarded to the base list view. */
  datatype RectangleRequest = RectangleRequest(child: nat, rect: Rect, immediate: bool)

  class DpadAwareRecyclerView {
    const selectorCallback: SelectorCallback
    var scrollOffsetFractionX: Option<Fraction>
    var scrollOffsetFractionY: Option<Fraction>
    var selectionDuration: int32
    var backgroundSelector: Drawable?
    var foregroundSelector: Drawable?
    var navKeyPressedEventCount: int32
    /** The animator of each selector drawable that has been animated. */
    var selectorAnimators: AnimatorTable
    /** How many animators the widget has created; the next one gets this as its id. */
    var animatorsCreated: nat
    /** The installed layout manager; it is always one of the widget's decorators. */
    var layoutManager: LayoutManagerDecorator?

    /** Every key event dispatched to the widget so far, oldest first. */
    ghost var keyHistory: seq<KeyEvent>

    /**
     * The widget's invariant: the counter is what the key history produces, each animator
     * is a distinct object made by this widget and redraws it through exactly one
     * listener, and the decorator's offsets agree with the widget's own.
     */
    ghost predicate Valid()
      reads this, layoutManager
    {
      CounterValid() && AnimatorsValid() && LayoutValid()
    }

    ghost predicate CounterValid()
      reads this`navKeyPressedEventCount, this`keyHistory
    {
      navKeyPressedEventCount == Replay(keyHistory)
    }

    ghost predicate AnimatorsValid()
      reads this`selectorAnimators, this`animatorsCreated
    {
      TableValid(selectorAnimators, animatorsCreated)
    }

    ghost predicate LayoutValid()
      reads this`layoutManager, this`scrollOffsetFractionX, this`scrollOffsetFractionY, layoutManager
    {
      layoutManager != null ==>
        layoutManager.scrollOffsetFractionX == scrollOffsetFractionX &&
        layoutManager.scrollOffsetFractionY == scrollOffsetFractionY
    }

    /** The selectors that are set. */
    function Selectors(): set<Drawable>
      reads this
    {
      Present(backgroundSelector) + Present(foregroundSelector)
    }

    /** A new widget built without attributes: nothing configured, no key pressed yet. */
    constructor ()
      ensures Valid()
      ensures scrollOffsetFractionX == None && scrollOffsetFractionY == None
      ensures selectionDuration == 0 && backgroundSelector == null && foregroundSelector == null
      ensures navKeyPressedEventCount == 0 && selectorAnimators == map[] && animatorsCreated == 0
      ensures layoutManager == null
      ensures keyHistory == []
    {
      selectorCallback := new SelectorCallback();
      scrollOffsetFractionX := None;
      scrollOffsetFractionY := None;
      selectionDuration := 0;
      backgroundSelector := null;
      foregroundSelector := null;
      navKeyPressedEventCount := 0;
      selectorAnimators := map[];
      animatorsCreated := 0;
      layoutManager := null;
      keyHistory := [];
    }

    method SetSelectionDuration(duration: int32)
      modifies this`selectionDuration
      ensures selectionDuration == duration
    {
      selectionDuration := duration;
    }

    method GetSelectionDuration() returns (duration: int32)
      ensures duration == selectionDuration
    {
      duration := selectionDuration;
    }

    /**
     * Stores the background selector. As written, the callback is registered on the
     * foreground selector, not on the drawable just stored.
     */
    method SetBackgroundSelector(drawable: Drawable?)
      modifies this`backgroundSelector, Present(foregroundSelector)`callback
      ensures backgroundSelector == drawable
      ensures foregroundSelector != null ==> foregroundSelector.callback == selectorCallback
    {
      backgroundSelector := drawable;
      SetSelectorCallback(foregroundSelector);
    }

    /** The background setter as evidently intended: the callback goes on the new drawable. */
    method SetBackgroundSelectorCorrected(drawable: Drawable?)
      modifies this`backgroundSelector, Present(drawable)`callback
      ensures backgroundSelector == drawable
      ensures drawable != null ==> drawable.callback == selectorCallback
    {
      backgroundSelector := drawable;
      SetSelectorCallback(backgroundSelector);
    }

    method GetBackgroundSelector() returns (drawable: Drawable?)
      ensures drawable == backgroundSelector
    {
      drawable := backgroundSelector;
    }

    method SetForegroundSelector(drawable: Drawable?)
      modifies this`foregroundSelector, Present(drawable)`callback
      ensures foregroundSelector == drawable
      ensures drawable != null ==> drawable.callback == selectorCallback
    {
      foregroundSelector := drawable;
      SetSelectorCallback(foregroundSelector);
    }

    method GetForegroundSelector() returns (drawable: Drawable?)
      ensures drawable == foregroundSelector
    {
      drawable := foregroundSelector;
    }

    method SetSelectorCallback(selector: Drawable?)
      modifies Present(selector)`callback
      ensures selector != null ==> selector.callback == selectorCallback
    {
      if selector != null {
        selector.SetCallback(selectorCallback);
      }
    }

    /**
     * Stores the horizontal offset fraction (None disables it) and, when a decorator is
     * installed, gives it the same value; the vertical axis is left alone.
     */
    method SetScrollOffsetFractionX(fraction: Option<Fraction>)
      requires Valid()
      modifies this`scrollOffsetFractionX, DecoratorFrame(layoutManager)`scrollOffsetFractionX
      ensures Valid()
      ensures scrollOffsetFractionX == fraction
      ensures layoutManager != null ==> layoutManager.scrollOffsetFractionX == fraction
      ensures layoutManager != null ==>
                layoutManager.scrollOffsetFractionY == old(layoutManager.scrollOffsetFractionY)
    {
      scrollOffsetFractionX := fraction;
      var layoutWrapper := layoutManager;
      if layoutWrapper != null {
        layoutWrapper.SetScrollOffsetFractionX(scrollOffsetFractionX);
      }
    }

    method GetScrollOffsetFractionX() returns (fraction: Option<Fraction>)
      ensures fraction == scrollOffsetFractionX
    {
      fraction := scrollOffsetFractionX;
    }

    /** The vertical counterpart of SetScrollOffsetFractionX. */
    method SetScrollOffsetFractionY(fraction: Option<Fraction>)
      requires Valid()
      modifies this`scrollOffsetFractionY, DecoratorFrame(layoutManager)`scrollOffsetFractionY
      ensures Valid()
      ensures scrollOffsetFractionY == fraction
      ensures layoutManager != null ==> layoutManager.scrollOffsetFractionY == fraction
      ensures layoutManager != null ==>
                layoutManager.scrollOffsetFractionX == old(layoutManager.scrollOffsetFractionX)
    {
      scrollOffsetFractionY := fraction;
      var layoutWrapper := layoutManager;
      if layoutWrapper != null {
        layoutWrapper.SetScrollOffsetFractionY(scrollOffsetFractionY);
      }
    }

    method GetScrollOffsetFractionY() returns (fraction: Option<Fraction>)
      ensures fraction == scrollOffsetFractionY
    {
      fraction := scrollOffsetFractionY;
    }

    /** The host reports that touch mode was entered or left. */
    method OnTouchModeChanged(isInTouchMode: bool, hasFocus: bool)
      modifies Selectors()`visible
      ensures forall d :: d in Selectors() ==> d.visible == (!isInTouchMode && hasFocus)
    {
      EnforceSelectorsVisibility(isInTouchMode, hasFocus);
    }

    /**
     * A key event reaches the widget. Selector visibility is re-applied first; then a
     * directional key-down increments the counter (as a Java `int`), a directional key-up
     * resets it, and any other event leaves it alone.
     */
    method DispatchKeyEvent(event: KeyEvent, isInTouchMode: bool, hasFocus: bool)
      requires Valid()
      modifies this`navKeyPressedEventCount, this`keyHistory, Selectors()`visible
      ensures Valid()
      ensures keyHistory == old(keyHistory) + [event]
      ensures forall d :: d in Selectors() ==> d.visible == (!isInTouchMode && hasFocus)
      ensures IsNavPress(event) ==> navKeyPressedEventCount == Increment(old(navKeyPressedEventCount))
      ensures IsNavRelease(event) ==> navKeyPressedEventCount == 0
      ensures !IsNavPress(event) && !IsNavRelease(event) ==>
                navKeyPressedEventCount == old(navKeyPressedEventCount)
    {
      EnforceSelectorsVisibility(isInTouchMode, hasFocus);

      navKeyPressedEventCount := KeyStep(navKeyPressedEventCount, event);
      keyHistory := keyHistory + [event];
    }

    /**
     * A child took focus; `childHitRect` is its hit rectangle. Each set selector is animated
     * to it, the foreground first, over the configured duration unless a directional key
     * is repeating (two or more key-downs since the last key-up), in which case it snaps.
     * The counter is only read.
     */
    method RequestChildFocus(childHitRect: Rect)
      requires Valid()
      modifies this`selectorAnimators, this`animatorsCreated
      ensures Valid()
      ensures selectorAnimators == FocusAnimations(old(selectorAnimators),
                foregroundSelector, BoundsOf(foregroundSelector),
                backgroundSelector, BoundsOf(backgroundSelector),
                childHitRect, FocusDuration(navKeyPressedEventCount, selectionDuration) as int,
                old(animatorsCreated))
      ensures animatorsCreated == old(animatorsCreated) + |selectorAnimators| - |old(selectorAnimators)|
      ensures navKeyPressedEventCount == old(navKeyPressedEventCount)
    {
      var duration := FocusDuration(navKeyPressedEventCount, selectionDuration);

      var selectorRect := childHitRect;
      if foregroundSelector != null {
        AnimateSelectorChange(foregroundSelector, selectorRect, duration as int);
      }
      if backgroundSelector != null {
        AnimateSelectorChange(backgroundSelector, selectorRect, duration as int);
      }
    }

    /** The current bounds of a selector (a null selector is never animated). */
    function BoundsOf(d: Drawable?): Rect
      reads d
    {
      if d == null then EmptyRect else d.bounds
    }

    /**
     * Animates `selector` from its current bounds to `dest`: its existing animator is
     * retargeted, or a new one is created, filed under it and made to redraw the widget;
     * either way it gets `duration` and is started. Other entries are untouched.
     */
    method AnimateSelectorChange(selector: Drawable, dest: Rect, duration: int)
      requires AnimatorsValid()
      modifies this`selectorAnimators, this`animatorsCreated
      ensures AnimatorsValid()
      ensures selectorAnimators ==
                Animate(old(selectorAnimators), selector, selector.bounds, dest, duration, old(animatorsCreated))
      ensures animatorsCreated ==
                if selector in old(selectorAnimators) then old(animatorsCreated) else old(animatorsCreated) + 1
    {
      var source := selector.bounds;
      AnimateKeepsTableValid(selectorAnimators, selector, source, dest, duration, animatorsCreated);

      var selectorAnimator: Animator;
      if selector !in selectorAnimators {
        selectorAnimator := Animator(animatorsCreated, source, dest, DEFAULT_ANIMATOR_DURATION, false, 0);
        animatorsCreated := animatorsCreated + 1;
        selectorAnimator := selectorAnimator.(redrawListeners := selectorAnimator.redrawListeners + 1);
      } else {
        selectorAnimator := selectorAnimators[selector];
        selectorAnimator := selectorAnimator.(source := source, dest := dest);
      }

      // Animators are values here, so the animator is filed under its selector after its
      // last update rather than when it is created.
      selectorAnimator := selectorAnimator.(duration := duration);
      selectorAnimator := selectorAnimator.(started := true);
      selectorAnimators := selectorAnimators[selector := selectorAnimator];
    }

    /**
     * Draws the widget: the background selector if set and visible, then the children,
     * then the foreground selector if set and visible. Returns the steps in order.
     */
    method DispatchDraw() returns (trace: seq<DrawOp>)
      ensures trace == DrawOrder(backgroundSelector, foregroundSelector)
    {
      trace := [];
      if backgroundSelector != null && backgroundSelector.visible {
        trace := trace + [DrawSelector(backgroundSelector)];
      }
      trace := trace + [DrawChildren];
      if foregroundSelector != null && foregroundSelector.visible {
        trace := trace + [DrawSelector(foregroundSelector)];
      }
    }

    /** Forwards the request to the base list view, always asking for an immediate scroll. */
    method RequestChildRectangleOnScreen(child: nat, rect: Rect, immediate: bool)
      returns (forwarded: RectangleRequest)
      ensures forwarded.child == child && forwarded.rect == rect
      ensures forwarded.immediate
    {
      forwarded := RectangleRequest(child, rect, true);
    }

    /**
     * Installs a new decorator around `layout`, carrying the widget's current offsets, then
     * hands `layout` its back-reference to the widget by reflection. The reflective step
     * fails when the toolkit does not offer it or `layout` is null; the decorator stays
     * installed even then.
     */
    method SetLayoutManager(layout: LayoutManager?, reflectionAvailable: bool)
      returns (outcome: Outcome<LayoutError>)
      requires Valid()
      modifies this`layoutManager, ManagerFrame(layout)`recyclerView
      ensures Valid()
      ensures layoutManager != null && fresh(layoutManager)
      ensures layoutManager.inner == layout
      ensures layoutManager.scrollOffsetFractionX == scrollOffsetFractionX
      ensures layoutManager.scrollOffsetFractionY == scrollOffsetFractionY
      ensures outcome.Pass? <==> reflectionAvailable && layout != null
      ensures outcome.Pass? ==> layout.recyclerView == this
      ensures outcome.Fail? && layout != null ==> layout.recyclerView == old(layout.recyclerView)
    {
      layoutManager := new LayoutManagerDecorator(layout, scrollOffsetFractionX, scrollOffsetFractionY);

      if reflectionAvailable && layout != null {
        layout.recyclerView := this;
        outcome := Pass;
      } else {
        outcome := Fail(BackReferenceNotSet);
      }
    }

    /** Shows every set selector iff the widget has focus and is not in touch mode. */
    method EnforceSelectorsVisibility(isInTouchMode: bool, hasFocus: bool)
      modifies Selectors()`visible
      ensures forall d :: d in Selectors() ==> d.visible == (!isInTouchMode && hasFocus)
    {
      var visible := !isInTouchMode && hasFocus;

      if backgroundSelector != null {
        backgroundSelector.SetVisible(visible);
      }
      if foregroundSelector != null {
        foregroundSelector.SetVisible(visible);
      }
    }
  }

  /**
   * A new widget with no foreground selector is given a background selector: the
   * drawable is stored but never receives the widget's callback.
   */
  method BackgroundSelectorLeftWithoutCallback() returns (view: DpadAwareRecyclerView, drawable: Drawable)
    ensures view.backgroundSelector == drawable
    ensures drawable.callback == null
  {
    view := new DpadAwareRecyclerView();
    drawable := new Drawable(EmptyRect);
    view.SetBackgroundSelector(drawable);
  }

  /** The same scenario with the corrected setter: the drawable gets the callback. */
  method BackgroundSelectorGetsCallback() returns (view: DpadAwareRecyclerView, drawable: Drawable)
    ensures view.backgroundSelector == drawable
    ensures drawable.callback == view.selectorCallback
  {
    view := new DpadAwareRecyclerView();
    drawable := new Drawable(EmptyRect);
    view.SetBackgroundSelectorCorrected(drawable);
  }

  // Dafny has no nullable type parameter, so each class the widget may hold a null
  // reference to gets its own frame helper, as Drawable does with SelectorRules.Present.

  function DecoratorFrame(d: LayoutManagerDecorator?): set<LayoutManagerDecorator> {
    if d == null then {} else {d}
  }

  function ManagerFrame(m: LayoutManager?): set<LayoutManager> {
    if m == null then {} else {m}
  }
}
