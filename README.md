# D-pad aware list view: a Dafny model of its selector state machine

The repository provides one UI widget, `DpadAwareRecyclerView`: a scrollable list for
remote-control (D-pad) input that draws a background and a foreground "selector" drawable
around the focused item and animates them between items. This project models the
per-instance state machine of that widget and proves what it promises:

- **Key-repeat counter.** Every D-pad LEFT/RIGHT/UP/DOWN key-down increments a counter
  (a Java `int`, so it wraps after 2^31 - 1), every D-pad key-up resets it to 0, and
  other events leave it alone. Replaying any history of key events, the counter equals
  the number of D-pad key-downs since the last D-pad key-up, reduced to the `int` range.
- **Animation duration.** A focus change uses the configured selection duration while
  the counter is below 2 and 0 (snap) otherwise; it does not touch the counter.
- **Selector visibility.** On every key dispatch and every touch-mode change, each set
  selector becomes visible exactly when the widget has focus and is not in touch mode.
- **Animator table.** Each selector drawable has at most one bounds animator. Animating
  a selector retargets its animator (keeping its identity and its single redraw
  listener) or creates one with a fresh identity, sets the duration and starts it; no
  other entry changes. Animators are values here, each carrying an id that stands for
  the animator object: the widget numbers the animators it creates, and its invariant
  keeps every id in the table distinct and below the next number. A focus change
  animates the foreground selector first, then the background one.
- **Scroll-offset fractions.** The X and Y fractions (optional, opaque 32-bit floats)
  are stored and pushed to the layout decorator when one is installed; installing a
  layout manager wraps it in a new decorator carrying the current fractions. The widget
  invariant keeps the decorator's fractions equal to the widget's own.
- **Drawing and scrolling.** Drawing is background selector (if set and visible),
  children, foreground selector (if set and visible). A request to bring a child
  rectangle on screen is always forwarded as immediate.

Files: `wrappers.dfy` (Option, Outcome), `host_toolkit.dfy` (stand-ins for the
toolkit's rectangles, drawables, layout manager and the layout decorator),
`nav_keys.dfy` (the counter and duration rules, pure), `selector_rules.dfy` (the
animator table and draw order, pure), `dpad_aware_recycler_view.dfy` (the widget as a
class whose methods update its fields).

The model follows the code in three places that are easy to miss: the counter wraps
around as a Java `int`; a selector is drawn only when it is non-null as well as
visible; and `setBackgroundSelector` registers the callback on the foreground selector
(see Findings). The widget class keeps that as-written setter.

## Model

| member | source | states |
|---|---|---|
| NavKeys.ReplayCountsPressesSinceRelease | lib/src/main/java/net/ganin/darv/DpadAwareRecyclerView.java:202-216 | For every key history, the counter equals the number of D-pad key-downs after the last D-pad key-up, wrapped into the Java int range |
| NavKeys.CountIsPressesSinceRelease | lib/src/main/java/net/ganin/darv/DpadAwareRecyclerView.java:202-216 | Without wrap-around the counter is exactly the number of D-pad key-downs since the last D-pad key-up (or the start) |
| NavKeys.KeyStep | lib/src/main/java/net/ganin/darv/DpadAwareRecyclerView.java:204-216 | One dispatched event: a D-pad key-up gives 0, a D-pad key-down gives the count plus one in 32-bit two's complement, any other event keeps the count |
| NavKeys.FocusDuration | lib/src/main/java/net/ganin/darv/DpadAwareRecyclerView.java:225-226 | The chosen duration is the selection duration or 0; when the selection duration is nonzero it is 0 exactly when the counter is 2 or more |
| NavKeys.HoldingAfterReleaseCounts | lib/src/main/java/net/ganin/darv/DpadAwareRecyclerView.java:202-216 | After a D-pad key-up, n repeated key-downs of a D-pad key leave the counter at n, whatever came before the key-up, without wrap-around (n at most 2^31 - 1) |
| NavKeys.FocusDurationFollowsPresses | lib/src/main/java/net/ganin/darv/DpadAwareRecyclerView.java:225-226 | Without wrap-around (at most 2^31 - 1 key-downs since the last key-up), a focus change uses the selection duration when fewer than two key-downs have arrived since the last key-up, and 0 otherwise |
| NavKeys.LongHoldWrapsToSlowAnimation | lib/src/main/java/net/ganin/darv/DpadAwareRecyclerView.java:213-226 | After 2^31 key-downs without a key-up the counter has wrapped to the smallest int, so the focus change animates with the selection duration again |
| SelectorRules.AnimateRetargetsOrCreates | lib/src/main/java/net/ganin/darv/DpadAwareRecyclerView.java:318-340 | The drawable ends with exactly one animator, aimed from source to dest with the given duration and started; an existing one keeps its id and its listener count, a new one gets the offered fresh id and one listener; the table grows by at most one and no other entry changes |
| SelectorRules.AnimateKeepsTableValid | lib/src/main/java/net/ganin/darv/DpadAwareRecyclerView.java:318-340 | Animating keeps every animator at one listener and all ids distinct and below the next free id, which moves up by one exactly when an animator was created |
| SelectorRules.RepeatedAnimationKeepsOneAnimator | lib/src/main/java/net/ganin/darv/DpadAwareRecyclerView.java:318-340 | Animating a selector twice, starting without an animator, creates one animator and retargets that same one: the table gains one entry, which keeps the id the first call gave it (whatever id the second call offered), ends aimed at the second destination and has one redraw listener |
| SelectorRules.FocusAnimationsMoveSelectors | lib/src/main/java/net/ganin/darv/DpadAwareRecyclerView.java:228-235 | A focus change gives each non-null selector an animator aimed at the child's hit rect with the chosen duration, the background's applied last; null selectors add no entry; the table grows by at most two; other entries are unchanged |
| SelectorRules.FocusAnimationsKeepIdentities | lib/src/main/java/net/ganin/darv/DpadAwareRecyclerView.java:228-235 | Every animator already in the table keeps its id through a focus change: existing animators are retargeted, not recreated |
| SelectorRules.FocusAnimationsKeepTableValid | lib/src/main/java/net/ganin/darv/DpadAwareRecyclerView.java:228-235 | A focus change keeps one listener per animator and distinct ids, and the next free id moves up by the number of animators created |
| SelectorRules.DrawOrder | lib/src/main/java/net/ganin/darv/DpadAwareRecyclerView.java:239-249 | The trace is the background selector (iff set and visible), then the children exactly once, then the foreground selector (iff set and visible) |
| DpadAware.DpadAwareRecyclerView.constructor | lib/src/main/java/net/ganin/darv/DpadAwareRecyclerView.java:77-91 | A new widget has no selectors, duration 0, no offsets, counter 0, an empty animator table with no animator created yet, and no layout manager |
| DpadAware.DpadAwareRecyclerView.SetSelectionDuration | lib/src/main/java/net/ganin/darv/DpadAwareRecyclerView.java:103-105 | Stores the duration |
| DpadAware.DpadAwareRecyclerView.GetSelectionDuration | lib/src/main/java/net/ganin/darv/DpadAwareRecyclerView.java:107-109 | Returns the stored duration |
| DpadAware.DpadAwareRecyclerView.SetBackgroundSelector | lib/src/main/java/net/ganin/darv/DpadAwareRecyclerView.java:111-114 | Stores the background selector and registers the widget's callback on the foreground selector if one is set, as written |
| DpadAware.DpadAwareRecyclerView.SetBackgroundSelectorCorrected | lib/src/main/java/net/ganin/darv/DpadAwareRecyclerView.java:111-114 | Stores the background selector and registers the widget's callback on it |
| DpadAware.DpadAwareRecyclerView.GetBackgroundSelector | lib/src/main/java/net/ganin/darv/DpadAwareRecyclerView.java:120-122 | Returns the stored background selector |
| DpadAware.DpadAwareRecyclerView.SetForegroundSelector | lib/src/main/java/net/ganin/darv/DpadAwareRecyclerView.java:124-127 | Stores the foreground selector and registers the widget's callback on it when non-null |
| DpadAware.DpadAwareRecyclerView.GetForegroundSelector | lib/src/main/java/net/ganin/darv/DpadAwareRecyclerView.java:133-135 | Returns the stored foreground selector |
| DpadAware.DpadAwareRecyclerView.SetSelectorCallback | lib/src/main/java/net/ganin/darv/DpadAwareRecyclerView.java:357-361 | Registers the widget's callback on a non-null drawable; nothing else changes |
| DpadAware.DpadAwareRecyclerView.SetScrollOffsetFractionX | lib/src/main/java/net/ganin/darv/DpadAwareRecyclerView.java:142-149 | Stores the X fraction, None included; with a decorator installed, its X fraction becomes the same and its Y fraction is unchanged; the decorator and widget stay in step |
| DpadAware.DpadAwareRecyclerView.GetScrollOffsetFractionX | lib/src/main/java/net/ganin/darv/DpadAwareRecyclerView.java:151-153 | Returns the stored X fraction |
| DpadAware.DpadAwareRecyclerView.SetScrollOffsetFractionY | lib/src/main/java/net/ganin/darv/DpadAwareRecyclerView.java:160-167 | Stores the Y fraction, None included; with a decorator installed, its Y fraction becomes the same and its X fraction is unchanged; the decorator and widget stay in step |
| DpadAware.DpadAwareRecyclerView.GetScrollOffsetFractionY | lib/src/main/java/net/ganin/darv/DpadAwareRecyclerView.java:169-171 | Returns the stored Y fraction |
| DpadAware.DpadAwareRecyclerView.OnTouchModeChanged | lib/src/main/java/net/ganin/darv/DpadAwareRecyclerView.java:193-196 | Every set selector's visible flag becomes (not in touch mode and has focus); selectors stay as they are |
| DpadAware.DpadAwareRecyclerView.DispatchKeyEvent | lib/src/main/java/net/ganin/darv/DpadAwareRecyclerView.java:198-219 | Re-applies selector visibility; a D-pad key-down increments the counter by one (wrapping as a Java int), a D-pad key-up sets it to 0, anything else leaves it; the event joins the key history so the counter invariant holds |
| DpadAware.DpadAwareRecyclerView.RequestChildFocus | lib/src/main/java/net/ganin/darv/DpadAwareRecyclerView.java:221-236 | The animator table becomes FocusAnimations of the old table with each selector's current bounds, the child's hit rect and the duration chosen from the counter; the count of created animators grows by the number of new entries; the key counter is unchanged; the invariant (distinct ids, one listener each) holds |
| DpadAware.DpadAwareRecyclerView.AnimateSelectorChange | lib/src/main/java/net/ganin/darv/DpadAwareRecyclerView.java:318-340 | The animator table becomes Animate of the old table, with the selector's current bounds as source and the widget's next id for a new animator; that id is used up exactly when the selector had no animator; the ids stay distinct and every animator keeps exactly one redraw listener |
| DpadAware.DpadAwareRecyclerView.DispatchDraw | lib/src/main/java/net/ganin/darv/DpadAwareRecyclerView.java:238-249 | Returns the draw trace DrawOrder of the two selectors |
| DpadAware.DpadAwareRecyclerView.RequestChildRectangleOnScreen | lib/src/main/java/net/ganin/darv/DpadAwareRecyclerView.java:251-254 | Forwards the same child and rectangle with immediate = true whatever was asked |
| DpadAware.DpadAwareRecyclerView.SetLayoutManager | lib/src/main/java/net/ganin/darv/DpadAwareRecyclerView.java:256-275 | Installs a fresh decorator that wraps the given manager and carries the current X and Y fractions; the reflective back-reference step succeeds exactly when it is available and the manager is non-null, and only then points the manager at the widget; the decorator stays installed on failure |
| DpadAware.DpadAwareRecyclerView.EnforceSelectorsVisibility | lib/src/main/java/net/ganin/darv/DpadAwareRecyclerView.java:342-347 | Every set selector's visible flag becomes (not in touch mode and has focus); null selectors stay null |
| DpadAware.BackgroundSelectorLeftWithoutCallback | lib/src/main/java/net/ganin/darv/DpadAwareRecyclerView.java:111-114 | A new widget given only a background selector leaves that drawable with no callback |
| DpadAware.BackgroundSelectorGetsCallback | lib/src/main/java/net/ganin/darv/DpadAwareRecyclerView.java:111-114 | With the corrected setter the same drawable gets the widget's callback |

## Left out

- Drawing on a canvas, invalidation and the drawable callback's redraw and scheduling behaviour (lines 48-63, 329): draws become a trace, the callback an opaque object.
- The base list view's own work in the overridden methods: the result of its key dispatch, its focus handling, its scrolling and the boolean it returns for a rectangle request; the model returns the request it forwards instead.
- Touch mode, focus and a child's hit rectangle come from the host toolkit; they are parameters.
- The reflective call in setLayoutManager (lines 265-274) is a parameter saying whether it is available; a null layout manager makes it fail. The error becomes an Outcome instead of a thrown exception.
- Attribute parsing in the constructors (lines 277-309), the resource-id overloads of the selector setters and getDrawableResource (lines 116-118, 129-131, 349-355): resource loading.
- Attaching to and detaching from the window (lines 173-191): observer registration.
- Animation internals: interpolation, ticks and the end of an animation. Drawable bounds never change in the model, so a selector's source is always its bounds at the time of the focus change.
- The weak keys of the animator table: it is an ordinary map and entries are never evicted.
- LayoutManagerDecorator.java is not part of this model: its constructor and its two setters are taken to store their arguments, and its layout behaviour is not modelled. The base list view's detaching of the previous layout manager is not modelled either.
- Scroll-offset values are opaque 32-bit patterns; nothing computes with them.
- DpadAware.DpadAwareRecyclerView.AnimateSelectorChange: animators are values, not objects. Reuse is shown by the entry keeping its id, which stands for the animator object; aliasing (the table and the running animation sharing one object) is not modelled, so the model files the animator after its last update.
- DpadAware.DpadAwareRecyclerView.RequestChildFocus: a negative selection duration is passed on as it is; the animation library's rejection of negative durations is not modelled.

## Findings

| source | as written | input that shows it | evidently intended | confidence | as-written member | corrected member |
|---|---|---|---|---|---|---|
| lib/src/main/java/net/ganin/darv/DpadAwareRecyclerView.java:111-114 | setBackgroundSelector stores the background drawable but registers the selector callback on the foreground selector | a new widget with no foreground selector given a background drawable: the drawable's callback stays null | register the callback on the new background drawable, as setForegroundSelector does for its drawable | medium, not executed | DpadAware.BackgroundSelectorLeftWithoutCallback | DpadAware.DpadAwareRecyclerView.SetBackgroundSelectorCorrected |
