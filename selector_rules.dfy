/**
 * The rules the widget applies to its two selector drawables: how a focus change updates
 * the table of bounds animators, and the order in which selectors and children are drawn.
 */
module SelectorRules {
  import opened HostToolkit

  /** The duration, in milliseconds, a new animator has until one is set. */
  const DEFAULT_ANIMATOR_DURATION := 300

  /**
   * A bounds animator of one selector: it animates from `source` to `dest` over
   * `duration` ms once started, and `redrawListeners` listeners ask the widget to redraw
   * on every tick. `id` stands for the animator object's identity: animators created by
   * one widget get distinct ids in creation order.
   */
  datatype Animator = Animator(id: nat, source: Rect, dest: Rect, duration: int, started: bool, redrawListeners: nat)

  /** The animator of each selector drawable that has one. */
  type AnimatorTable = map<Drawable, Animator>

  /** Every animator in the table redraws the widget through exactly one listener. */
  predicate OneListenerEach(t: AnimatorTable) {
    forall d :: d in t ==> t[d].redrawListeners == 1
  }

  /** Every animator in the table was created before the one that would get id `next`. */
  predicate IdsBelow(t: AnimatorTable, next: nat) {
    forall d :: d in t ==> t[d].id < next
  }

  /** No two selectors share an animator. */
  predicate DistinctIds(t: AnimatorTable) {
    forall d, e :: d in t && e in t && d != e ==> t[d].id != t[e].id
  }

  /**
   * The table a widget keeps, with `next` the id its next new animator gets: each
   * animator is a distinct one the widget created, redrawing it through one listener.
   */
  predicate TableValid(t: AnimatorTable, next: nat) {
    OneListenerEach(t) && IdsBelow(t, next) && DistinctIds(t)
  }

  /** The set holding `d`, or no drawable when `d` is null. */
  function Present(d: Drawable?): set<Drawable> {
    if d == null then {} else {d}
  }

  /**
   * The table after animating selector `d` from `source` to `dest` over `duration`: an
   * existing animator is retargeted; otherwise a new one with identity `next` and one
   * redraw listener is filed under `d`. Either way it gets the duration and is started.
   * Its properties are stated by AnimateRetargetsOrCreates.
   */
  function Animate(t: AnimatorTable, d: Drawable, source: Rect, dest: Rect, duration: int, next: nat): AnimatorTable {
    var animator :=
      if d in t then t[d].(source := source, dest := dest)
      else Animator(next, source, dest, DEFAULT_ANIMATOR_DURATION, false, 1);
    t[d := animator.(duration := duration, started := true)]
  }

  /**
   * Animating `d` leaves it exactly one animator, aimed from `source` to `dest` with the
   * given duration and started. An existing animator keeps its identity and its
   * listeners; a new one gets identity `next` and one listener. The table grows by at
   * most one and no other entry changes.
   */
  lemma AnimateRetargetsOrCreates(t: AnimatorTable, d: Drawable, source: Rect, dest: Rect, duration: int, next: nat)
    ensures var r := Animate(t, d, source, dest, duration, next);
      r.Keys == t.Keys + {d} &&
      |r| == (if d in t then |t| else |t| + 1) &&
      r[d].source == source && r[d].dest == dest && r[d].duration == duration && r[d].started &&
      r[d].id == (if d in t then t[d].id else next) &&
      r[d].redrawListeners == (if d in t then t[d].redrawListeners else 1)
    ensures var r := Animate(t, d, source, dest, duration, next);
      forall e :: e in t && e != d ==> r[e] == t[e]
  {
  }

  /**
   * Animating a selector keeps the table valid; a new animator takes the id `next`, so
   * the next free id moves up exactly when an animator was created.
   */
  lemma AnimateKeepsTableValid(t: AnimatorTable, d: Drawable, source: Rect, dest: Rect, duration: int, next: nat)
    requires TableValid(t, next)
    ensures TableValid(Animate(t, d, source, dest, duration, next), if d in t then next else next + 1)
  {
    var r := Animate(t, d, source, dest, duration, next);
    var next' := if d in t then next else next + 1;
    AnimateRetargetsOrCreates(t, d, source, dest, duration, next);
    assert OneListenerEach(r);
    assert IdsBelow(r, next');
    forall e, f | e in r && f in r && e != f
      ensures r[e].id != r[f].id
    {
      if e == d {
        assert f in t && r[f] == t[f];
      } else if f == d {
        assert e in t && r[e] == t[e];
      } else {
        assert r[e] == t[e] && r[f] == t[f];
      }
    }
  }

  /**
   * The table after a focus change that moves the selectors to `dest`: the foreground
   * selector (if any) is animated first, then the background selector (if any), so when
   * the two are the same drawable the background's animation is the one that remains.
   * `next` is the id the next new animator gets. Its properties are stated by
   * FocusAnimationsMoveSelectors and FocusAnimationsKeepIdentities.
   */
  function FocusAnimations(t: AnimatorTable, fg: Drawable?, fgSource: Rect, bg: Drawable?, bgSource: Rect,
                           dest: Rect, duration: int, next: nat): AnimatorTable
  {
    var afterFg := if fg == null then t else Animate(t, fg, fgSource, dest, duration, next);
    var bgNext := if fg == null || fg in t then next else next + 1;
    if bg == null then afterFg else Animate(afterFg, bg, bgSource, dest, duration, bgNext)
  }

  /**
   * A focus change gives each set selector an animator aimed at `dest` with the given
   * duration, the background's applied last; unset selectors add no entry, the table
   * grows by at most two and no other entry changes.
   */
  lemma FocusAnimationsMoveSelectors(t: AnimatorTable, fg: Drawable?, fgSource: Rect, bg: Drawable?, bgSource: Rect,
                                     dest: Rect, duration: int, next: nat)
    ensures var r := FocusAnimations(t, fg, fgSource, bg, bgSource, dest, duration, next);
      r.Keys == t.Keys + Present(fg) + Present(bg) && |r| <= |t| + 2 &&
      (fg == null && bg == null ==> r == t)
    ensures var r := FocusAnimations(t, fg, fgSource, bg, bgSource, dest, duration, next);
      bg != null ==> r[bg].source == bgSource && r[bg].dest == dest && r[bg].duration == duration && r[bg].started
    ensures var r := FocusAnimations(t, fg, fgSource, bg, bgSource, dest, duration, next);
      fg != null && fg != bg ==>
        r[fg].source == fgSource && r[fg].dest == dest && r[fg].duration == duration && r[fg].started
    ensures var r := FocusAnimations(t, fg, fgSource, bg, bgSource, dest, duration, next);
      forall e :: e in t && e != fg && e != bg ==> r[e] == t[e]
  {
    var afterFg := if fg == null then t else Animate(t, fg, fgSource, dest, duration, next);
    var bgNext := if fg == null || fg in t then next else next + 1;
    if fg != null {
      AnimateRetargetsOrCreates(t, fg, fgSource, dest, duration, next);
    }
    if bg != null {
      AnimateRetargetsOrCreates(afterFg, bg, bgSource, dest, duration, bgNext);
    }
    var r := FocusAnimations(t, fg, fgSource, bg, bgSource, dest, duration, next);
    forall e | e in t && e != fg && e != bg
      ensures r[e] == t[e]
    {
      assert afterFg[e] == t[e];
    }
  }

  /** A focus change keeps the identity of every animator the table already had. */
  lemma FocusAnimationsKeepIdentities(t: AnimatorTable, fg: Drawable?, fgSource: Rect, bg: Drawable?, bgSource: Rect,
                                      dest: Rect, duration: int, next: nat)
    ensures var r := FocusAnimations(t, fg, fgSource, bg, bgSource, dest, duration, next);
      forall e :: e in t ==> r[e].id == t[e].id
  {
    var afterFg := if fg == null then t else Animate(t, fg, fgSource, dest, duration, next);
    var bgNext := if fg == null || fg in t then next else next + 1;
    if fg != null {
      AnimateRetargetsOrCreates(t, fg, fgSource, dest, duration, next);
    }
    if bg != null {
      AnimateRetargetsOrCreates(afterFg, bg, bgSource, dest, duration, bgNext);
    }
  }

  /**
   * A focus change keeps the table valid: any animator it creates gets an id no other
   * animator has, and the next free id moves up by the number of animators created.
   */
  lemma FocusAnimationsKeepTableValid(t: AnimatorTable, fg: Drawable?, fgSource: Rect, bg: Drawable?, bgSource: Rect,
                                      dest: Rect, duration: int, next: nat)
    requires TableValid(t, next)
    ensures var r := FocusAnimations(t, fg, fgSource, bg, bgSource, dest, duration, next);
      TableValid(r, next + |r| - |t|)
  {
    var afterFg := if fg == null then t else Animate(t, fg, fgSource, dest, duration, next);
    var bgNext := if fg == null || fg in t then next else next + 1;
    if fg != null {
      AnimateRetargetsOrCreates(t, fg, fgSource, dest, duration, next);
      AnimateKeepsTableValid(t, fg, fgSource, dest, duration, next);
    }
    if bg != null {
      AnimateRetargetsOrCreates(afterFg, bg, bgSource, dest, duration, bgNext);
      AnimateKeepsTableValid(afterFg, bg, bgSource, dest, duration, bgNext);
    }
  }

  /**
   * Two consecutive animations of a selector that had no animator create one animator
   * and retarget that same one: it keeps the identity the first animation gave it even
   * when a different id was offered for the second, and it ends aimed at the second
   * target with a single redraw listener.
   */
  lemma RepeatedAnimationKeepsOneAnimator(t: AnimatorTable, d: Drawable, source1: Rect, dest1: Rect, duration1: int,
                                          next1: nat, source2: Rect, dest2: Rect, duration2: int, next2: nat)
    requires d !in t
    ensures var r := Animate(Animate(t, d, source1, dest1, duration1, next1), d, source2, dest2, duration2, next2);
      r.Keys == t.Keys + {d} && |r| == |t| + 1 &&
      r[d] == Animator(next1, source2, dest2, duration2, true, 1)
  {
    AnimateRetargetsOrCreates(t, d, source1, dest1, duration1, next1);
    AnimateRetargetsOrCreates(Animate(t, d, source1, dest1, duration1, next1), d, source2, dest2, duration2, next2);
  }

  /** One step of drawing the widget. */
  datatype DrawOp = DrawSelector(selector: Drawable) | DrawChildren

  /** The one-step layer a selector contributes: nothing when it is null or hidden. */
  function SelectorLayer(d: Drawable?): seq<DrawOp>
    reads d
  {
    if d != null && d.visible then [DrawSelector(d)] else []
  }

  /**
   * The order the widget draws in: the background selector below the children and the
   * foreground selector above them, each only when present and visible.
   */
  function DrawOrder(bg: Drawable?, fg: Drawable?): (trace: seq<DrawOp>)
    reads bg, fg
    ensures var k := if bg != null && bg.visible then 1 else 0;
      k < |trace| && trace[k] == DrawChildren &&
      |trace| == k + 1 + (if fg != null && fg.visible then 1 else 0) &&
      (forall i :: 0 <= i < k ==> trace[i] == DrawSelector(bg)) &&
      (forall i :: k < i < |trace| ==> trace[i] == DrawSelector(fg))
    ensures forall i :: 0 <= i < |trace| && trace[i].DrawSelector? ==> trace[i].selector.visible
  {
    SelectorLayer(bg) + [DrawChildren] + SelectorLayer(fg)
  }
}
