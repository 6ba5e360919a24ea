/**
 * Stand-ins for the parts of the host GUI toolkit that the widget uses: rectangles,
 * drawables with bounds and a visible flag, layout managers and the offset-aware layout
 * decorator. Only the state the widget reads or writes is kept;
 * rendering, interpolation and animation ticks are not modelled.
 */
module HostToolkit {
  import opened Wrappers

  /** A rectangle in the widget's local coordinates: left, top, right, bottom. */
  datatype Rect = Rect(left: int, top: int, right: int, bottom: int)

  /** The rectangle a freshly created `Rect` holds. */
  const EmptyRect := Rect(0, 0, 0, 0)

  /**
   * A boxed 32-bit float, kept as its IEEE-754 bit pattern: the widget only stores and
   * copies scroll-offset fractions, it never computes with them.
   */
  datatype Fraction = Fraction(bits: bv32)

  /** A drawable: its bounds, its visible flag and the callback it reports invalidations to. */
  class Drawable {
    var bounds: Rect
    var visible: bool
    var callback: object?

    /** A new drawable is visible and has no callback. */
    constructor (bounds: Rect)
      ensures this.bounds == bounds && visible && callback == null
    {
      this.bounds := bounds;
      visible := true;
      callback := null;
    }

    /** Shows or hides the drawable; bounds and callback are left alone. */
    method SetVisible(visible: bool)
      modifies this`visible
      ensures this.visible == visible
    {
      this.visible := visible;
    }

    /** Registers the object that is told when the drawable needs redrawing. */
    method SetCallback(cb: object?)
      modifies this`callback
      ensures callback == cb
    {
      callback := cb;
    }
  }

  /** A layout manager supplied by the widget's user; the widget only sets its back-reference. */
  class LayoutManager {
    var recyclerView: object?

    constructor ()
      ensures recyclerView == null
    {
      recyclerView := null;
    }
  }

  /**
   * The decorator the widget wraps every layout manager in. It holds the wrapped manager
   * and one optional scroll-offset fraction per axis.
   */
  class LayoutManagerDecorator {
    const inner: LayoutManager?
    var scrollOffsetFractionX: Option<Fraction>
    var scrollOffsetFractionY: Option<Fraction>

    constructor (inner: LayoutManager?, x: Option<Fraction>, y: Option<Fraction>)
      ensures this.inner == inner
      ensures scrollOffsetFractionX == x && scrollOffsetFractionY == y
    {
      this.inner := inner;
      scrollOffsetFractionX := x;
      scrollOffsetFractionY := y;
    }

    method SetScrollOffsetFractionX(x: Option<Fraction>)
      modifies this`scrollOffsetFractionX
      ensures scrollOffsetFractionX == x
    {
      scrollOffsetFractionX := x;
    }

    method SetScrollOffsetFractionY(y: Option<Fraction>)
      modifies this`scrollOffsetFractionY
      ensures scrollOffsetFractionY == y
    {
      scrollOffsetFractionY := y;
    }
  }
}
