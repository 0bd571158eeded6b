/**
 * One interactive swipe-to-dismiss session: it writes the offset of the
 * scroll view it was created for (held weakly, so it may be absent), moves it
 * to an off-screen target when the swipe is committed, and back to zero when
 * it is cancelled. Each animation's end state is written at once (UIKit sets
 * the model value synchronously); its completion is run by the owner.
 */
module SwipeTransition {

  import opened Optional
  import opened Geometry

  /** The axis a swipe is latched to. */
  datatype SwipeDirection = Horizontal | Vertical

  /** The parts of a `UIScrollView` the viewer reads and writes. */
  class ScrollView {
    var contentOffset: Point
    var zoomScale: real
    const minimumZoomScale: real

    constructor (minimumZoomScale: real)
      ensures contentOffset == Zero && zoomScale == 1.0
      ensures this.minimumZoomScale == minimumZoomScale
    {
      contentOffset := Zero;
      zoomScale := 1.0;
      this.minimumZoomScale := minimumZoomScale;
    }
  }

  /** The fixed duration of the cancel animation. */
  const CancelDuration: real := 0.2

  /** The offset a committed swipe ends at: the target on the latched axis, zero on the other. */
  function FinishedOffset(direction: SwipeDirection, targetOffset: real): Point {
    match direction
    case Horizontal => Point(targetOffset, 0.0)
    case Vertical => Point(0.0, targetOffset)
  }

  /** The initial spring velocity `|escapeVelocity / (targetOffset - touchPoint)|`. */
  function SpringVelocity(escapeVelocity: real, targetOffset: real, touchPoint: real): (v: real)
    requires targetOffset != touchPoint
    ensures v >= 0.0
    ensures v * Abs(targetOffset - touchPoint) == Abs(escapeVelocity)
  {
    Abs(escapeVelocity / (targetOffset - touchPoint))
  }

  /** The commit duration `0.65 * |targetOffset - touchPoint| / |escapeVelocity|`. */
  function FinishDuration(escapeVelocity: real, targetOffset: real, touchPoint: real): (d: real)
    requires escapeVelocity != 0.0
    ensures d >= 0.0
    ensures d * Abs(escapeVelocity) == 0.65 * Abs(targetOffset - touchPoint)
  {
    (Abs(targetOffset - touchPoint) / Abs(escapeVelocity)) * 0.65
  }

  datatype SpringTiming = SpringTiming(springVelocity: real, duration: real)

  /**
   * The timing handed to the spring animation, or None where one of the two
   * divisions is by zero (the source then passes a non-finite value on).
   */
  function FinishTiming(escapeVelocity: real, targetOffset: real, touchPoint: real): (t: Option<SpringTiming>)
    ensures t.Some? <==> escapeVelocity != 0.0 && targetOffset != touchPoint
    ensures t.Some? ==> t.value.springVelocity >= 0.0 && t.value.duration >= 0.0
  {
    if escapeVelocity != 0.0 && targetOffset != touchPoint then
      Some(SpringTiming(SpringVelocity(escapeVelocity, targetOffset, touchPoint),
                        FinishDuration(escapeVelocity, targetOffset, touchPoint)))
    else None
  }

  /** A faster flick finishes sooner: the duration falls as |escape velocity| grows. */
  lemma FasterFlickFinishesSooner(v1: real, v2: real, targetOffset: real, touchPoint: real)
    requires 0.0 < Abs(v1) <= Abs(v2)
    ensures FinishDuration(v2, targetOffset, touchPoint) <= FinishDuration(v1, targetOffset, touchPoint)
  {
    var d1 := FinishDuration(v1, targetOffset, touchPoint);
    var d2 := FinishDuration(v2, targetOffset, touchPoint);
    assert d1 * (Abs(v2) - Abs(v1)) >= 0.0;
    assert (d1 - d2) * Abs(v2) >= 0.0 by {
      assert d2 * Abs(v2) == d1 * Abs(v1);
    }
  }

  class SwipeToDismissTransition {
    /** Held weakly in the source: null once the scroll view is gone. */
    const scrollView: ScrollView?

    constructor (scrollView: ScrollView?)
      ensures this.scrollView == scrollView
    {
      this.scrollView := scrollView;
    }

    /** Sets the offset to exactly (horizontalOffset, verticalOffset), without animation. */
    method DidChangeInteractiveTransition(horizontalOffset: real, verticalOffset: real)
      modifies scrollView
      ensures scrollView != null ==> scrollView.contentOffset == Point(horizontalOffset, verticalOffset)
      ensures scrollView != null ==> scrollView.zoomScale == old(scrollView.zoomScale)
    {
      if scrollView != null {
        scrollView.contentOffset := Point(horizontalOffset, verticalOffset);
      }
    }

    /**
     * Commits the swipe: the offset ends at the target on the latched axis and
     * zero on the other; `timing` is what the spring animation is given.
     */
    method DidFinishInteractiveTransition(direction: SwipeDirection, touchPoint: real,
                                          targetOffset: real, escapeVelocity: real)
      returns (timing: Option<SpringTiming>)
      modifies scrollView
      ensures scrollView != null ==> scrollView.contentOffset == FinishedOffset(direction, targetOffset)
      ensures scrollView != null ==> scrollView.zoomScale == old(scrollView.zoomScale)
      ensures timing == FinishTiming(escapeVelocity, targetOffset, touchPoint)
    {
      timing := FinishTiming(escapeVelocity, targetOffset, touchPoint);
      if scrollView != null {
        scrollView.contentOffset := FinishedOffset(direction, targetOffset);
      }
    }

    /** Cancels the swipe: the offset returns to zero over `CancelDuration`. */
    method CancelInteractiveTransition() returns (duration: real)
      modifies scrollView
      ensures scrollView != null ==> scrollView.contentOffset == Zero
      ensures scrollView != null ==> scrollView.zoomScale == old(scrollView.zoomScale)
      ensures duration == CancelDuration
    {
      duration := CancelDuration;
      if scrollView != null {
        scrollView.contentOffset := Zero;
      }
    }
  }
}
