/**
 * The decisions an item controller takes while a swipe-to-dismiss gesture is
 * in flight, as functions of the gesture samples: which axis the swipe is
 * latched to, where the drag puts the item, whether a release commits or
 * cancels, whether a pan may begin at all and what progress ratio is
 * reported. `SwipeStep` is the whole effect of one pan callback on the swipe
 * state; the item controller's method is proved against it.
 */
module ItemDecisions {

  import opened Optional
  import opened Geometry
  import opened ViewerOptions
  import opened SwipeTransition

  function Min(a: real, b: real): real { if a <= b then a else b }
  function Max(a: real, b: real): real { if a >= b then a else b }

  // ------------------------------------------------------ displacement style

  /** The spring damping of the displacement animation: 1 for `.normal`, the configured bounce otherwise. */
  function SpringDamping(style: DisplacementStyle): (d: real)
    ensures style.Normal? ==> d == 1.0
    ensures style.SpringBounce? ==> d == style.bounce
  {
    match style
    case Normal => 1.0
    case SpringBounce(bounce) => bounce
  }

  // ------------------------------------------------------ displaced view visibility

  /** `CGRect.insetBy(dx:dy:)` with the same margin on every side; None is the null rectangle. */
  function InsetBy(r: Rect, margin: real): Option<Rect> {
    var w := r.size.width - 2.0 * margin;
    var h := r.size.height - 2.0 * margin;
    if w < 0.0 || h < 0.0 then None
    else Some(Rect(Point(r.origin.x + margin, r.origin.y + margin), Size(w, h)))
  }

  /** Two rectangles overlap on both axes. */
  predicate Intersects(a: Rect, b: Rect) {
    a.origin.x < b.origin.x + b.size.width && b.origin.x < a.origin.x + a.size.width &&
    a.origin.y < b.origin.y + b.size.height && b.origin.y < a.origin.y + a.size.height
  }

  /**
   * The test of `findVisibleDisplacedView`: the displaced view's frame must
   * meet the view's frame shrunk by the inset margin.
   */
  predicate VisibleEnough(displacedFrame: Rect, viewFrame: Rect, margin: real) {
    var valid := InsetBy(viewFrame, margin);
    valid.Some? && Intersects(displacedFrame, valid.value)
  }

  /**
   * A displaced view visible enough for one margin is visible enough for any
   * smaller non-negative margin, and with no margin the test is plain overlap
   * with the view's frame.
   */
  lemma VisibleEnoughMonotone(displacedFrame: Rect, viewFrame: Rect, smaller: real, larger: real)
    requires 0.0 <= smaller <= larger
    requires VisibleEnough(displacedFrame, viewFrame, larger)
    ensures VisibleEnough(displacedFrame, viewFrame, smaller)
    ensures Intersects(displacedFrame, viewFrame)
  {
  }

  lemma VisibleEnoughWithoutMargin(displacedFrame: Rect, viewFrame: Rect)
    requires viewFrame.size.width >= 0.0 && viewFrame.size.height >= 0.0
    ensures VisibleEnough(displacedFrame, viewFrame, 0.0) <==> Intersects(displacedFrame, viewFrame)
  {
  }

  /** A view frame narrower or lower than twice the margin admits no displaced view at all. */
  lemma NarrowViewAdmitsNothing(displacedFrame: Rect, viewFrame: Rect, margin: real)
    requires viewFrame.size.width < 2.0 * margin || viewFrame.size.height < 2.0 * margin
    ensures !VisibleEnough(displacedFrame, viewFrame, margin)
  {
  }

  // ------------------------------------------------------ the swipe axis

  /** The axis latched from the first sample: horizontal iff |vx| > |vy|, ties vertical. */
  function LatchAxis(velocity: Point): SwipeDirection {
    if Abs(velocity.x) > Abs(velocity.y) then Horizontal else Vertical
  }

  /** The latched axis agrees with the velocity's orientation; the zero velocity latches vertical. */
  lemma LatchAgreesWithOrientation(velocity: Point)
    ensures velocity != Zero ==> (LatchAxis(velocity) == Horizontal <==> OrientationOf(velocity) == HorizontalOrientation)
    ensures velocity == Zero ==> LatchAxis(velocity) == Vertical
  {
    OrientationCharacterised(velocity);
  }

  // ------------------------------------------------------ drag in progress

  /**
   * The offset written while dragging (`handleSwipeToDismissInProgress`): the
   * negated translation on the latched axis, clamped at the first index to
   * non-positive and at the last index to non-negative values when there is
   * more than one item; the other axis is 0.
   */
  function DragOffset(axis: SwipeDirection, index: int, count: int, translation: Point): Point {
    match axis
    case Horizontal =>
      if index == 0 && count != 1 then Point(Min(0.0, -translation.x), 0.0)
      else if index == count - 1 && count != 1 then Point(Max(0.0, -translation.x), 0.0)
      else Point(-translation.x, 0.0)
    case Vertical => Point(0.0, -translation.y)
  }

  /**
   * The drag offset never exceeds the finger's travel, stays off the other
   * axis, follows the finger exactly away from the edges, and at the first
   * (last) of several items the item can only move to the right (left).
   */
  lemma DragOffsetProperties(axis: SwipeDirection, index: int, count: int, translation: Point)
    ensures var o := DragOffset(axis, index, count, translation);
      (axis == Horizontal ==> o.y == 0.0 && Abs(o.x) <= Abs(translation.x)) &&
      (axis == Vertical ==> o == Point(0.0, -translation.y))
    ensures axis == Horizontal && index == 0 && count != 1 ==> DragOffset(axis, index, count, translation).x <= 0.0
    ensures axis == Horizontal && index == count - 1 && count != 1 ==> DragOffset(axis, index, count, translation).x >= 0.0
    ensures axis == Horizontal && (count == 1 || (index != 0 && index != count - 1)) ==>
      DragOffset(axis, index, count, translation).x == -translation.x
    ensures axis == Horizontal && index == 0 && translation.x >= 0.0 ==>
      DragOffset(axis, index, count, translation).x == -translation.x
    ensures axis == Horizontal && index == count - 1 && translation.x <= 0.0 ==>
      DragOffset(axis, index, count, translation).x == -translation.x
  {
  }

  // ------------------------------------------------------ release

  /** What a release does: commit towards an off-screen target offset, or cancel. */
  datatype Release = Commit(target: real) | Cancel

  /** Half the viewport plus half the item along an axis: how far the item must travel to leave the screen. */
  function TargetDistance(axis: SwipeDirection, viewSize: Size, itemSize: Size): real {
    match axis
    case Horizontal => viewSize.width / 2.0 + itemSize.width / 2.0
    case Vertical => viewSize.height / 2.0 + itemSize.height / 2.0
  }

  /** The velocity component on an axis. */
  function OnAxis(axis: SwipeDirection, p: Point): real {
    match axis
    case Horizontal => p.x
    case Vertical => p.y
  }

  /**
   * `handleSwipeToDimissEnded`, case by case and in the same order. All
   * comparisons with the threshold are strict.
   */
  function ReleaseDecision(axis: SwipeDirection, index: int, count: int, velocity: Point,
                           threshold: real, viewSize: Size, itemSize: Size): Release
  {
    match axis
    case Vertical =>
      if velocity.y < -threshold then Commit(viewSize.height / 2.0 + itemSize.height / 2.0)
      else if threshold < velocity.y then Commit(-(viewSize.height / 2.0) - itemSize.height / 2.0)
      else Cancel
    case Horizontal =>
      if index == 0 && threshold < velocity.x then Commit(-(viewSize.width / 2.0) - itemSize.width / 2.0)
      else if index == count - 1 && velocity.x < -threshold then Commit(viewSize.width / 2.0 + itemSize.width / 2.0)
      else Cancel
  }

  /** A release commits only if the speed on the latched axis is strictly above the threshold; at or below it, it cancels. */
  lemma ReleaseNeedsSpeed(axis: SwipeDirection, index: int, count: int, velocity: Point,
                          threshold: real, viewSize: Size, itemSize: Size)
    ensures ReleaseDecision(axis, index, count, velocity, threshold, viewSize, itemSize).Commit? ==>
      Abs(OnAxis(axis, velocity)) > threshold
    ensures threshold >= 0.0 && Abs(OnAxis(axis, velocity)) <= threshold ==>
      ReleaseDecision(axis, index, count, velocity, threshold, viewSize, itemSize) == Cancel
  {
  }

  /**
   * A vertical release commits exactly when the vertical speed exceeds the
   * threshold, whatever the index; a horizontal one commits only at the first
   * index flicking right or at the last index flicking left.
   */
  lemma ReleaseCommitCases(axis: SwipeDirection, index: int, count: int, velocity: Point,
                           threshold: real, viewSize: Size, itemSize: Size)
    requires threshold >= 0.0
    ensures axis == Vertical ==>
      (ReleaseDecision(axis, index, count, velocity, threshold, viewSize, itemSize).Commit? <==> Abs(velocity.y) > threshold)
    ensures axis == Horizontal ==>
      (ReleaseDecision(axis, index, count, velocity, threshold, viewSize, itemSize).Commit? <==>
        (index == 0 && velocity.x > threshold) || (index == count - 1 && velocity.x < -threshold))
  {
  }

  /**
   * A committed item leaves in the direction of the flick and travels exactly
   * the off-screen distance: the target's sign is opposite to the velocity on
   * the axis (offsets grow as content moves up or left) and its magnitude is
   * the target distance.
   */
  lemma CommitLeavesWithFlick(axis: SwipeDirection, index: int, count: int, velocity: Point,
                              threshold: real, viewSize: Size, itemSize: Size)
    requires threshold >= 0.0
    requires TargetDistance(axis, viewSize, itemSize) > 0.0
    requires ReleaseDecision(axis, index, count, velocity, threshold, viewSize, itemSize).Commit?
    ensures var target := ReleaseDecision(axis, index, count, velocity, threshold, viewSize, itemSize).target;
      target * OnAxis(axis, velocity) < 0.0 &&
      Abs(target) == TargetDistance(axis, viewSize, itemSize)
  {
  }

  // ------------------------------------------------------ may the pan begin

  /**
   * `gestureRecognizerShouldBegin`. In mode `.never` the pan recognizer is not
   * created, so nothing begins. A vertical pan needs mode `.vertical` (so
   * `.always` refuses it); a horizontal pan needs an edge index, a direction
   * pointing out of the sequence and an axis already latched horizontal.
   */
  predicate PanMayBegin(mode: SwipeToDismissMode, index: int, count: int, velocity: Point,
                        latched: Option<SwipeDirection>)
  {
    if mode == Never then false
    else if OrientationOf(velocity) == NoOrientation then false
    else if OrientationOf(velocity) != HorizontalOrientation then mode == VerticalOnly
    else if (index == 0 && DirectionOf(velocity) == Right) ||
            (index == count - 1 && DirectionOf(velocity) == Left) then latched == Some(Horizontal)
    else false
  }

  /** The pan rule in terms of the velocity itself. */
  lemma PanMayBeginCharacterised(mode: SwipeToDismissMode, index: int, count: int, velocity: Point,
                                 latched: Option<SwipeDirection>)
    ensures velocity == Zero ==> !PanMayBegin(mode, index, count, velocity, latched)
    ensures velocity != Zero && Abs(velocity.x) <= Abs(velocity.y) ==>
      (PanMayBegin(mode, index, count, velocity, latched) <==> mode == VerticalOnly)
    ensures Abs(velocity.x) > Abs(velocity.y) ==>
      (PanMayBegin(mode, index, count, velocity, latched) <==>
        mode != Never && latched == Some(Horizontal) &&
        ((index == 0 && velocity.x > 0.0) || (index == count - 1 && velocity.x < 0.0)))
  {
    OrientationCharacterised(velocity);
    if Abs(velocity.x) > Abs(velocity.y) {
      DirectionHorizontalDominant(velocity);
    }
  }

  /**
   * With no axis latched yet, a pan begins only vertically, in mode
   * `.vertical`, and the axis it then latches is vertical: a horizontal
   * swipe-to-dismiss cannot start from a fresh controller.
   */
  lemma FreshPanIsVertical(mode: SwipeToDismissMode, index: int, count: int, velocity: Point)
    requires PanMayBegin(mode, index, count, velocity, None)
    ensures mode == VerticalOnly && LatchAxis(velocity) == Vertical
  {
    PanMayBeginCharacterised(mode, index, count, velocity, None);
  }

  // ------------------------------------------------------ progress ratio

  /** The reported progress `|offset / distance|` on the latched axis. */
  function SwipeRatio(axis: SwipeDirection, offset: Point, viewSize: Size, itemSize: Size): (r: real)
    requires TargetDistance(axis, viewSize, itemSize) != 0.0
    ensures r >= 0.0
    ensures r * Abs(TargetDistance(axis, viewSize, itemSize)) == Abs(OnAxis(axis, offset))
  {
    Abs(OnAxis(axis, offset) / TargetDistance(axis, viewSize, itemSize))
  }

  lemma UnitQuotient(t: real, d: real)
    requires d != 0.0 && (t == d || t == -d)
    ensures Abs(t / d) == 1.0
  {
    if t == d {
      assert t / d == 1.0;
    } else {
      assert t / d == -1.0;
    }
  }

  /** The ratio is 0 at rest, and exactly 1 when a committed swipe has reached its target. */
  lemma RatioAtEndStates(axis: SwipeDirection, index: int, count: int, velocity: Point,
                         threshold: real, viewSize: Size, itemSize: Size)
    requires TargetDistance(axis, viewSize, itemSize) != 0.0
    ensures SwipeRatio(axis, Zero, viewSize, itemSize) == 0.0
    ensures var d := ReleaseDecision(axis, index, count, velocity, threshold, viewSize, itemSize);
      d.Commit? ==> SwipeRatio(axis, FinishedOffset(axis, d.target), viewSize, itemSize) == 1.0
  {
    var d := ReleaseDecision(axis, index, count, velocity, threshold, viewSize, itemSize);
    if d.Commit? {
      var dist := TargetDistance(axis, viewSize, itemSize);
      assert OnAxis(axis, FinishedOffset(axis, d.target)) == d.target;
      UnitQuotient(d.target, dist);
    }
  }

  // ------------------------------------------------------ double tap

  datatype DoubleTap = IgnoreTap | ZoomIn(scale: real) | ResetZoom

  /**
   * `scrollViewDidDoubleTap`: a tap above or below the item is ignored; at
   * zoom 1 with a larger aspect-fill scale it zooms in to that scale;
   * otherwise it zooms back to 1.
   */
  function DoubleTapDecision(touchY: real, itemHeight: real, zoomScale: real, aspectFillScale: real): DoubleTap {
    if touchY < 0.0 || touchY > itemHeight then IgnoreTap
    else if zoomScale == 1.0 && zoomScale < aspectFillScale then ZoomIn(aspectFillScale)
    else ResetZoom
  }

  /** Two double taps inside the item toggle: zooming in, then back to 1. */
  lemma DoubleTapToggles(touchY: real, itemHeight: real, aspectFillScale: real)
    requires 0.0 <= touchY <= itemHeight && aspectFillScale > 1.0
    ensures DoubleTapDecision(touchY, itemHeight, 1.0, aspectFillScale) == ZoomIn(aspectFillScale)
    ensures DoubleTapDecision(touchY, itemHeight, aspectFillScale, aspectFillScale) == ResetZoom
  {
  }

  // ------------------------------------------------------ one pan callback

  /** The recognizer states: `.cancelled`, `.failed` and `.possible` are `Idle`. */
  datatype GesturePhase = Began | Changed | Ended | Idle

  datatype PanSample = PanSample(phase: GesturePhase, velocity: Point, translation: Point)

  /** What a pan callback reads that it does not change. */
  datatype SwipeContext = SwipeContext(index: int, count: int, threshold: real,
                                       viewSize: Size, itemSize: Size, atMinimumZoom: bool)

  /**
   * The swipe state of an item controller: the latched axis, whether a
   * transition has been created (it is never discarded), the scroll offset,
   * and the commit and cancel completions still to run.
   */
  datatype SwipeState = SwipeState(latched: Option<SwipeDirection>, bound: bool, offset: Point,
                                   commits: nat, cancels: nat)

  /** The effect of one `scrollViewDidSwipeToDismiss` call. */
  function SwipeStep(s: SwipeState, ctx: SwipeContext, sample: PanSample): SwipeState {
    if !ctx.atMinimumZoom then s
    else
      var axis := if s.latched.Some? then s.latched.value else LatchAxis(sample.velocity);
      var s1 := s.(latched := Some(axis));
      match sample.phase
      case Began => s1.(bound := true)
      case Changed =>
        if s1.bound then s1.(offset := DragOffset(axis, ctx.index, ctx.count, sample.translation)) else s1
      case Ended =>
        if !s1.bound then s1
        else
          (match ReleaseDecision(axis, ctx.index, ctx.count, sample.velocity, ctx.threshold, ctx.viewSize, ctx.itemSize)
           case Commit(target) => s1.(offset := FinishedOffset(axis, target), commits := s1.commits + 1)
           case Cancel => s1.(offset := Zero, cancels := s1.cancels + 1))
      case Idle => s1
  }

  /** A sequence of pan callbacks with no completion in between. */
  function SwipeRun(s: SwipeState, ctx: SwipeContext, samples: seq<PanSample>): SwipeState
    decreases |samples|
  {
    if samples == [] then s else SwipeRun(SwipeStep(s, ctx, samples[0]), ctx, samples[1..])
  }

  function CountReleases(samples: seq<PanSample>): nat
    decreases |samples|
  {
    if samples == [] then 0
    else (if samples[0].phase == Ended then 1 else 0) + CountReleases(samples[1..])
  }

  /** While the item is zoomed in, pan callbacks change nothing. */
  lemma {:induction false} ZoomedInIgnoresPan(s: SwipeState, ctx: SwipeContext, samples: seq<PanSample>)
    requires !ctx.atMinimumZoom
    ensures SwipeRun(s, ctx, samples) == s
    decreases |samples|
  {
    if samples != [] {
      ZoomedInIgnoresPan(SwipeStep(s, ctx, samples[0]), ctx, samples[1..]);
    }
  }

  /** Once latched, the axis stays fixed for as long as no completion resets it. */
  lemma {:induction false} LatchedAxisIsStable(s: SwipeState, ctx: SwipeContext, samples: seq<PanSample>)
    requires s.latched.Some?
    ensures SwipeRun(s, ctx, samples).latched == s.latched
    decreases |samples|
  {
    if samples != [] {
      LatchedAxisIsStable(SwipeStep(s, ctx, samples[0]), ctx, samples[1..]);
    }
  }

  /** From an unlatched state, the axis is the one the first sample's velocity picks. */
  lemma FirstSampleLatches(s: SwipeState, ctx: SwipeContext, samples: seq<PanSample>)
    requires s.latched.None? && ctx.atMinimumZoom && samples != []
    ensures SwipeRun(s, ctx, samples).latched == Some(LatchAxis(samples[0].velocity))
  {
    LatchedAxisIsStable(SwipeStep(s, ctx, samples[0]), ctx, samples[1..]);
  }

  /**
   * Once a transition exists, every release schedules exactly one completion
   * (commit or cancel), and nothing else schedules one.
   */
  lemma {:induction false} OneCompletionPerRelease(s: SwipeState, ctx: SwipeContext, samples: seq<PanSample>)
    requires s.bound && ctx.atMinimumZoom
    ensures var r := SwipeRun(s, ctx, samples);
      r.bound && r.commits + r.cancels == s.commits + s.cancels + CountReleases(samples)
    decreases |samples|
  {
    if samples != [] {
      OneCompletionPerRelease(SwipeStep(s, ctx, samples[0]), ctx, samples[1..]);
    }
  }

  /** The offset of a horizontally latched swipe at an edge points out of the sequence (or is zero). */
  predicate OutwardAtEdge(ctx: SwipeContext, offset: Point) {
    offset.y == 0.0 &&
    (ctx.index == 0 ==> offset.x <= 0.0) &&
    (ctx.index == ctx.count - 1 ==> offset.x >= 0.0)
  }

  /**
   * At the first or last of several items, a horizontally latched swipe only
   * ever moves the item out of the sequence: dragging, committing and
   * cancelling all keep the offset on the outward side.
   */
  lemma {:induction false} EdgeSwipeStaysOutward(s: SwipeState, ctx: SwipeContext, samples: seq<PanSample>)
    requires s.latched == Some(Horizontal) && ctx.count != 1
    requires ctx.viewSize.width >= 0.0 && ctx.itemSize.width >= 0.0
    requires OutwardAtEdge(ctx, s.offset)
    ensures OutwardAtEdge(ctx, SwipeRun(s, ctx, samples).offset)
    decreases |samples|
  {
    if samples != [] {
      var next := SwipeStep(s, ctx, samples[0]);
      DragOffsetProperties(Horizontal, ctx.index, ctx.count, samples[0].translation);
      assert OutwardAtEdge(ctx, next.offset);
      EdgeSwipeStaysOutward(next, ctx, samples[1..]);
    }
  }

  /**
   * The decision-table example: a vertical flick at -600 against the default
   * threshold of 500 commits, moving the content up by half the viewport plus
   * half the item.
   */
  lemma FlickUpCommits(index: int, count: int, viewSize: Size, itemSize: Size)
    ensures ReleaseDecision(Vertical, index, count, Point(0.0, -600.0), 500.0, viewSize, itemSize)
      == Commit(viewSize.height / 2.0 + itemSize.height / 2.0)
  {
  }
}
