/**
 * One item's controller: its item view's visibility and alpha, the scroll
 * view it zooms and swipes, the `isAnimating` guard that lets only one
 * present or dismiss animation run at a time, and the swipe-to-dismiss
 * gesture. Each UIKit animation's end state is written when it starts; its
 * completion is the method `CompleteAnimation` (present/dismiss) or
 * `CompleteSwipeCommit`/`CompleteSwipeCancel` (swipe), run once per animation.
 */
module ItemBase {

  import opened Optional
  import opened Geometry
  import opened ViewerOptions
  import opened SwipeTransition
  import opened ItemDecisions

  const MinimumZoomScale: real := 1.0

  /**
   * An on-screen view an item is displaced from and back to (a thumbnail),
   * owned by the host: the size of its image if it shows one, its bounds'
   * size, its frame in screen coordinates, and its `isHidden` flag.
   */
  class DisplacedView {
    const image: Option<Size>
    const boundsSize: Size
    const screenFrame: Rect
    var isHidden: bool

    constructor (image: Option<Size>, boundsSize: Size, screenFrame: Rect, isHidden: bool)
      ensures this.image == image && this.boundsSize == boundsSize
      ensures this.screenFrame == screenFrame && this.isHidden == isHidden
    {
      this.image := image;
      this.boundsSize := boundsSize;
      this.screenFrame := screenFrame;
      this.isHidden := isHidden;
    }
  }

  /** The present or dismiss animation whose completion has not run yet. */
  datatype ItemAnimation =
    | NoAnimation
    | PresentingDisplaced(view: DisplacedView)
    | PresentingFade
    | DismissingDisplaced(view: DisplacedView)
    | DismissingFade
  {
    predicate Presenting() { PresentingDisplaced? || PresentingFade? }
    predicate Dismissing() { DismissingDisplaced? || DismissingFade? }

    function Views(): set<DisplacedView> {
      if PresentingDisplaced? || DismissingDisplaced? then {view} else {}
    }
  }

  class ItemController {
    const index: int
    const numberOfItems: int
    const isInitialController: bool
    const option: ImageViewerOption
    const displacementSpringBounce: real
    const scrollView: ScrollView

    // collaborators wired after construction (weak in the source)
    var hasDelegate: bool
    var displacedSourceAttached: bool
    var hasProgressView: bool

    // layout
    var viewFrame: Rect
    var viewSize: Size
    var itemSize: Size

    // the item view
    var image: Option<Size>
    var loadingIndicatorShown: bool
    var itemHidden: bool
    var itemAlpha: real
    /** The transient copy of the displaced view that flies to full screen. */
    var transientShown: bool

    // animation and gesture state
    var isAnimating: bool
    var animation: ItemAnimation
    var swipeDirection: Option<SwipeDirection>
    var transition: SwipeToDismissTransition?
    var pendingCommits: nat
    var pendingCancels: nat

    /**
     * `isAnimating` is set exactly while a present or dismiss completion is
     * outstanding, the transient copy is shown only during a displaced
     * presentation, a fade presentation has unhidden the item view, and a swipe transition drives this controller's scroll view.
     */
    ghost predicate Valid()
      reads this, transition
    {
      (isAnimating <==> animation != NoAnimation) &&
      (transientShown <==> animation.PresentingDisplaced?) &&
      (animation.PresentingFade? ==> !itemHidden) &&
      (transition != null ==> transition.scrollView == scrollView) &&
      scrollView.minimumZoomScale == MinimumZoomScale
    }

    /**
     * `init(numberOfItems:startIndex:fetchImageBlock:option:isInitialController:)`:
     * the spring damping comes from the displacement style, and the initial
     * controller starts with its item view hidden.
     */
    constructor (numberOfItems: int, startIndex: int, option: ImageViewerOption, isInitialController: bool)
      ensures Valid() && fresh(scrollView)
      ensures index == startIndex && this.numberOfItems == numberOfItems
      ensures this.option == option && this.isInitialController == isInitialController
      ensures displacementSpringBounce == SpringDamping(option.displacementTransitionStyle)
      ensures itemHidden == isInitialController && itemAlpha == 1.0 && !transientShown
      ensures image == None && loadingIndicatorShown
      ensures !isAnimating && animation == NoAnimation
      ensures swipeDirection == None && transition == null && pendingCommits == 0 && pendingCancels == 0
      ensures !hasDelegate && !displacedSourceAttached && !hasProgressView
      ensures scrollView.contentOffset == Zero && scrollView.zoomScale == MinimumZoomScale
    {
      index := startIndex;
      this.numberOfItems := numberOfItems;
      this.isInitialController := isInitialController;
      this.option := option;
      displacementSpringBounce := SpringDamping(option.displacementTransitionStyle);
      scrollView := new ScrollView(MinimumZoomScale);
      hasDelegate, displacedSourceAttached, hasProgressView := false, false, false;
      viewFrame := Rect(Zero, Size(0.0, 0.0));
      viewSize, itemSize := Size(0.0, 0.0), Size(0.0, 0.0);
      image := None;
      loadingIndicatorShown := true;
      itemHidden := isInitialController;
      itemAlpha := 1.0;
      transientShown := false;
      isAnimating := false;
      animation := NoAnimation;
      swipeDirection := None;
      transition := null;
      pendingCommits, pendingCancels := 0, 0;
    }

    // ------------------------------------------------------------ image and layout

    /** The image arrived from the fetch block: nothing happens for nil, otherwise it is shown and the indicator stops. */
    method DidFetchImage(fetched: Option<Size>)
      modifies this`image, this`loadingIndicatorShown
      ensures fetched.None? ==> image == old(image) && loadingIndicatorShown == old(loadingIndicatorShown)
      ensures fetched.Some? ==> image == fetched && !loadingIndicatorShown
    {
      if fetched.Some? {
        loadingIndicatorShown := false;
        image := fetched;
      }
    }

    /**
     * `viewDidLayoutSubviews`: the scroll view fills the view, and an image of
     * non-zero size gets `aspectFitSize`, the aspect-fit size of the image in
     * the view's bounds (computed outside this model).
     */
    method DidLayoutSubviews(frame: Rect, aspectFitSize: Size)
      modifies this`viewFrame, this`viewSize, this`itemSize
      ensures viewFrame == frame && viewSize == frame.size
      ensures itemSize == if image.Some? && image.value != Size(0.0, 0.0) then aspectFitSize else old(itemSize)
    {
      viewFrame := frame;
      viewSize := frame.size;
      if image.Some? && image.value != Size(0.0, 0.0) {
        itemSize := aspectFitSize;
      }
    }

    // ------------------------------------------------------------ present and dismiss

    /**
     * `findVisibleDisplacedView`: the view the displaced-view source provides
     * for this index, kept only if its screen frame meets the view's frame
     * inset by `displacementInsetMargin`.
     */
    function FindVisibleDisplacedView(provided: DisplacedView?): (d: DisplacedView?)
      reads this
      ensures d != null ==> d == provided
      ensures d != null <==> (displacedSourceAttached && provided != null &&
                              VisibleEnough(provided.screenFrame, viewFrame, option.displacementInsetMargin))
    {
      if displacedSourceAttached && provided != null &&
         VisibleEnough(provided.screenFrame, viewFrame, option.displacementInsetMargin)
      then provided else null
    }

    /**
     * `presentItem`: ignored while animating. Otherwise, if the displaced-view
     * source provides a view with an image, a transient copy flies to full
     * screen and the original is hidden unless it is kept in place; else the
     * item view is unhidden and faded in.
     */
    method PresentItem(provided: DisplacedView?) returns (accepted: bool)
      requires Valid()
      modifies this`isAnimating, this`animation, this`transientShown, this`itemAlpha, this`itemHidden, provided
      ensures Valid()
      ensures accepted == !old(isAnimating)
      ensures !accepted ==> unchanged(this) && (provided != null ==> unchanged(provided))
      ensures accepted ==> isAnimating && animation.Presenting()
      ensures accepted && displacedSourceAttached && provided != null && provided.image.Some? ==>
        animation == PresentingDisplaced(provided) &&
        provided.isHidden == !option.displacementKeepOriginalInPlace &&
        itemHidden == old(itemHidden) && itemAlpha == old(itemAlpha)
      ensures accepted && !(displacedSourceAttached && provided != null && provided.image.Some?) ==>
        animation == PresentingFade && !itemHidden && itemAlpha == 1.0 &&
        (provided != null ==> unchanged(provided))
    {
      if isAnimating {
        return false;
      }
      accepted := true;
      isAnimating := true;
      var displaced := if displacedSourceAttached then provided else null;
      if displaced != null && displaced.image.Some? {
        transientShown := true;
        displaced.isHidden := !option.displacementKeepOriginalInPlace;
        animation := PresentingDisplaced(displaced);
      } else {
        itemAlpha := 0.0;
        itemHidden := false;
        itemAlpha := 1.0;
        animation := PresentingFade;
      }
    }

    /**
     * `dismissItem`: ignored while animating. Otherwise, a displaced view that
     * is visible enough is the target of a reverse displacement: zoom resets,
     * the item takes the displaced view's size, and the original is hidden
     * (always when the app is portrait-only). Without one, the item fades out.
     */
    method DismissItem(provided: DisplacedView?, isPortraitOnly: bool) returns (accepted: bool)
      requires Valid()
      modifies this`isAnimating, this`animation, this`itemAlpha, this`itemSize, scrollView`zoomScale, provided
      ensures Valid()
      ensures accepted == !old(isAnimating)
      ensures !accepted ==> unchanged(this) && unchanged(scrollView) && (provided != null ==> unchanged(provided))
      ensures accepted ==> isAnimating && animation.Dismissing()
      ensures accepted && old(FindVisibleDisplacedView(provided)) != null ==>
        animation == DismissingDisplaced(provided) &&
        provided.isHidden == (isPortraitOnly || !option.displacementKeepOriginalInPlace) &&
        scrollView.zoomScale == MinimumZoomScale && itemSize == provided.boundsSize &&
        itemAlpha == old(itemAlpha)
      ensures accepted && old(FindVisibleDisplacedView(provided)) == null ==>
        animation == DismissingFade && itemAlpha == 0.0 && itemSize == old(itemSize) &&
        unchanged(scrollView) && (provided != null ==> unchanged(provided))
    {
      if isAnimating {
        return false;
      }
      accepted := true;
      isAnimating := true;
      var displaced := FindVisibleDisplacedView(provided);
      if displaced != null {
        displaced.isHidden := !option.displacementKeepOriginalInPlace;
        scrollView.zoomScale := scrollView.minimumZoomScale;
        if isPortraitOnly {
          displaced.isHidden := true;
        }
        itemSize := displaced.boundsSize;
        animation := DismissingDisplaced(displaced);
      } else {
        itemAlpha := 0.0;
        animation := DismissingFade;
      }
    }

    /**
     * The completion of the outstanding present or dismiss animation. A
     * displaced presentation shows the displaced image in the item view,
     * unhides the item view and the displaced view and removes the transient
     * copy; a reverse displacement unhides the displaced view. Every kind
     * clears `isAnimating`.
     */
    method CompleteAnimation() returns (finished: ItemAnimation)
      requires Valid() && animation != NoAnimation
      modifies this`isAnimating, this`animation, this`transientShown, this`itemHidden, this`image,
        animation.Views()
      ensures Valid() && !isAnimating && animation == NoAnimation && finished == old(animation)
      ensures finished.Presenting() ==> !itemHidden
      ensures finished.PresentingDisplaced? ==> !finished.view.isHidden && image == finished.view.image
      ensures finished.DismissingDisplaced? ==> !finished.view.isHidden && image == old(image)
      ensures finished.PresentingFade? || finished.DismissingFade? ==> image == old(image)
      ensures finished.Dismissing() ==> itemHidden == old(itemHidden)
    {
      finished := animation;
      match animation {
        case PresentingDisplaced(displaced) =>
          image := displaced.image;
          itemHidden := false;
          displaced.isHidden := false;
          transientShown := false;
        case DismissingDisplaced(displaced) =>
          displaced.isHidden := false;
        case PresentingFade =>
        case DismissingFade =>
        case NoAnimation =>
      }
      isAnimating := false;
      animation := NoAnimation;
    }

    // ------------------------------------------------------------ gestures

    /** `gestureRecognizerShouldBegin`, with this controller's mode, index and latched axis. */
    predicate ShouldBegin(velocity: Point)
      reads this
    {
      PanMayBegin(option.swipeToDismissMode, index, numberOfItems, velocity, swipeDirection)
    }

    /** `scrollViewDidDoubleTap`: the tap is compared with the item's frame, which is scaled by the zoom. */
    method DidDoubleTap(touchPoint: Point, aspectFillScale: real)
      modifies scrollView`zoomScale
      ensures var d := DoubleTapDecision(touchPoint.y, itemSize.height * old(scrollView.zoomScale),
                                         old(scrollView.zoomScale), aspectFillScale);
        scrollView.zoomScale == match d
          case IgnoreTap => old(scrollView.zoomScale)
          case ZoomIn(scale) => scale
          case ResetZoom => 1.0
    {
      var d := DoubleTapDecision(touchPoint.y, itemSize.height * scrollView.zoomScale,
                                 scrollView.zoomScale, aspectFillScale);
      match d
      case IgnoreTap =>
      case ZoomIn(scale) => scrollView.zoomScale := scale;
      case ResetZoom => scrollView.zoomScale := 1.0;
    }

    /** The swipe state that `SwipeStep` describes. */
    function SwipeView(): SwipeState
      reads this, scrollView
    {
      SwipeState(swipeDirection, transition != null, scrollView.contentOffset, pendingCommits, pendingCancels)
    }

    /** What a pan callback reads: index, count, threshold, sizes, and whether the item is unzoomed. */
    function Context(): SwipeContext
      reads this, scrollView
    {
      SwipeContext(index, numberOfItems, option.swipeToDismissThresholdVelocity, viewSize, itemSize,
                   scrollView.zoomScale == scrollView.minimumZoomScale)
    }

    /** `handleSwipeToDismissInProgress`: the transition, if any, moves the offset to the drag offset. */
    method HandleSwipeToDismissInProgress(axis: SwipeDirection, translation: Point)
      requires Valid()
      modifies scrollView
      ensures scrollView.zoomScale == old(scrollView.zoomScale)
      ensures scrollView.contentOffset ==
        if transition != null then DragOffset(axis, index, numberOfItems, translation) else old(scrollView.contentOffset)
    {
      if transition != null {
        var offset := DragOffset(axis, index, numberOfItems, translation);
        transition.DidChangeInteractiveTransition(offset.x, offset.y);
      }
    }

    /**
     * `handleSwipeToDimissEnded`: with a transition, a commit moves the offset
     * to the target and schedules the commit completion; a cancel returns it
     * to zero and schedules the cancel completion. `timing` is the spring
     * timing of a commit.
     */
    method HandleSwipeToDismissEnded(axis: SwipeDirection, velocity: Point, touchPoint: Point)
      returns (timing: Option<SpringTiming>)
      requires Valid()
      modifies scrollView, this`pendingCommits, this`pendingCancels
      ensures scrollView.zoomScale == old(scrollView.zoomScale)
      ensures var d := ReleaseDecision(axis, index, numberOfItems, velocity,
                                       option.swipeToDismissThresholdVelocity, viewSize, itemSize);
        if transition == null then
          timing == None && scrollView.contentOffset == old(scrollView.contentOffset) &&
          pendingCommits == old(pendingCommits) && pendingCancels == old(pendingCancels)
        else if d.Commit? then
          timing == FinishTiming(OnAxis(axis, velocity), d.target, OnAxis(axis, touchPoint)) &&
          scrollView.contentOffset == FinishedOffset(axis, d.target) &&
          pendingCommits == old(pendingCommits) + 1 && pendingCancels == old(pendingCancels)
        else
          timing == None && scrollView.contentOffset == Zero &&
          pendingCommits == old(pendingCommits) && pendingCancels == old(pendingCancels) + 1
    {
      timing := None;
      if transition != null {
        var decision := ReleaseDecision(axis, index, numberOfItems, velocity,
                                        option.swipeToDismissThresholdVelocity, viewSize, itemSize);
        match decision
        case Commit(target) =>
          timing := transition.DidFinishInteractiveTransition(axis, OnAxis(axis, touchPoint), target,
                                                              OnAxis(axis, velocity));
          pendingCommits := pendingCommits + 1;
        case Cancel =>
          var _ := transition.CancelInteractiveTransition();
          pendingCancels := pendingCancels + 1;
      }
    }

    /**
     * `scrollViewDidSwipeToDismiss`: ignored while zoomed; otherwise latches
     * the axis if none is latched, then creates the transition on `.began`,
     * drags on `.changed` and commits or cancels on `.ended`.
     */
    method DidSwipeToDismiss(phase: GesturePhase, velocity: Point, translation: Point)
      requires Valid()
      modifies this`swipeDirection, this`transition, this`pendingCommits, this`pendingCancels, scrollView
      ensures Valid()
      ensures SwipeView() == SwipeStep(old(SwipeView()), old(Context()), PanSample(phase, velocity, translation))
      ensures scrollView.zoomScale == old(scrollView.zoomScale)
    {
      if scrollView.zoomScale != scrollView.minimumZoomScale {
        return;
      }
      if swipeDirection == None {
        swipeDirection := Some(LatchAxis(velocity));
      }
      var axis := swipeDirection.value;
      match phase
      case Began =>
        transition := new SwipeToDismissTransition(scrollView);
      case Changed =>
        HandleSwipeToDismissInProgress(axis, translation);
      case Ended =>
        var _ := HandleSwipeToDismissEnded(axis, velocity, translation);
      case Idle =>
    }

    /** The commit completion: the axis is released and the delegate, if any, is told the swipe finished. */
    method CompleteSwipeCommit() returns (notifiesDelegate: bool)
      requires pendingCommits > 0
      modifies this`swipeDirection, this`pendingCommits
      ensures swipeDirection == None && pendingCommits == old(pendingCommits) - 1
      ensures notifiesDelegate == hasDelegate
    {
      swipeDirection := None;
      pendingCommits := pendingCommits - 1;
      notifiesDelegate := hasDelegate;
    }

    /** The cancel completion: the axis is released. */
    method CompleteSwipeCancel()
      requires pendingCancels > 0
      modifies this`swipeDirection, this`pendingCancels
      ensures swipeDirection == None && pendingCancels == old(pendingCancels) - 1
    {
      swipeDirection := None;
      pendingCancels := pendingCancels - 1;
    }

    /**
     * `observeValue(forKeyPath:"contentOffset")`: while an axis is latched,
     * the progress `|offset / (viewport/2 + item/2)|` on that axis; nothing
     * otherwise.
     */
    function ObservedRatio(): (r: Option<real>)
      reads this, scrollView
      requires swipeDirection.Some? ==> TargetDistance(swipeDirection.value, viewSize, itemSize) != 0.0
      ensures r.Some? <==> swipeDirection.Some?
      ensures r.Some? ==> (r.value >= 0.0 &&
                           r.value * Abs(TargetDistance(swipeDirection.value, viewSize, itemSize)) ==
                           Abs(OnAxis(swipeDirection.value, scrollView.contentOffset)))
    {
      if swipeDirection.Some? then
        Some(SwipeRatio(swipeDirection.value, scrollView.contentOffset, viewSize, itemSize))
      else None
    }
  }
}
