/**
 * The viewer: a horizontally paging container of item controllers with an
 * overlay behind them and optional header and footer ("chrome") views above.
 * It runs the launch, close and rotation animations under one `isAnimating`
 * flag, relays the visible item's swipe progress to the chrome and overlay,
 * and reports events to its host. Each animation's end state is written when
 * it starts; its completion is a method of its own.
 */
module Viewer {

  import opened Optional
  import opened Geometry
  import opened ViewerOptions
  import opened Overlay
  import opened ItemBase
  import opened Paging
  import SwipeTransition

  /** The events the viewer reports to its host delegate, in order. */
  datatype HostEvent = DidLaunch | DidClose | DidSwipeToDismiss | DidLandOnPage(index: int)

  /** The chrome's alpha at swipe progress `ratio`. */
  function ChromeAlpha(ratio: real): real {
    1.0 - ratio * 6.0
  }

  /** The overlay layers' alpha at swipe progress `ratio`. */
  function OverlayAlpha(ratio: real): real {
    1.0 - ratio
  }

  /**
   * At rest both are fully opaque; once the item moves, the chrome is more
   * transparent than the overlay; the chrome is gone by a sixth of the way
   * and the overlay when the item has left.
   */
  lemma RelayFades(ratio: real)
    ensures ratio == 0.0 ==> ChromeAlpha(ratio) == 1.0 && OverlayAlpha(ratio) == 1.0
    ensures ratio > 0.0 ==> ChromeAlpha(ratio) < OverlayAlpha(ratio)
    ensures ChromeAlpha(ratio) <= 0.0 <==> ratio >= 1.0 / 6.0
    ensures OverlayAlpha(ratio) <= 0.0 <==> ratio >= 1.0
  {
  }

  /** The item controller a completion acts on, as a frame. */
  function ItemSet(c: ItemController?): set<ItemController> {
    if c != null then {c} else {}
  }

  /** The scroll view of that item controller, as a frame. */
  function ScrollViewSet(c: ItemController?): set<SwipeTransition.ScrollView> {
    if c != null then {c.scrollView} else {}
  }

  /** Chrome alpha for a visibility flag: 1 when visible, 0 when not. */
  function ChromeTarget(visible: bool): real {
    if visible then 1.0 else 0.0
  }

  class ImageViewer {
    const option: ImageViewerOption
    const paging: PagingDataSource
    const overlay: BlurView
    /** The controller of the start item, which presents the launch. */
    const initialItem: ItemController
    const hasHeader: bool
    const hasFooter: bool
    const hasDelegate: bool

    /** The collaborators created by the constructor share the viewer's option. */
    ghost predicate Wired() {
      paging.option == option && overlay.option == option && initialItem.option == option
    }

    var headerHidden: bool
    var footerHidden: bool
    var headerAlpha: real
    var footerAlpha: real
    var isAnimating: bool
    var initialPresentationDone: bool
    var currentIndex: int
    var presented: bool
    var notifications: seq<HostEvent>

    // outstanding completions
    var launchPending: bool
    var chromeClosesPending: nat
    var dismissingItem: ItemController?
    var rotationsPending: nat

    /**
     * `init(startIndex:itemDataSource:displacedViewsDataSource:option:)`: the
     * paging data source gets this viewer as item delegate and creates the
     * initial controller for the start index.
     */
    constructor (startIndex: int, source: DataSource, displacedSourceAttached: bool, option: ImageViewerOption,
                 hasHeader: bool, hasFooter: bool, hasDelegate: bool)
      ensures this.option == option && this.hasHeader == hasHeader && this.hasFooter == hasFooter
      ensures this.hasDelegate == hasDelegate && Wired()
      ensures fresh(paging) && fresh(overlay) && fresh(initialItem) && fresh(initialItem.scrollView)
      ensures paging.source == Some(source) && paging.hasItemDelegate && paging.option == option
      ensures overlay.option == option && overlay.containerAlpha == 0.0 && overlay.colorAlpha == 0.0
      ensures overlay.blurAlpha == 1.0 && !overlay.attached
      ensures initialItem.Valid() && initialItem.index == startIndex && initialItem.isInitialController
      ensures initialItem.numberOfItems == source.itemCount && initialItem.option == option
      ensures initialItem.hasDelegate && initialItem.displacedSourceAttached == displacedSourceAttached
      ensures !initialItem.isAnimating && initialItem.itemHidden && initialItem.transition == null
      ensures currentIndex == startIndex && notifications == [] && presented
      ensures !headerHidden && !footerHidden && headerAlpha == 1.0 && footerAlpha == 1.0
      ensures !isAnimating && !initialPresentationDone
      ensures !launchPending && chromeClosesPending == 0 && dismissingItem == null && rotationsPending == 0
    {
      this.option := option;
      this.hasHeader, this.hasFooter, this.hasDelegate := hasHeader, hasFooter, hasDelegate;
      currentIndex := startIndex;
      var p := new PagingDataSource(source, displacedSourceAttached, option);
      p.hasItemDelegate := true;
      paging := p;
      var created := p.CreateItemController(startIndex, true);
      initialItem := created.controller;
      overlay := new BlurView(option);
      headerHidden, footerHidden := false, false;
      headerAlpha, footerAlpha := 1.0, 1.0;
      isAnimating, initialPresentationDone := false, false;
      presented := true;
      notifications := [];
      launchPending, chromeClosesPending := false, 0;
      dismissingItem := null;
      rotationsPending := 0;
    }

    /** `viewDidLoad`: the header and footer, when present, start transparent. */
    method ViewDidLoad()
      modifies this`headerAlpha, this`footerAlpha
      ensures headerAlpha == if hasHeader then 0.0 else old(headerAlpha)
      ensures footerAlpha == if hasFooter then 0.0 else old(footerAlpha)
    {
      if hasHeader {
        headerAlpha := 0.0;
      }
      if hasFooter {
        footerAlpha := 0.0;
      }
    }

    /**
     * `viewDidAppear`: only the first time, the overlay is attached and the
     * initial item is presented (`presentFirst`), with the overlay fading in
     * as its animation. `isAnimating` is set even when the item refuses.
     */
    method ViewDidAppear(provided: DisplacedView?)
      requires Wired() && initialItem.Valid()
      modifies this`initialPresentationDone, this`isAnimating, this`launchPending,
        overlay`attached, overlay`containerAlpha, overlay`colorAlpha,
        initialItem`isAnimating, initialItem`animation, initialItem`transientShown,
        initialItem`itemAlpha, initialItem`itemHidden, provided
      ensures initialItem.Valid()
      ensures old(initialPresentationDone) ==>
        unchanged(this) && unchanged(overlay) && unchanged(initialItem) && (provided != null ==> unchanged(provided))
      ensures !old(initialPresentationDone) ==>
        initialPresentationDone && isAnimating && overlay.attached &&
        launchPending == (old(launchPending) || !old(initialItem.isAnimating))
      ensures !old(initialPresentationDone) && !old(initialItem.isAnimating) ==>
        initialItem.animation.Presenting() &&
        (initialItem.animation.PresentingDisplaced? ==> initialItem.animation.view == provided) &&
        overlay.containerAlpha == option.overlayBlurOpacity && overlay.colorAlpha == option.overlayColorOpacity
      ensures !old(initialPresentationDone) && old(initialItem.isAnimating) ==>
        unchanged(initialItem) && (provided != null ==> unchanged(provided)) &&
        overlay.containerAlpha == old(overlay.containerAlpha) && overlay.colorAlpha == old(overlay.colorAlpha)
      ensures !old(initialPresentationDone) && !old(initialItem.isAnimating) &&
              initialItem.displacedSourceAttached && provided != null && provided.image.Some? ==>
        initialItem.animation == PresentingDisplaced(provided) &&
        provided.isHidden == !option.displacementKeepOriginalInPlace &&
        initialItem.itemHidden == old(initialItem.itemHidden) && initialItem.itemAlpha == old(initialItem.itemAlpha)
      ensures !old(initialPresentationDone) && !old(initialItem.isAnimating) &&
              !(initialItem.displacedSourceAttached && provided != null && provided.image.Some?) ==>
        initialItem.animation == PresentingFade && !initialItem.itemHidden && initialItem.itemAlpha == 1.0 &&
        (provided != null ==> unchanged(provided))
    {
      if initialPresentationDone {
        return;
      }
      overlay.attached := true;
      PresentFirst(provided);
      initialPresentationDone := true;
    }

    /** `presentFirst`: the item's presentation runs with the overlay's fade-in; its completion is `LaunchDidComplete`. */
    method PresentFirst(provided: DisplacedView?)
      requires Wired() && initialItem.Valid()
      modifies this`isAnimating, this`launchPending, overlay`containerAlpha, overlay`colorAlpha,
        initialItem`isAnimating, initialItem`animation, initialItem`transientShown,
        initialItem`itemAlpha, initialItem`itemHidden, provided
      ensures initialItem.Valid() && isAnimating
      ensures launchPending == (old(launchPending) || !old(initialItem.isAnimating))
      ensures !old(initialItem.isAnimating) ==>
        initialItem.animation.Presenting() &&
        (initialItem.animation.PresentingDisplaced? ==> initialItem.animation.view == provided) &&
        overlay.containerAlpha == option.overlayBlurOpacity && overlay.colorAlpha == option.overlayColorOpacity
      ensures old(initialItem.isAnimating) ==>
        unchanged(initialItem) &&
        overlay.containerAlpha == old(overlay.containerAlpha) && overlay.colorAlpha == old(overlay.colorAlpha) &&
        (provided != null ==> unchanged(provided))
      ensures !old(initialItem.isAnimating) &&
              initialItem.displacedSourceAttached && provided != null && provided.image.Some? ==>
        initialItem.animation == PresentingDisplaced(provided) &&
        provided.isHidden == !option.displacementKeepOriginalInPlace &&
        initialItem.itemHidden == old(initialItem.itemHidden) && initialItem.itemAlpha == old(initialItem.itemAlpha)
      ensures !old(initialItem.isAnimating) &&
              !(initialItem.displacedSourceAttached && provided != null && provided.image.Some?) ==>
        initialItem.animation == PresentingFade && !initialItem.itemHidden && initialItem.itemAlpha == 1.0 &&
        (provided != null ==> unchanged(provided))
    {
      isAnimating := true;
      var accepted := initialItem.PresentItem(provided);
      if accepted {
        overlay.Present();
        launchPending := true;
      }
    }

    /**
     * The completion of the launch: the item's presentation completes, the
     * chrome that is not hidden fades in, the viewer stops animating and the
     * host is told the viewer launched.
     */
    method LaunchDidComplete()
      requires launchPending && initialItem.Valid() && initialItem.animation.Presenting()
      modifies this`launchPending, this`isAnimating, this`headerAlpha, this`footerAlpha, this`notifications,
        initialItem`isAnimating, initialItem`animation, initialItem`transientShown, initialItem`itemHidden,
        initialItem`image, initialItem.animation.Views()
      ensures !launchPending && !isAnimating
      ensures initialItem.Valid() && !initialItem.isAnimating && !initialItem.itemHidden
      ensures initialItem.animation == NoAnimation && !initialItem.transientShown
      ensures old(initialItem.animation).PresentingDisplaced? ==>
        !old(initialItem.animation).view.isHidden && initialItem.image == old(initialItem.animation).view.image
      ensures old(initialItem.animation).PresentingFade? ==> initialItem.image == old(initialItem.image)
      ensures headerAlpha == if hasHeader && !headerHidden then 1.0 else old(headerAlpha)
      ensures footerAlpha == if hasFooter && !footerHidden then 1.0 else old(footerAlpha)
      ensures notifications == old(notifications) + if hasDelegate then [DidLaunch] else []
    {
      var finished := initialItem.CompleteAnimation();
      launchPending := false;
      if !headerHidden && hasHeader {
        headerAlpha := 1.0;
      }
      if !footerHidden && hasFooter {
        footerAlpha := 1.0;
      }
      isAnimating := false;
      if hasDelegate {
        notifications := notifications + [DidLaunch];
      }
    }

    /**
     * `close` / `closeDecorationViews`: ignored while animating; otherwise the
     * chrome fades out, and its completion is `ChromeCloseDidComplete`.
     */
    method Close() returns (accepted: bool)
      modifies this`isAnimating, this`headerAlpha, this`footerAlpha, this`chromeClosesPending
      ensures accepted == !old(isAnimating) && isAnimating
      ensures !accepted ==> unchanged(this)
      ensures accepted ==>
        chromeClosesPending == old(chromeClosesPending) + 1 &&
        headerAlpha == (if hasHeader then 0.0 else old(headerAlpha)) &&
        footerAlpha == (if hasFooter then 0.0 else old(footerAlpha))
    {
      if isAnimating {
        return false;
      }
      accepted := true;
      isAnimating := true;
      if hasHeader {
        headerAlpha := 0.0;
      }
      if hasFooter {
        footerAlpha := 0.0;
      }
      chromeClosesPending := chromeClosesPending + 1;
    }

    /**
     * The chrome's fade-out completed: the visible item controller, if the
     * first page is one, dismisses its item with the overlay's fade-out; the
     * completion of that dismissal is `DismissalDidComplete`.
     */
    method ChromeCloseDidComplete(visible: ItemController?, provided: DisplacedView?, isPortraitOnly: bool)
      requires Wired() && chromeClosesPending > 0
      requires visible != null ==> visible.Valid()
      modifies this`chromeClosesPending, this`dismissingItem, overlay`containerAlpha, overlay`colorAlpha,
        ItemSet(visible)`isAnimating, ItemSet(visible)`animation, ItemSet(visible)`itemAlpha,
        ItemSet(visible)`itemSize, ScrollViewSet(visible)`zoomScale, provided
      ensures chromeClosesPending == old(chromeClosesPending) - 1
      ensures visible != null ==> visible.Valid()
      ensures visible != null && !old(visible.isAnimating) ==>
        dismissingItem == visible && visible.isAnimating && visible.animation.Dismissing() &&
        overlay.containerAlpha == 0.0 && overlay.colorAlpha == 0.0
      ensures visible != null && !old(visible.isAnimating) && old(visible.FindVisibleDisplacedView(provided)) != null ==>
        visible.animation == DismissingDisplaced(provided) &&
        provided.isHidden == (isPortraitOnly || !visible.option.displacementKeepOriginalInPlace) &&
        visible.scrollView.zoomScale == MinimumZoomScale && visible.itemSize == provided.boundsSize &&
        visible.itemAlpha == old(visible.itemAlpha)
      ensures visible != null && !old(visible.isAnimating) && old(visible.FindVisibleDisplacedView(provided)) == null ==>
        visible.animation == DismissingFade && visible.itemAlpha == 0.0 && visible.itemSize == old(visible.itemSize) &&
        visible.scrollView.zoomScale == old(visible.scrollView.zoomScale) &&
        (provided != null ==> unchanged(provided))
      ensures visible == null || old(visible.isAnimating) ==>
        dismissingItem == old(dismissingItem) &&
        overlay.containerAlpha == old(overlay.containerAlpha) && overlay.colorAlpha == old(overlay.colorAlpha) &&
        (visible != null ==> unchanged(visible) && unchanged(visible.scrollView)) &&
        (provided != null ==> unchanged(provided))
    {
      chromeClosesPending := chromeClosesPending - 1;
      if visible != null {
        var accepted := visible.DismissItem(provided, isPortraitOnly);
        if accepted {
          overlay.Dismiss();
          dismissingItem := visible;
        }
      }
    }

    /**
     * The item's dismissal completed: `isAnimating` is set (again), the
     * overlay is detached, the viewer is dismissed and the host is told it
     * closed.
     */
    method DismissalDidComplete()
      requires dismissingItem != null && dismissingItem.Valid() && dismissingItem.animation.Dismissing()
      modifies this`dismissingItem, this`isAnimating, this`presented, this`notifications, overlay`attached,
        dismissingItem`isAnimating, dismissingItem`animation, dismissingItem`transientShown,
        dismissingItem`itemHidden, dismissingItem`image, dismissingItem.animation.Views()
      ensures dismissingItem == null && isAnimating && !presented && !overlay.attached
      ensures old(dismissingItem).Valid() && !old(dismissingItem).isAnimating
      ensures old(dismissingItem).animation == NoAnimation
      ensures old(dismissingItem).itemHidden == old(dismissingItem.itemHidden)
      ensures old(dismissingItem).image == old(dismissingItem.image)
      ensures old(dismissingItem.animation).DismissingDisplaced? ==> !old(dismissingItem.animation).view.isHidden
      ensures notifications == old(notifications) + if hasDelegate then [DidClose] else []
    {
      var finished := dismissingItem.CompleteAnimation();
      dismissingItem := null;
      isAnimating := true;
      overlay.attached := false;
      presented := false;
      if hasDelegate {
        notifications := notifications + [DidClose];
      }
    }

    /**
     * `rotate`, on a device orientation change: only for a portrait-only app,
     * and not for a flat device while animating; the view is rotated and
     * `RotationDidComplete` follows.
     */
    method Rotate(isPortraitOnly: bool, deviceFlat: bool) returns (rotates: bool)
      modifies this`isAnimating, this`rotationsPending
      ensures rotates == (isPortraitOnly && !(deviceFlat && old(isAnimating)))
      ensures rotates ==> isAnimating && rotationsPending == old(rotationsPending) + 1
      ensures !rotates ==> unchanged(this)
    {
      if !isPortraitOnly {
        return false;
      }
      if deviceFlat && isAnimating {
        return false;
      }
      rotates := true;
      isAnimating := true;
      rotationsPending := rotationsPending + 1;
    }

    /** The rotation's completion clears `isAnimating`, whatever else is in progress. */
    method RotationDidComplete()
      requires rotationsPending > 0
      modifies this`isAnimating, this`rotationsPending
      ensures !isAnimating && rotationsPending == old(rotationsPending) - 1
    {
      isAnimating := false;
      rotationsPending := rotationsPending - 1;
    }

    /**
     * `itemController(_:didSwipeToDismissWithRatio:)`: the chrome that is not
     * hidden takes `ChromeAlpha(ratio)`; the blur and colour layers take
     * `OverlayAlpha(ratio)`.
     */
    method DidSwipeToDismissWithRatio(ratio: real)
      modifies this`headerAlpha, this`footerAlpha, overlay`blurAlpha, overlay`colorAlpha
      ensures headerAlpha == if hasHeader && !headerHidden then ChromeAlpha(ratio) else old(headerAlpha)
      ensures footerAlpha == if hasFooter && !footerHidden then ChromeAlpha(ratio) else old(footerAlpha)
      ensures overlay.blurAlpha == OverlayAlpha(ratio) && overlay.colorAlpha == OverlayAlpha(ratio)
    {
      var alpha := 1.0 - ratio * 6.0;
      if !headerHidden && hasHeader {
        headerAlpha := alpha;
      }
      if !footerHidden && hasFooter {
        footerAlpha := alpha;
      }
      overlay.blurAlpha := 1.0 - ratio;
      overlay.colorAlpha := 1.0 - ratio;
    }

    /** `itemControllerDidFinishSwipeToDismiss`: the host is told, the overlay is detached and the viewer dismissed. */
    method DidFinishSwipeToDismiss()
      modifies this`notifications, this`presented, overlay`attached
      ensures notifications == old(notifications) + if hasDelegate then [DidSwipeToDismiss] else []
      ensures !presented && !overlay.attached
    {
      if hasDelegate {
        notifications := notifications + [DidSwipeToDismiss];
      }
      overlay.attached := false;
      presented := false;
    }

    /** `itemControllerDidSingleTap`: both hidden flags flip and the chrome fades to match. */
    method DidSingleTap()
      modifies this`headerHidden, this`footerHidden, this`headerAlpha, this`footerAlpha
      ensures headerHidden == !old(headerHidden) && footerHidden == !old(footerHidden)
      ensures headerAlpha == if hasHeader then ChromeTarget(!headerHidden) else old(headerAlpha)
      ensures footerAlpha == if hasFooter then ChromeTarget(!footerHidden) else old(footerAlpha)
    {
      headerHidden := !headerHidden;
      footerHidden := !footerHidden;
      if hasHeader {
        headerAlpha := if !headerHidden then 1.0 else 0.0;
      }
      if hasFooter {
        footerAlpha := if !footerHidden then 1.0 else 0.0;
      }
    }

    /** `itemControllerDidAppear`: the appearing item becomes current and the host is told its index. */
    method DidAppear(controller: ItemController)
      modifies this`currentIndex, this`notifications
      ensures currentIndex == controller.index
      ensures notifications == old(notifications) + if hasDelegate then [DidLandOnPage(controller.index)] else []
    {
      currentIndex := controller.index;
      if hasDelegate {
        notifications := notifications + [DidLandOnPage(currentIndex)];
      }
    }
  }

  /**
   * A viewer with header, footer and delegate and no displaced views: it
   * launches by fading its first item in and closes by fading it out, and the
   * host hears that it launched and then that it closed. The dismissal
   * leaves `isAnimating` set, so a later `close` is ignored.
   */
  method LaunchThenClose(option: ImageViewerOption, count: int, start: int)
    returns (events: seq<HostEvent>, closeAccepted: bool, stillPresented: bool, overlayAttached: bool,
             laterCloseAccepted: bool)
    ensures events == [DidLaunch, DidClose]
    ensures closeAccepted && !stillPresented && !overlayAttached
    ensures !laterCloseAccepted
  {
    var viewer := new ImageViewer(start, DataSource(count, false), false, option, true, true, true);
    viewer.ViewDidLoad();
    viewer.ViewDidAppear(null);
    viewer.LaunchDidComplete();
    closeAccepted := viewer.Close();
    viewer.ChromeCloseDidComplete(viewer.initialItem, null, false);
    viewer.DismissalDidComplete();
    events, stillPresented, overlayAttached := viewer.notifications, viewer.presented, viewer.overlay.attached;
    laterCloseAccepted := viewer.Close();
  }

  /** Two single taps hide and then show the chrome again, each time fading it to match. */
  method SingleTapTwice(option: ImageViewerOption, count: int)
    returns (hiddenAfterOne: bool, alphaAfterOne: real, hiddenAfterTwo: bool, alphaAfterTwo: real)
    ensures hiddenAfterOne && alphaAfterOne == 0.0
    ensures !hiddenAfterTwo && alphaAfterTwo == 1.0
  {
    var viewer := new ImageViewer(0, DataSource(count, false), false, option, true, true, false);
    viewer.DidSingleTap();
    hiddenAfterOne, alphaAfterOne := viewer.headerHidden, viewer.headerAlpha;
    viewer.DidSingleTap();
    hiddenAfterTwo, alphaAfterTwo := viewer.headerHidden, viewer.headerAlpha;
  }

  /**
   * A second `close` while the first is running is ignored, but a rotation
   * that starts and completes in between clears `isAnimating`, after which
   * another `close` is accepted.
   */
  method RotationReopensClose(option: ImageViewerOption, count: int)
    returns (firstClose: bool, secondClose: bool, thirdClose: bool)
    ensures firstClose && !secondClose && thirdClose
  {
    var viewer := new ImageViewer(0, DataSource(count, false), false, option, false, false, false);
    viewer.ViewDidAppear(null);
    viewer.LaunchDidComplete();
    firstClose := viewer.Close();
    secondClose := viewer.Close();
    var rotates := viewer.Rotate(true, false);
    viewer.RotationDidComplete();
    thirdClose := viewer.Close();
  }

  /**
   * A close reopened by a rotation reaches an item that is still fading out:
   * the item refuses the second dismissal, the first one stays the one whose
   * completion closes the viewer, and that completion reports a single close.
   */
  method ReopenedCloseLeavesDismissal(option: ImageViewerOption, count: int)
    returns (firstDismissal: bool, secondDismissal: bool, events: seq<HostEvent>)
    ensures firstDismissal && !secondDismissal
    ensures events == [DidLaunch, DidClose]
  {
    var viewer := new ImageViewer(0, DataSource(count, false), false, option, false, false, true);
    viewer.ViewDidAppear(null);
    viewer.LaunchDidComplete();
    var closed := viewer.Close();
    viewer.ChromeCloseDidComplete(viewer.initialItem, null, false);
    firstDismissal := viewer.dismissingItem == viewer.initialItem;
    var rotates := viewer.Rotate(true, false);
    viewer.RotationDidComplete();
    var reopened := viewer.Close();
    assert viewer.initialItem.isAnimating && viewer.dismissingItem == viewer.initialItem;
    var before := viewer.initialItem.animation;
    viewer.ChromeCloseDidComplete(viewer.initialItem, null, false);
    assert viewer.dismissingItem == viewer.initialItem;
    secondDismissal := viewer.initialItem.animation != before;
    viewer.DismissalDidComplete();
    events := viewer.notifications;
  }

  /**
   * Two closes accepted around a rotation leave two chrome completions. The
   * first dismisses the item; once that dismissal has finished, the second
   * finds the item idle, dismisses it again and the host hears of a second close.
   * This assumes the viewer is still alive when the second completion runs, and
   * that the second `dismiss` still runs its completion.
   */
  method ReopenedCloseClosesTwice(option: ImageViewerOption, count: int)
    returns (events: seq<HostEvent>)
    ensures events == [DidLaunch, DidClose, DidClose]
  {
    var viewer := new ImageViewer(0, DataSource(count, false), false, option, false, false, true);
    viewer.ViewDidAppear(null);
    viewer.LaunchDidComplete();
    var closed := viewer.Close();
    var rotates := viewer.Rotate(true, false);
    viewer.RotationDidComplete();
    var reopened := viewer.Close();
    viewer.ChromeCloseDidComplete(viewer.initialItem, null, false);
    viewer.DismissalDidComplete();
    viewer.ChromeCloseDidComplete(viewer.initialItem, null, false);
    viewer.DismissalDidComplete();
    events := viewer.notifications;
  }
}
