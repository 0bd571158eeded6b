# KKImageViewer core, modelled in Dafny

KKImageViewer is an iOS full-screen image viewer. A page view controller
(`ImageViewerController`) pages horizontally through item controllers
(`ItemBaseViewController`), one per image. The initial item is presented with a
"displacement" animation out of a thumbnail on the host's screen, or with a fade.
The user can zoom an item with a double tap. A swipe dismisses the viewer:
vertically from any item, horizontally from the first or last item. A blurred,
tinted overlay (`BlurView`) sits behind the items, and optional header and footer
views ("chrome") sit above them. Single taps toggle the chrome.

This project models the decision logic and state under that UIKit plumbing:

- `geometry.dfy` (`Geometry`) is the classification of a 2-D vector into a
  direction and orientation, the `inverted` swaps and `boundsCenter`.
- `options.dfy` (`ViewerOptions`) is the option record with its defaults, and its enums.
- `swipe_transition.dfy` (`SwipeTransition`) is a class holding a nullable scroll view.
  It writes the scroll view's content offset while a swipe is dragged, finished
  or cancelled. It also holds the spring-velocity and duration formulas of a finish.
- `blur_view.dfy` (`Overlay`) is the overlay's container, blur and colour alphas.
- `item_decisions.dfy` (`ItemDecisions`) holds the item controller's pure decisions:
  - visibility of the displaced view;
  - the axis latch;
  - edge clamping of the drag;
  - the release table;
  - the "may a pan begin" predicate;
  - the progress ratio;
  - the double-tap decision.

  `SwipeStep` is the whole effect of one pan callback. The lemmas about runs of
  pan samples are proved by induction.
- `item_controller.dfy` (`ItemBase`) is the item controller as a class. It models:
  - the `isAnimating` guard of present/dismiss;
  - hiding and unhiding of the item view and the displaced view;
  - the swipe-to-dismiss handler, proved equal to `SwipeStep`;
  - image arrival, layout and double tap.
- `paging.dfy` (`Paging`) covers the before/after index rules and the creation
  and wiring of item controllers.
- `image_viewer.dfy` (`Viewer`) is the viewer as a class. It models:
  - the one-shot launch;
  - the close sequence;
  - the rotation guard;
  - the chrome toggles;
  - the relay of swipe progress to alphas;
  - page tracking.

  Host notifications are kept as an event log.

Lengths, offsets, velocities and alphas (`CGFloat`) are `real`. Each UIKit
animation writes its end state when it starts. Its completion is a separate
method, called once per accepted animation: `CompleteAnimation`,
`CompleteSwipeCommit`, `CompleteSwipeCancel`, `LaunchDidComplete`,
`ChromeCloseDidComplete`, `DismissalDidComplete` and `RotationDidComplete`.
Counters and flags such as `pendingCommits`, `launchPending` and `rotationsPending`
record which completions are outstanding.

UIKit queries become parameters:

- the displaced view that the host's displaced-view source returns;
- the visible page;
- whether the app is portrait-only;
- whether the device lies flat;
- the aspect-fit size and aspect-fill scale.

Behaviour is kept as the code has it, including these quirks:

- `.up` means a positive y.
- `SwipeToDismissMode.always` refuses vertical pans, because only `.vertical` admits them.
- A horizontal pan may begin only when the horizontal axis is already latched.
- The wrap-around neighbour index is computed but never returned.
- A second `close` is ignored.
- The dismissal completion sets `isAnimating` again. Nothing on the close path
  clears it; only a rotation completion does (see `Viewer.RotationReopensClose`).
- A rotation during a close lets a second close be accepted, and both chrome
  completions are scheduled. Suppose the host still holds the viewer when the
  second one runs, and UIKit runs the completion of a second `dismiss`. Then,
  if the first dismissal has finished by then, the idle item is dismissed again
  and the host hears of a second close (see `Viewer.ReopenedCloseClosesTwice`).

The model also keeps these behaviours of the code as written:

- Release signs. A vertical release with `vy < -threshold` commits to target
  `+(H/2 + h/2)`, and one with `vy > threshold` commits to `-(H/2 + h/2)`.
  A horizontal release at index 0 with `vx > threshold` commits to `-(W/2 + w/2)`,
  and one at the last index with `vx < -threshold` commits to `+(W/2 + w/2)`.
- The displacement spring damping is the configured bounce itself, not its inverse.
- `gestureRecognizerShouldBegin` checks no mode for horizontal pans.

## Model

| member | source | states |
|---|---|---|
| Geometry.DirectionNoneIffZero | KKImageViewer/Source/Extensions/CGPoint.swift:28-43 | `DirectionOf`, the `direction` getter: the direction is `.none` exactly for the zero vector, so the final `else` is unreachable |
| Geometry.DirectionHorizontalDominant | KKImageViewer/Source/Extensions/CGPoint.swift:32-35 | when \|x\| > \|y\| the direction is right for x > 0 and left otherwise |
| Geometry.DirectionVerticalDominant | KKImageViewer/Source/Extensions/CGPoint.swift:36-39 | for a non-zero vector with \|x\| <= \|y\| the direction is up for y > 0 and down otherwise (ties go vertical) |
| Geometry.OrientationCharacterised | KKImageViewer/Source/Extensions/CGPoint.swift:45-54 | `OrientationOf`, the `orientation` getter: orientation is none iff zero, horizontal iff \|x\| > \|y\|, vertical iff non-zero with \|x\| <= \|y\| |
| Geometry.InvertedPointInvolution | KKImageViewer/Source/Extensions/CGPoint.swift:23-26 | `inverted()` swaps x and y, is its own inverse, and fixes exactly the points with x == y |
| Geometry.InvertedPointOrientation | KKImageViewer/Source/Extensions/CGPoint.swift:23-54 | inverting a non-zero vector flips its orientation, except on the diagonals where both are vertical |
| Geometry.InvertedSizeInvolution | KKImageViewer/Source/Extensions/CGSize.swift:14-17 | the inverted size has width = height and height = width, inverting twice is the identity, a square is unchanged |
| Geometry.BoundsCenterProperties | KKImageViewer/Source/Extensions/UIView.swift:13-15 | the centre is at half width and half height, independent of the bounds origin, and (0, 0) for zero-size bounds |
| ViewerOptions.ModeRawValueRoundTrip | KKImageViewer/Source/Option/ImageViewerOption.swift:150-155 | the mode's raw values are exactly 0..3 and raw value ↔ mode is a bijection |
| ViewerOptions.DefaultOption | KKImageViewer/Source/Option/ImageViewerOption.swift:12-143 | the defaults are threshold 500, mode `.vertical`, style `.normal`, inset margin 50, keep-original false, max zoom 8, double-tap zoom 7, durations 0.15/0.25/0.3, rotation `.always`, long-press activity on, overlay opacities 1, chrome not hidden on launch |
| SwipeTransition.ScrollView.constructor | KKImageViewer/Source/ItemController/ItemBaseViewController.swift:144-151 | a new scroll view has offset zero, zoom 1 and the given minimum zoom |
| SwipeTransition.SpringVelocity | KKImageViewer/Source/Transition/SwipeToDismissTransition.swift:36 | for target ≠ touch, the spring velocity is non-negative and equals \|escape\| / \|target − touch\| |
| SwipeTransition.FinishDuration | KKImageViewer/Source/Transition/SwipeToDismissTransition.swift:37-41 | for escape ≠ 0, the duration is non-negative and equals 0.65 · \|target − touch\| / \|escape\| |
| SwipeTransition.FinishTiming | KKImageViewer/Source/Transition/SwipeToDismissTransition.swift:36-41 | the timing is defined exactly when both divisors are non-zero, and both of its values are non-negative |
| SwipeTransition.FasterFlickFinishesSooner | KKImageViewer/Source/Transition/SwipeToDismissTransition.swift:37-41 | a faster flick never gets a longer finish animation |
| SwipeTransition.SwipeToDismissTransition.constructor | KKImageViewer/Source/Transition/SwipeToDismissTransition.swift:18-22 | the transition holds the given (possibly nil) scroll view |
| SwipeTransition.SwipeToDismissTransition.DidChangeInteractiveTransition | KKImageViewer/Source/Transition/SwipeToDismissTransition.swift:24-27 | the offset becomes exactly (h, v) when the scroll view is alive, and nothing else changes |
| SwipeTransition.SwipeToDismissTransition.DidFinishInteractiveTransition | KKImageViewer/Source/Transition/SwipeToDismissTransition.swift:30-63 | the offset becomes (target, 0) horizontally or (0, target) vertically, and the timing is `FinishTiming` |
| SwipeTransition.SwipeToDismissTransition.CancelInteractiveTransition | KKImageViewer/Source/Transition/SwipeToDismissTransition.swift:65-78 | the offset returns to zero over 0.2 s |
| Overlay.BlurView.constructor | KKImageViewer/Source/ImageViewer/BlurView.swift:18-31 | container and colour alphas start at 0 |
| Overlay.BlurView.Present | KKImageViewer/Source/ImageViewer/BlurView.swift:45-74 | container alpha becomes `overlayBlurOpacity`, colour alpha `overlayColorOpacity`, and nothing else changes |
| Overlay.BlurView.Dismiss | KKImageViewer/Source/ImageViewer/BlurView.swift:76-98 | both alphas return to 0, so the blur shows nothing, and nothing else changes |
| Overlay.PresentThenDismiss | KKImageViewer/Source/ImageViewer/BlurView.swift:18-98 | a fresh overlay shows the configured opacities after `present` and is back to its initial state after `dismiss` |
| ItemDecisions.SpringDamping | KKImageViewer/Source/ItemController/ItemBaseViewController.swift:55-60 | the damping is 1 for `.normal` and the configured bounce for `.springBounce` |
| ItemDecisions.VisibleEnoughMonotone | KKImageViewer/Source/ItemController/ItemBaseViewController.swift:309-319 | a view visible enough for one margin is visible enough for any smaller margin, and overlaps the view's frame |
| ItemDecisions.VisibleEnoughWithoutMargin | KKImageViewer/Source/ItemController/ItemBaseViewController.swift:313-316 | with margin 0 the test is exactly overlap with the view's frame |
| ItemDecisions.NarrowViewAdmitsNothing | KKImageViewer/Source/ItemController/ItemBaseViewController.swift:314-316 | when the margin swallows the view's frame, no displaced view is visible enough |
| ItemDecisions.LatchAgreesWithOrientation | KKImageViewer/Source/ItemController/ItemBaseViewController.swift:569-571 | `LatchAxis`: the latched axis is horizontal iff the velocity's orientation is horizontal, and a zero velocity latches vertical |
| ItemDecisions.DragOffsetProperties | KKImageViewer/Source/ItemController/ItemBaseViewController.swift:210-234 | `DragOffset`, the `.changed` offset: the drag moves only the latched axis by −translation, clamped to ≤ 0 at index 0 and ≥ 0 at the last index when there is more than one item |
| ItemDecisions.ReleaseNeedsSpeed | KKImageViewer/Source/ItemController/ItemBaseViewController.swift:246-297 | a release commits only when the speed on its axis exceeds the threshold strictly |
| ItemDecisions.ReleaseCommitCases | KKImageViewer/Source/ItemController/ItemBaseViewController.swift:246-297 | `ReleaseDecision`, the `.ended` switch: the exact commit conditions: vertical by \|vy\| > t, horizontal only at index 0 moving right or at the last index moving left |
| ItemDecisions.CommitLeavesWithFlick | KKImageViewer/Source/ItemController/ItemBaseViewController.swift:246-297 | a committed target lies at distance viewport/2 + item/2 with the sign opposite to the velocity |
| ItemDecisions.PanMayBeginCharacterised | KKImageViewer/Source/ItemController/ItemBaseViewController.swift:474-490 | `PanMayBegin`, `gestureRecognizerShouldBegin`: a zero velocity is refused; a vertical pan begins iff mode is `.vertical`; a horizontal one iff at an edge moving outward with horizontal already latched |
| ItemDecisions.FreshPanIsVertical | KKImageViewer/Source/ItemController/ItemBaseViewController.swift:474-490 | with no axis latched, a pan begins only in `.vertical` mode and then latches vertical |
| ItemDecisions.SwipeRatio | KKImageViewer/Source/ItemController/ItemBaseViewController.swift:498-508 | the ratio is non-negative and equals \|offset on the axis\| / (viewport/2 + item/2) |
| ItemDecisions.RatioAtEndStates | KKImageViewer/Source/ItemController/ItemBaseViewController.swift:494-511 | the ratio is 0 at rest and exactly 1 at a committed release's final offset |
| ItemDecisions.DoubleTapToggles | KKImageViewer/Source/ItemController/ItemBaseViewController.swift:516-550 | `DoubleTapDecision`, `scrollViewDidDoubleTap`: inside the item, a double tap at zoom 1 zooms to the aspect-fill scale, and a double tap there returns to 1 |
| ItemDecisions.ZoomedInIgnoresPan | KKImageViewer/Source/ItemController/ItemBaseViewController.swift:564 | while zoomed in, no sequence of pan callbacks changes the swipe state |
| ItemDecisions.LatchedAxisIsStable | KKImageViewer/Source/ItemController/ItemBaseViewController.swift:569-573 | `SwipeStep`, one pan callback: once latched, the axis stays the same through any sequence of pan callbacks |
| ItemDecisions.FirstSampleLatches | KKImageViewer/Source/ItemController/ItemBaseViewController.swift:569-571 | the axis of a whole gesture is the one latched from its first sample |
| ItemDecisions.OneCompletionPerRelease | KKImageViewer/Source/ItemController/ItemBaseViewController.swift:236-297 | with a transition, each `.ended` schedules exactly one commit or cancel completion |
| ItemDecisions.EdgeSwipeStaysOutward | KKImageViewer/Source/ItemController/ItemBaseViewController.swift:210-234 | a horizontal swipe at an edge item never moves the content inward, through any sequence of callbacks |
| ItemDecisions.FlickUpCommits | KKImageViewer/Source/ItemController/ItemBaseViewController.swift:246-258 | an upward flick at 600 with the default threshold of 500 commits to +(H/2 + h/2) |
| ItemBase.DisplacedView.constructor | KKImageViewer/Source/DisplaceableView.swift:12-22 | a displaced view holds its image, bounds size, screen frame and hidden flag |
| ItemBase.ItemController.constructor | KKImageViewer/Source/ItemController/ItemBaseViewController.swift:41-67 | index, count and option are stored, damping is `SpringDamping(style)`, the initial controller starts hidden, and nothing is animating or latched |
| ItemBase.ItemController.DidFetchImage | KKImageViewer/Source/ItemController/ItemBaseViewController.swift:323-339 | a nil image changes nothing, otherwise the image is shown and the indicator stops |
| ItemBase.ItemController.DidLayoutSubviews | KKImageViewer/Source/ItemController/ItemBaseViewController.swift:105-123 | the view takes the frame, and the item takes the aspect-fit size only when it has an image of non-zero size |
| ItemBase.ItemController.FindVisibleDisplacedView | KKImageViewer/Source/ItemController/ItemBaseViewController.swift:309-319 | the provided view is returned iff the source is attached and the view is visible enough, otherwise nil |
| ItemBase.ItemController.PresentItem | KKImageViewer/Source/ItemController/ItemBaseViewController.swift:342-411 | refused while animating; otherwise displacement hides the original unless kept in place, or fade unhides the item view at alpha 1 |
| ItemBase.ItemController.DismissItem | KKImageViewer/Source/ItemController/ItemBaseViewController.swift:413-459 | refused while animating; otherwise a visible displaced view gets zoom reset, its size and hidden (always when portrait-only), else the item fades to 0 |
| ItemBase.ItemController.CompleteAnimation | KKImageViewer/Source/ItemController/ItemBaseViewController.swift:381-390 | the completion clears `isAnimating`; a presentation leaves the item visible; displaced completions unhide the displaced view and show its image |
| ItemBase.ItemController.DidDoubleTap | KKImageViewer/Source/ItemController/ItemBaseViewController.swift:516-550 | the zoom becomes what `DoubleTapDecision` picks: unchanged, the aspect-fill scale, or 1 |
| ItemBase.ItemController.HandleSwipeToDismissInProgress | KKImageViewer/Source/ItemController/ItemBaseViewController.swift:210-234 | with a transition, the offset becomes `DragOffset`, otherwise nothing moves |
| ItemBase.ItemController.HandleSwipeToDismissEnded | KKImageViewer/Source/ItemController/ItemBaseViewController.swift:236-297 | with a transition, a commit moves to the target and schedules a commit completion, and a cancel returns to zero and schedules a cancel completion |
| ItemBase.ItemController.DidSwipeToDismiss | KKImageViewer/Source/ItemController/ItemBaseViewController.swift:563-591 | the swipe state after one pan callback is `SwipeStep` of the state before, and the zoom is untouched |
| ItemBase.ItemController.CompleteSwipeCommit | KKImageViewer/Source/ItemController/ItemBaseViewController.swift:239-244 | the axis is released and the delegate, if any, is told the swipe finished |
| ItemBase.ItemController.CompleteSwipeCancel | KKImageViewer/Source/ItemController/ItemBaseViewController.swift:294-296 | the axis is released |
| ItemBase.ItemController.ObservedRatio | KKImageViewer/Source/ItemController/ItemBaseViewController.swift:494-511 | a ratio is reported iff an axis is latched, and it is \|offset\| / (viewport/2 + item/2) on that axis |
| Paging.BeforeIsBounded | KKImageViewer/Source/ImageViewer/ImageViewerPagingDataSource.swift:36-48 | `BeforeIndex`, `viewControllerBefore`: the page before is index − 1 when index > 0 and nothing at index 0, although the wrap value n − 1 is computed |
| Paging.AfterIsBounded | KKImageViewer/Source/ImageViewer/ImageViewerPagingDataSource.swift:57-69 | `AfterIndex`, `viewControllerAfter`: the page after is index + 1 below the last index and nothing at the last, although the wrap value 0 is computed |
| Paging.NeighboursInRange | KKImageViewer/Source/ImageViewer/ImageViewerPagingDataSource.swift:36-69 | from an index in [0, n), every returned index is in [0, n) |
| Paging.SingleItemHasNoNeighbours | KKImageViewer/Source/ImageViewer/ImageViewerPagingDataSource.swift:44-48 | with one item there is no page before or after |
| Paging.BeforeAfterInverse | KKImageViewer/Source/ImageViewer/ImageViewerPagingDataSource.swift:36-69 | j is the page after i iff i is the page before j |
| Paging.FourItems | KKImageViewer/Source/ImageViewer/ImageViewerPagingDataSource.swift:36-69 | with four items, paging stops at both ends |
| Paging.ForwardPagesReach | KKImageViewer/Source/ImageViewer/ImageViewerPagingDataSource.swift:57-69 | k forward page turns from i reach i + k exactly when i + k < n, and fail otherwise |
| Paging.PagingDataSource.constructor | KKImageViewer/Source/ImageViewer/ImageViewerPagingDataSource.swift:23-28 | the data sources and option are stored, and there is no item delegate yet |
| Paging.PagingDataSource.NumberOfItems | KKImageViewer/Source/ImageViewer/ImageViewerPagingDataSource.swift:19-21 | the count is the data source's count, or 0 once it is gone |
| Paging.PagingDataSource.DataSourceReleased | KKImageViewer/Source/ImageViewer/ImageViewerPagingDataSource.swift:15-21 | once the weak data source is gone, the count is 0 |
| Paging.PagingDataSource.CreateItemController | KKImageViewer/Source/ImageViewer/ImageViewerPagingDataSource.swift:72-89 | a plain controller iff the data source is gone; otherwise a fresh, valid controller for the index, count and initial flag, wired to the delegate, the displaced-view source and the progress view |
| Paging.PagingDataSource.ViewControllerBefore | KKImageViewer/Source/ImageViewer/ImageViewerPagingDataSource.swift:30-49 | a page is returned iff the current page is an item controller with index > 0, and it is a fresh controller for index − 1 |
| Paging.PagingDataSource.ViewControllerAfter | KKImageViewer/Source/ImageViewer/ImageViewerPagingDataSource.swift:51-70 | a page is returned iff the current page is an item controller below the last index, and it is a fresh controller for index + 1 |
| Viewer.RelayFades | KKImageViewer/Source/ImageViewer/ImageViewerController.swift:376-390 | `ChromeAlpha` and `OverlayAlpha`, the swipe relay's fades: at rest chrome and overlay are opaque; any movement makes the chrome more transparent than the overlay; the chrome is gone at ratio 1/6 and the overlay at 1 |
| Viewer.ImageViewer.constructor | KKImageViewer/Source/ImageViewer/ImageViewerController.swift:38-89 | the paging data source gets the viewer as item delegate and creates the initial controller, hidden, for the start index, and the viewer starts idle |
| Viewer.ImageViewer.ViewDidLoad | KKImageViewer/Source/ImageViewer/ImageViewerController.swift:101-109 | the header and footer that exist start at alpha 0 |
| Viewer.ImageViewer.ViewDidAppear | KKImageViewer/Source/ImageViewer/ImageViewerController.swift:123-132 | only the first call attaches the overlay and presents the initial item with the overlay fading in; that item presents from the provided view (hiding it unless the original is kept in place) when the source is attached and the view has an image, and otherwise fades in fully opaque and unhidden; later calls change nothing |
| Viewer.ImageViewer.PresentFirst | KKImageViewer/Source/ImageViewer/ImageViewerController.swift:207-231 | sets `isAnimating`; the overlay fades in and a launch completion is scheduled only if the item accepts; the accepted presentation is displaced from the provided view (hidden unless the original is kept in place) or a fade to an unhidden, opaque item, as the item decides |
| Viewer.ImageViewer.LaunchDidComplete | KKImageViewer/Source/ImageViewer/ImageViewerController.swift:216-229 | the item's presentation completes (its transient view gone, the item shown, a displaced source view visible again and its image taken over, a fade keeping the image), non-hidden chrome fades in, `isAnimating` clears, and the host is told once that the viewer launched |
| Viewer.ImageViewer.Close | KKImageViewer/Source/ImageViewer/ImageViewerController.swift:263-273 | refused while animating; otherwise sets `isAnimating`, fades the chrome to 0 and schedules one more chrome completion (a count, so a close reopened by a rotation leaves two) |
| Viewer.ImageViewer.ChromeCloseDidComplete | KKImageViewer/Source/ImageViewer/ImageViewerController.swift:274-283 | one pending chrome completion runs: the visible item controller dismisses its item with the overlay fading out, if it accepts: towards a visible displaced view (zoom reset, item resized to the view, view hidden when portrait-only or not kept in place) or by fading the item to transparent; a busy or missing item refuses, and then nothing else changes and an earlier dismissal stays pending |
| Viewer.ImageViewer.DismissalDidComplete | KKImageViewer/Source/ImageViewer/ImageViewerController.swift:283-302 | the item's dismissal completes (no animation left, a displaced source view visible again, the item's hidden flag and image kept), `isAnimating` is set again, the overlay is detached, the viewer is dismissed and the host is told it closed |
| Viewer.ImageViewer.Rotate | KKImageViewer/Source/ImageViewer/ImageViewerController.swift:347-356 | rotates iff portrait-only and not (flat while animating), and a rotation sets `isAnimating` |
| Viewer.ImageViewer.RotationDidComplete | KKImageViewer/Source/ImageViewer/ImageViewerController.swift:368-370 | the rotation completion clears `isAnimating` |
| Viewer.ImageViewer.DidSwipeToDismissWithRatio | KKImageViewer/Source/ImageViewer/ImageViewerController.swift:376-390 | non-hidden chrome takes 1 − 6·ratio, and the blur and colour layers take 1 − ratio |
| Viewer.ImageViewer.DidFinishSwipeToDismiss | KKImageViewer/Source/ImageViewer/ImageViewerController.swift:392-396 | the host is told, the overlay is detached and the viewer is dismissed |
| Viewer.ImageViewer.DidSingleTap | KKImageViewer/Source/ImageViewer/ImageViewerController.swift:398-404 | both hidden flags flip, and the chrome fades to 1 if now visible, 0 if hidden |
| Viewer.ImageViewer.DidAppear | KKImageViewer/Source/ImageViewer/ImageViewerController.swift:425-430 | the current index becomes the controller's index and that same index is reported |
| Viewer.LaunchThenClose | KKImageViewer/Source/ImageViewer/ImageViewerController.swift:207-302 | a launch followed by a close reports exactly [launched, closed] and leaves the viewer dismissed; a later close is ignored |
| Viewer.RotationReopensClose | KKImageViewer/Source/ImageViewer/ImageViewerController.swift:263-372 | a second close during a close is ignored, but after a rotation completes in between another close is accepted |
| Viewer.ReopenedCloseLeavesDismissal | KKImageViewer/Source/ImageViewer/ImageViewerController.swift:263-302 | a close reopened by a rotation reaches an item still fading out, which refuses; the first dismissal's completion then reports exactly [launched, closed] |
| Viewer.ReopenedCloseClosesTwice | KKImageViewer/Source/ImageViewer/ImageViewerController.swift:263-372 | with a rotation between two closes, both chrome completions run; after the first dismissal has finished the second dismisses the idle item again, and the host is told [launched, closed, closed] |
| Viewer.SingleTapTwice | KKImageViewer/Source/ImageViewer/ImageViewerController.swift:398-404 | two single taps hide and then restore the chrome |

## Left out

- UIKit animation timing, curves and spring physics. Only each animation's end state and one completion step are modelled.
- The finish animation's spring damping of 1.0 and the option durations and delays are not modelled as state.
- View hierarchy, Auto Layout constraints (`updateViewConstraints`), overlay frames and `configureOverlayView` geometry are reduced to an `attached` flag. The viewer's `viewDidLayoutSubviews` rotation transform and the item's indicator and progress-view centring are also left out.
- `dismiss(animated:)` and modal presentation styles are reduced to a `presented` flag.
- Viewer.ImageViewer.constructor: the host's `present` of the viewer is folded into the constructor, so `presented` is true from construction. In the source the host presents the viewer after `init`.
- Viewer.ReopenedCloseClosesTwice: this scenario rests on two assumptions. First, the viewer is still alive when the second chrome completion runs; that completion returns early through its weak `self` guard (KKImageViewer/Source/ImageViewer/ImageViewerController.swift:274-275) once the host has let the viewer go. Second, UIKit runs the completion of `dismiss(animated:completion:)` on a controller it no longer presents (KKImageViewer/Source/ImageViewer/ImageViewerController.swift:299-302). Weak references and the `presented` flag do not capture either condition.
- The window level set in the viewer's initializer and reset after dismissal is not modelled.
- `aspectFitSize`, `aspectFillZoomScale`, `zoomRect`, `contentCenter`, `rotationAdjustedBounds`, `deviceRotationTransform` and `windowRotationTransform` are not part of this model. Their results come in as parameters: `aspectFitSize` in `DidLayoutSubviews` and `aspectFillScale` in `DidDoubleTap`.
- ItemBase.ItemController.DidDoubleTap: the zoom reached by `zoom(to:)` is taken to be the aspect-fill scale. Clamping to `maximumZoomScale` is not modelled.
- `displacementTargetSize`, the transient image view's transforms and its frame during displacement are not modelled. Only whether the transient copy is shown is.
- A displaced view's `frameInCoordinatesOfScreen` is taken as given (`screenFrame`). The source computes it by converting the view's `bounds` from a fresh, detached `UIView()` (KKImageViewer/Source/DisplaceableView.swift:36-38), so its value ignores where the view actually is on screen. `VisibleEnough` is therefore fed a frame the source would not compute.
- `UIApplication.isPortraitOnly` and the device's flat orientation are parameters. `UIApplication.swift` is not part of this model.
- The orientation-change notification, KVO registration and `deinit` are left out. `ObservedRatio` is what the KVO callback reports.
- The async image fetch is the explicit `DidFetchImage` step. Accessibility fields are left out.
- Long press and the activity sheet (`itemControllerDidLongPress`, `scrollViewDidLongPress`) are host UI, not state.
- `itemControllerWillAppear` and `itemControllerWillDisappear` are empty in the viewer.
- `setProgress` only forwards to the host's progress view.
- `scrollViewDidZoom` and `viewForZooming` only centre or return the item view.
- The completion parameter of `close(completion:)` is never invoked by the code, so it does not appear in the model.
- The options `hideHeaderViewOnLaunch`, `hideFooterViewOnLaunch` and the single-tap toggles are never read by the core. They appear only as option defaults.
- Weak references are modelled as fixed or nullable references: the viewer's `initialItemController`, the transition's scroll view and the item's delegate. Deallocation is modelled only for the paging data source's item source (`DataSourceReleased`).
- The overlay is created in the viewer's initializer rather than lazily on first use.
- Viewer.ImageViewer.ChromeCloseDidComplete: the model holds one pending dismissal completion (`dismissingItem`). In the source every accepted `dismissItem` schedules its own completion. The model loses an earlier one only when a different, idle item controller accepts a second dismissal before the first finishes. A busy item refuses, and then the pending one is kept.
- Rect intersection is strict overlap on both axes. `CGRect.insetBy` with a margin larger than half a side is the null rectangle, which intersects nothing.
- The item frame height used by the double-tap test is the item's bounds height times the zoom scale.
- In a fade presentation, the source runs the viewer's completion before clearing the item's `isAnimating`. The model completes the item first. Neither step reads what the other writes.
- Floating point: `CGFloat` is `real`, with no rounding, NaN or infinity. Divisions carry non-zero preconditions.
- KKImageViewer/Source/BlurView.swift is a stale duplicate of the overlay and is not part of this model.
- The protocol and stub files (ItemController.swift, the delegate protocols, both data-source protocols, ItemView.swift, ItemProgressView.swift, ImageViewerItem.swift) only shape the interfaces. Each data-source protocol is reduced to what the core reads: `DataSource(itemCount, providesProgressView)` and a displaced view passed in.
- The demo app is not part of this model.
