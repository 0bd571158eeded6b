/**
 * The viewer's configuration: an immutable record of durations, opacities,
 * thresholds and modes, with the defaults the library ships. Colours, blur
 * and indicator styles and the timing curve are UIKit values and are not
 * part of the record.
 */
module ViewerOptions {

  import opened Optional

  /** How the displacement (thumbnail-to-full-screen) animation ends. */
  datatype DisplacementStyle = Normal | SpringBounce(bounce: real)

  /** Which swipe-to-dismiss directions are offered; an `Int`-backed enum. */
  datatype SwipeToDismissMode = Never | HorizontalOnly | VerticalOnly | Always

  /** Rotation support relative to the hosting application. */
  datatype RotationMode = ApplicationBased | AlwaysRotate

  /** The raw value of a swipe-to-dismiss mode, in declaration order. */
  function ModeRawValue(m: SwipeToDismissMode): int {
    match m
    case Never => 0
    case HorizontalOnly => 1
    case VerticalOnly => 2
    case Always => 3
  }

  /** `SwipeToDismissMode(rawValue:)`: nil outside the four declared values. */
  function ModeFromRawValue(raw: int): Option<SwipeToDismissMode> {
    if raw == 0 then Some(Never)
    else if raw == 1 then Some(HorizontalOnly)
    else if raw == 2 then Some(VerticalOnly)
    else if raw == 3 then Some(Always)
    else None
  }

  /** The raw values are exactly 0..3, one per mode, and converting back and forth is the identity. */
  lemma ModeRawValueRoundTrip(m: SwipeToDismissMode, raw: int)
    ensures 0 <= ModeRawValue(m) <= 3
    ensures ModeFromRawValue(ModeRawValue(m)) == Some(m)
    ensures ModeFromRawValue(raw).Some? <==> 0 <= raw <= 3
    ensures ModeFromRawValue(raw).Some? ==> ModeRawValue(ModeFromRawValue(raw).value) == raw
  {
  }

  datatype ImageViewerOption = ImageViewerOption(
    imageDividerWidth: real,
    statusBarHidden: bool,
    hideHeaderViewOnLaunch: bool,
    hideFooterViewOnLaunch: bool,
    toggleHeaderViewBySingleTap: bool,
    toggleFooterViewBySingleTap: bool,
    activityViewByLongPress: bool,
    maximumZoomScale: real,
    doubleTapZoomScale: real,
    doubleTapToZoomDuration: real,
    blurPresentDuration: real,
    blurPresentDelay: real,
    colorPresentDuration: real,
    colorPresentDelay: real,
    blurDismissDuration: real,
    blurDismissDelay: real,
    colorDismissDuration: real,
    colorDismissDelay: real,
    itemFadeDuration: real,
    decorationViewsCloseDuration: real,
    headerViewFadeDuration: real,
    footerViewFadeDuration: real,
    rotationDuration: real,
    displacementDuration: real,
    reverseDisplacementDuration: real,
    displacementKeepOriginalInPlace: bool,
    displacementTransitionStyle: DisplacementStyle,
    displacementInsetMargin: real,
    overlayBlurOpacity: real,
    overlayColorOpacity: real,
    swipeToDismissThresholdVelocity: real,
    swipeToDismissMode: SwipeToDismissMode,
    rotationMode: RotationMode,
    continuePlayVideoOnEnd: bool,
    videoAutoPlay: bool)

  /** `ImageViewerOption()`: every field at its declared default. */
  function DefaultOption(): (o: ImageViewerOption)
    ensures o.swipeToDismissThresholdVelocity == 500.0
    ensures o.swipeToDismissMode == VerticalOnly
    ensures o.displacementTransitionStyle == Normal
    ensures o.displacementInsetMargin == 50.0 && !o.displacementKeepOriginalInPlace
    ensures o.maximumZoomScale == 8.0 && o.doubleTapZoomScale == 7.0
    ensures o.displacementDuration == 0.15 && o.reverseDisplacementDuration == 0.25
    ensures o.itemFadeDuration == 0.3
    ensures o.rotationMode == AlwaysRotate && o.activityViewByLongPress
    ensures o.overlayBlurOpacity == 1.0 && o.overlayColorOpacity == 1.0
    ensures !o.hideHeaderViewOnLaunch && !o.hideFooterViewOnLaunch
  {
    ImageViewerOption(
      imageDividerWidth := 19.0,
      statusBarHidden := true,
      hideHeaderViewOnLaunch := false,
      hideFooterViewOnLaunch := false,
      toggleHeaderViewBySingleTap := true,
      toggleFooterViewBySingleTap := true,
      activityViewByLongPress := true,
      maximumZoomScale := 8.0,
      doubleTapZoomScale := 7.0,
      doubleTapToZoomDuration := 0.15,
      blurPresentDuration := 0.5,
      blurPresentDelay := 0.0,
      colorPresentDuration := 0.25,
      colorPresentDelay := 0.0,
      blurDismissDuration := 0.1,
      blurDismissDelay := 0.4,
      colorDismissDuration := 0.45,
      colorDismissDelay := 0.0,
      itemFadeDuration := 0.3,
      decorationViewsCloseDuration := 0.15,
      headerViewFadeDuration := 0.15,
      footerViewFadeDuration := 0.15,
      rotationDuration := 0.15,
      displacementDuration := 0.15,
      reverseDisplacementDuration := 0.25,
      displacementKeepOriginalInPlace := false,
      displacementTransitionStyle := Normal,
      displacementInsetMargin := 50.0,
      overlayBlurOpacity := 1.0,
      overlayColorOpacity := 1.0,
      swipeToDismissThresholdVelocity := 500.0,
      swipeToDismissMode := VerticalOnly,
      rotationMode := AlwaysRotate,
      continuePlayVideoOnEnd := false,
      videoAutoPlay := false)
  }
}
