/**
 * The overlay behind the items: a blur layer inside a container view and a
 * colour layer. The container and colour alphas start at 0, `Present` raises
 * them to the configured opacities and `Dismiss` lowers them to 0 again. The
 * blur view's own alpha (1 by default) is written only by the viewer's swipe
 * relay. `attached` records whether the overlay is in the view hierarchy.
 */
module Overlay {

  import opened ViewerOptions

  class BlurView {
    const option: ImageViewerOption
    var containerAlpha: real
    var blurAlpha: real
    var colorAlpha: real
    var attached: bool

    constructor (option: ImageViewerOption)
      ensures this.option == option
      ensures containerAlpha == 0.0 && colorAlpha == 0.0
      ensures blurAlpha == 1.0 && !attached
    {
      this.option := option;
      containerAlpha := 0.0;
      blurAlpha := 1.0;
      colorAlpha := 0.0;
      attached := false;
    }

    /** The opacity the blur layer shows: its own alpha within its container's. */
    function BlurOpacity(): real
      reads this
    {
      containerAlpha * blurAlpha
    }

    /** Fades the overlay in: container to `overlayBlurOpacity`, colour to `overlayColorOpacity`. */
    method Present()
      modifies this`containerAlpha, this`colorAlpha
      ensures containerAlpha == option.overlayBlurOpacity
      ensures colorAlpha == option.overlayColorOpacity
    {
      containerAlpha := option.overlayBlurOpacity;
      colorAlpha := option.overlayColorOpacity;
    }

    /** Fades the overlay out: both alphas back to their initial 0. */
    method Dismiss()
      modifies this`containerAlpha, this`colorAlpha
      ensures containerAlpha == 0.0 && colorAlpha == 0.0
      ensures BlurOpacity() == 0.0
    {
      containerAlpha := 0.0;
      colorAlpha := 0.0;
    }
  }

  /**
   * A fresh overlay shows nothing; presenting shows the configured opacities
   * (the blur at full opacity of its container) and dismissing returns both
   * layers to what a fresh overlay shows.
   */
  method PresentThenDismiss(option: ImageViewerOption)
    returns (presentedBlur: real, presentedColor: real, dismissedBlur: real, dismissedColor: real)
    ensures presentedBlur == option.overlayBlurOpacity && presentedColor == option.overlayColorOpacity
    ensures dismissedBlur == 0.0 && dismissedColor == 0.0
  {
    var overlay := new BlurView(option);
    assert overlay.BlurOpacity() == 0.0 && overlay.colorAlpha == 0.0;
    overlay.Present();
    presentedBlur, presentedColor := overlay.BlurOpacity(), overlay.colorAlpha;
    overlay.Dismiss();
    dismissedBlur, dismissedColor := overlay.BlurOpacity(), overlay.colorAlpha;
  }
}
