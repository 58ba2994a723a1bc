/**
 Values the camera view works with but does not compute itself: optional
 values, the corner points of a detected rectangle feature, and images.

 Core Image operations (filters, perspective correction, overlays, cropping)
 are known only by their declarations, so an `Image` is a term that records
 which operations were applied, in which order and with which arguments:
 every operation is a constructor, i.e. an uninterpreted function.
 */
module Imaging {

  datatype Option<+T> = None | Some(value: T)

  /** A point in image coordinates (CGPoint). */
  datatype Point = Point(x: real, y: real)

  /** A detected rectangle feature (CIRectangleFeature): its four corners. */
  datatype Quad = Quad(topLeft: Point, topRight: Point, bottomRight: Point, bottomLeft: Point)

  /** A Core Image value, as the sequence of operations that produced it. */
  datatype Image =
    | CameraFrame(frame: nat)                       // pixels of one video frame
    | StillPhoto(shot: nat)                         // a decoded full-resolution still
    | GradientImage(threshold: real)                // CIImage(gradientImage:)
    | Enhanced(source: Image)                       // filteredImageUsingEnhanceFilter
    | UltraContrast(source: Image, gradient: Image) // filteredImageUsingUltraContrast(withGradient:)
    | Oriented(source: Image, orientation: int)     // applyingOrientation(_:)
    | Corrected(source: Image, quad: Quad)          // correctPerspective(withFeatures:)
    | Highlighted(source: Image, quad: Quad, alpha: real) // drawHighlightOverlayWithcolor
    | CenterMarked(source: Image, quad: Quad)       // drawCenterOverlay at the centroid
    | FocusMarked(source: Image, quad: Quad)        // drawFocusOverlay at the centroid
    | Cropped(source: Image, margin: int)           // cropBorders(withMargin:)
    | Uprighted(source: Image)                      // orientationCorrecterUIImage

  /** Colour treatment of the live and captured image (IRLScannerViewType). */
  datatype ViewType = Normal | BlackAndWhite | UltraContrastView
}
