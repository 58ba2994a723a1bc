/**
 The camera view of the scanner (IRLCameraView): a per-frame state machine
 that turns "a rectangle was / was not found" into a bounded confidence
 score, overlay drawing, delegate notifications and, once confidence is
 full, an automatic still capture.

 The pure functions below (FrameStep, CaptureStep, StillStep, ...) are the
 specification of one transition each; the class CameraView holds the
 mutable fields and its methods are proved to perform exactly those
 transitions. Properties of whole runs are in module ScannerRuns.
 */
module Scanner {
  import opened Imaging
  import opened Orientation

  // ---------------------------------------------------------------------
  // Detector profiles and the confidence score

  /** IRLScannerDetectorType. */
  datatype DetectorType = Accuracy | Performance

  /** Top of the confidence scale; the live full-confidence threshold. */
  const MaxConfidence: int := 100

  /** Margin cropped from every captured still when border detection is on. */
  const CropMargin: int := 20

  /** How much one frame with a rectangle raises the confidence score. */
  function ConfidenceSpeed(d: DetectorType): (step: int)
    ensures 1 <= step <= 3
    ensures step == 1 <==> d == Accuracy
    ensures step == 3 <==> d == Performance
  {
    match d
    case Accuracy => 1
    case Performance => 3
  }

  /** The score after one more frame with a rectangle: add the step, clamp at the top. */
  function Raise(c: int, step: nat): (r: int)
    ensures c <= MaxConfidence ==> c <= r <= MaxConfidence
    ensures r == MaxConfidence || r == c + step
    ensures r == MaxConfidence <==> c + step >= MaxConfidence
  {
    var raised := c + step;
    if raised > MaxConfidence then MaxConfidence else raised
  }

  /** rectangleDetectionConfidenceHighEnough: gate for perspective correction of a still.
      A score that has fired full confidence always passes it; the first frame of the
      accuracy detector does not. */
  predicate ConfidenceHighEnough(c: int): (high: bool)
    ensures high ==> c >= 2
    ensures c >= MaxConfidence ==> high
    ensures !high ==> c <= ConfidenceSpeed(Accuracy)
  {
    c > 1
  }

  /** Alpha of the highlight overlay: the score as a fraction, capped at 0.8. */
  function OverlayAlpha(c: int): (alpha: real)
    ensures 0 <= c ==> 0.0 <= alpha
    ensures alpha <= 0.8
    ensures alpha == 0.8 <==> c >= 80
    ensures c <= 80 ==> alpha * 100.0 == c as real
  {
    var a := c as real / 100.0;
    if a > 0.8 then 0.8 else a
  }

  // ---------------------------------------------------------------------
  // Orientation mappings

  /** videoOrientationFromCurrentDeviceOrientation. */
  function VideoOrientationFor(bar: InterfaceOrientation): (v: VideoOrientation)
    ensures bar != Unknown ==> InterfaceFor(v) == bar
    ensures bar == Unknown ==> v == VideoPortrait
  {
    match bar
    case LandscapeLeft => VideoLandscapeLeft
    case LandscapeRight => VideoLandscapeRight
    case PortraitUpsideDown => VideoPortraitUpsideDown
    case Portrait => VideoPortrait
    case Unknown => VideoPortrait
  }

  /** The status-bar orientation a video orientation is named after. */
  function InterfaceFor(v: VideoOrientation): (bar: InterfaceOrientation)
    ensures bar != Unknown
  {
    match v
    case VideoPortrait => Portrait
    case VideoPortraitUpsideDown => PortraitUpsideDown
    case VideoLandscapeLeft => LandscapeLeft
    case VideoLandscapeRight => LandscapeRight
  }

  /** Every video orientation is chosen for the status-bar orientation of its name. */
  lemma VideoOrientationCovers(v: VideoOrientation)
    ensures VideoOrientationFor(InterfaceFor(v)) == v
  {
  }

  /** imageOrientationForCurrentDeviceOrientation: how a still must be rotated. */
  function ImageOrientationFor(bar: InterfaceOrientation): (o: ImageOrientation)
    ensures !IsMirrored(o)
    ensures o == Up <==> bar == Unknown || bar == LandscapeRight
  {
    match bar
    case Portrait => Right
    case LandscapeLeft => Down
    case LandscapeRight => Up
    case PortraitUpsideDown => Left
    case Unknown => Up
  }

  /** Distinct known status-bar orientations ask for distinct rotations. */
  lemma ImageOrientationDistinct(a: InterfaceOrientation, b: InterfaceOrientation)
    requires a != Unknown && b != Unknown && a != b
    ensures ImageOrientationFor(a) != ImageOrientationFor(b)
  {
  }

  /** imagePropertyOrientation(for:): the Exif value of the same-named property orientation. */
  function ImagePropertyOrientation(o: ImageOrientation): (raw: int)
    ensures 1 <= raw <= 8
    ensures IsMirrored(o) <==> raw in {2, 4, 5, 7}
  {
    var p := match o
      case Up => PropUp
      case UpMirrored => PropUpMirrored
      case Down => PropDown
      case DownMirrored => PropDownMirrored
      case LeftMirrored => PropLeftMirrored
      case Right => PropRight
      case RightMirrored => PropRightMirrored
      case Left => PropLeft;
    RawValue(p)
  }

  /** Distinct orientations get distinct Exif values. */
  lemma ImagePropertyOrientationInjective(a: ImageOrientation, b: ImageOrientation)
    requires a != b
    ensures ImagePropertyOrientation(a) != ImagePropertyOrientation(b)
  {
  }

  // ---------------------------------------------------------------------
  // Images

  /** The gradient the ultra-contrast filter uses. */
  const Gradient: Image := GradientImage(0.3)

  /** The colour treatment selected by cameraViewType: one filter layered on top of
      the image, or none exactly for the normal view. */
  function ApplyFilter(img: Image, t: ViewType): (r: Image)
    ensures r == img <==> t == Normal
    ensures r != img ==> (r.Enhanced? || (r.UltraContrast? && r.gradient == GradientImage(0.3))) && r.source == img
  {
    match t
    case BlackAndWhite => assert img < Enhanced(img); Enhanced(img)
    case UltraContrastView => assert img < UltraContrast(img, Gradient); UltraContrast(img, Gradient)
    case Normal => img
  }

  /** The filtered image tells which view type produced it. */
  lemma ApplyFilterDistinguishesViewTypes(img: Image, t: ViewType, u: ViewType)
    requires ApplyFilter(img, t) == ApplyFilter(img, u)
    ensures t == u
  {
  }

  // ---------------------------------------------------------------------
  // State, configuration, events

  /** Delegate notifications, in the order they are dispatched. */
  datatype Event =
    | LostConfidence
    | DetectedRectangle(confidence: int)
    | GainedFullConfidence(image: Option<Image>)

  /** What one video frame did. */
  datatype Decision =
    | Ignored                          // guard failed: stopped, backgrounded, capturing, no pixels
    | Unanalysed                       // border detection off: filtered frame shown as is
    | Lost                             // no rectangle cached
    | Tracking(confidence: int)        // rectangle cached, score raised
    | FullConfidence(confidence: int)  // ... and full confidence fired

  /** The public configuration properties, and the OS-version test. */
  datatype Settings = Settings(
    detector: DetectorType,
    borderDetection: bool,
    drawCenter: bool,
    showAutoFocus: bool,
    viewType: ViewType,
    iOS10OrLater: bool)

  /** The fields the view updates. */
  datatype Status = Status(
    isStopped: bool,
    forceStop: bool,
    isCapturing: bool,
    borderDetectFrame: bool,
    didNotifyFullConfidence: bool,
    isCurrentlyFocusing: bool,
    confidence: int,
    lastRectangle: Option<Quad>,
    latestCorrected: Option<Image>,
    hasStillOutput: bool,
    inWindow: bool,
    events: seq<Event>)

  /** The object invariant: the score stays on its scale and focusing is never started. */
  ghost predicate Inv(s: Status) {
    0 <= s.confidence <= MaxConfidence && !s.isCurrentlyFocusing
  }

  /** The result of one frame: the new state, the decision, the image handed to the display. */
  datatype FrameResult = FrameResult(status: Status, decision: Decision, shown: Option<Image>, detectionRan: bool)

  /** What a still-capture completion produced. */
  datatype StillData = NoData | Undecodable | Jpeg(shot: nat)

  datatype CaptureOutcome = CaptureOutcome(status: Status, image: Option<Image>)

  /** The delegate calls a frame decision dispatches. */
  function Announced(d: Decision): seq<Event> {
    match d
    case Lost => [LostConfidence]
    case Tracking(c) => [DetectedRectangle(c)]
    case FullConfidence(c) => [DetectedRectangle(c)]
    case _ => []
  }

  /** The first guard of the frame handler. */
  predicate Blocked(s: Status) {
    s.forceStop || s.isStopped || s.isCapturing
  }

  /** A frame passes every guard and reaches the rectangle logic. */
  predicate Analysed(s: Status, cfg: Settings, sample: Option<nat>) {
    !Blocked(s) && sample.Some? && cfg.borderDetection
  }

  /** What biggestRectangle(inRectangles:) is declared to do: pick the biggest of the
      detected rectangles, so whatever it returns is one of them. */
  ghost predicate Selects(biggest: seq<Quad> -> Option<Quad>) {
    forall rs :: biggest(rs).Some? ==> biggest(rs).value in rs
  }

  // ---------------------------------------------------------------------
  // Transitions

  /** captureImage(with:)'s guard and its one state change. */
  predicate CaptureAccepted(s: Status) {
    s.hasStillOutput && s.inWindow && !s.isCapturing
  }

  function CaptureStep(s: Status): (t: Status)
    ensures CaptureAccepted(s) ==> t == s.(isCapturing := true)
    ensures !CaptureAccepted(s) ==> t == s
    ensures s.isCapturing ==> t == s
  {
    if CaptureAccepted(s) then s.(isCapturing := true) else s
  }

  /** The layer under the centre mark, if there is one. */
  function Uncentred(img: Image): Image {
    if img.CenterMarked? then img.source else img
  }

  /** The overlays drawn on a frame that has a rectangle. */
  function Overlay(image: Image, q: Quad, c: int, focusing: bool, cfg: Settings): Image {
    var highlighted := Highlighted(image, q, OverlayAlpha(c));
    var centred := if cfg.drawCenter then CenterMarked(highlighted, q) else highlighted;
    if focusing && cfg.showAutoFocus then FocusMarked(centred, q) else centred
  }

  /** One video frame (captureOutput(_:didOutputSampleBuffer:from:)); `sample` is the frame's
      pixels (None: invalid buffer or no pixel buffer) and `detected` what the detector
      would report on it. Its properties are the Frame* lemmas below. */
  function FrameStep(s: Status, cfg: Settings, biggest: seq<Quad> -> Option<Quad>,
                     sample: Option<nat>, detected: seq<Quad>): FrameResult
  {
    if Blocked(s) || sample.None? then FrameResult(s, Ignored, None, false)
    else
      var image := ApplyFilter(CameraFrame(sample.value), cfg.viewType);
      if !cfg.borderDetection then FrameResult(s, Unanalysed, Some(image), false)
      else
        var cached := if s.borderDetectFrame then biggest(detected) else s.lastRectangle;
        var r := RectangleStep(s.(lastRectangle := cached, borderDetectFrame := false), cfg, image);
        r.(detectionRan := s.borderDetectFrame)
  }

  /** The second half of a frame: the score, overlay, notifications and latch,
      driven by the cached rectangle. */
  function RectangleStep(s: Status, cfg: Settings, image: Image): FrameResult
  {
    match s.lastRectangle
    case None =>
      FrameResult(s.(confidence := 0, isCurrentlyFocusing := false, events := s.events + [LostConfidence]),
                  Lost, Some(image), false)
    case Some(q) => TrackStep(s, cfg, image, q)
  }

  /** A rectangle is cached: raise the score, draw, report, and fire at 100. */
  function TrackStep(s: Status, cfg: Settings, image: Image, q: Quad): FrameResult
  {
    var c := Raise(s.confidence, ConfidenceSpeed(cfg.detector));
    var shown := Overlay(image, q, c, s.isCurrentlyFocusing, cfg);
    var tracked := s.(confidence := c, latestCorrected := Some(Corrected(image, q)),
                      events := s.events + [DetectedRectangle(c)]);
    if c >= MaxConfidence && !s.didNotifyFullConfidence then
      FrameResult(CaptureStep(tracked.(didNotifyFullConfidence := true)), FullConfidence(c), Some(shown), false)
    else
      FrameResult(tracked, Tracking(c), Some(shown), false)
  }

  /** A blocked view (stopped, backgrounded or capturing) or a buffer without pixels
      changes nothing, shows nothing and notifies nobody. */
  lemma FrameIgnoredWhenBlocked(s: Status, cfg: Settings, biggest: seq<Quad> -> Option<Quad>,
                                sample: Option<nat>, detected: seq<Quad>)
    requires Blocked(s) || sample.None?
    ensures FrameStep(s, cfg, biggest, sample, detected) == FrameResult(s, Ignored, None, false)
  {
  }

  /** With border detection off a frame is only filtered and shown: score, cached
      rectangle, cadence flag, latch and notifications stay as they were. */
  lemma FrameUnanalysedWithoutBorderDetection(s: Status, cfg: Settings, biggest: seq<Quad> -> Option<Quad>,
                                              sample: Option<nat>, detected: seq<Quad>)
    requires !Blocked(s) && sample.Some? && !cfg.borderDetection
    ensures var r := FrameStep(s, cfg, biggest, sample, detected);
            r.status == s && r.decision == Unanalysed &&
            r.shown == Some(ApplyFilter(CameraFrame(sample.value), cfg.viewType))
  {
  }

  /** The cadence gate: the detector runs only on a frame that reaches the rectangle
      logic while the timer flag is set; that frame clears the flag and caches the
      biggest detected rectangle (or none); every other frame keeps the cache. */
  lemma FrameCadence(s: Status, cfg: Settings, biggest: seq<Quad> -> Option<Quad>,
                     sample: Option<nat>, detected: seq<Quad>)
    ensures var r := FrameStep(s, cfg, biggest, sample, detected);
            (r.detectionRan <==> Analysed(s, cfg, sample) && s.borderDetectFrame) &&
            r.status.borderDetectFrame == (s.borderDetectFrame && !r.detectionRan) &&
            r.status.lastRectangle == (if r.detectionRan then biggest(detected) else s.lastRectangle)
  {
  }

  /** No cached rectangle: the score drops to 0 whatever it was, focusing is cleared,
      the delegate hears that confidence was lost, the filtered frame is shown without
      overlays and the last corrected image is kept. */
  lemma FrameLosesConfidence(s: Status, cfg: Settings, biggest: seq<Quad> -> Option<Quad>,
                             sample: Option<nat>, detected: seq<Quad>)
    requires Analysed(s, cfg, sample)
    requires FrameStep(s, cfg, biggest, sample, detected).status.lastRectangle.None?
    ensures var r := FrameStep(s, cfg, biggest, sample, detected);
            r.decision == Lost && r.status.confidence == 0 && !r.status.isCurrentlyFocusing &&
            r.status.events == s.events + [LostConfidence] &&
            r.shown == Some(ApplyFilter(CameraFrame(sample.value), cfg.viewType)) &&
            r.status.latestCorrected == s.latestCorrected
  {
  }

  /** A cached rectangle: the score rises by the detector's step, clamped at 100, the
      frame is corrected with that rectangle, and the new score is reported. */
  lemma FrameRaisesConfidence(s: Status, cfg: Settings, biggest: seq<Quad> -> Option<Quad>,
                              sample: Option<nat>, detected: seq<Quad>)
    requires Analysed(s, cfg, sample)
    requires FrameStep(s, cfg, biggest, sample, detected).status.lastRectangle.Some?
    ensures var r := FrameStep(s, cfg, biggest, sample, detected);
            var q := r.status.lastRectangle.value;
            r.status.confidence == Raise(s.confidence, ConfidenceSpeed(cfg.detector)) &&
            (r.decision.Tracking? || r.decision.FullConfidence?) &&
            r.decision.confidence == r.status.confidence &&
            r.status.events == s.events + [DetectedRectangle(r.status.confidence)] &&
            r.status.latestCorrected == Some(Corrected(ApplyFilter(CameraFrame(sample.value), cfg.viewType), q))
  {
  }

  /** Full confidence fires exactly when a rectangle is tracked at score 100 with the
      latch clear; firing sets the latch, nothing else does, and only firing starts a
      capture (when the capture guard lets it). */
  lemma FrameLatch(s: Status, cfg: Settings, biggest: seq<Quad> -> Option<Quad>,
                   sample: Option<nat>, detected: seq<Quad>)
    ensures var r := FrameStep(s, cfg, biggest, sample, detected);
            (r.decision.FullConfidence? <==>
               Analysed(s, cfg, sample) && r.status.lastRectangle.Some? &&
               r.status.confidence >= MaxConfidence && !s.didNotifyFullConfidence) &&
            r.status.didNotifyFullConfidence == (s.didNotifyFullConfidence || r.decision.FullConfidence?) &&
            (r.decision.FullConfidence? ==> r.decision.confidence == MaxConfidence) &&
            r.status.isCapturing == (s.isCapturing || (r.decision.FullConfidence? && CaptureAccepted(s)))
  {
  }

  /** Every frame dispatches exactly the notifications its decision calls for. */
  lemma FrameNotifies(s: Status, cfg: Settings, biggest: seq<Quad> -> Option<Quad>,
                      sample: Option<nat>, detected: seq<Quad>)
    ensures var r := FrameStep(s, cfg, biggest, sample, detected);
            r.status.events == s.events + Announced(r.decision)
  {
  }

  /** A frame leaves the lifecycle flags and the capture prerequisites alone. */
  lemma FrameKeepsLifecycle(s: Status, cfg: Settings, biggest: seq<Quad> -> Option<Quad>,
                            sample: Option<nat>, detected: seq<Quad>)
    ensures var r := FrameStep(s, cfg, biggest, sample, detected);
            r.status.isStopped == s.isStopped && r.status.forceStop == s.forceStop &&
            r.status.hasStillOutput == s.hasStillOutput && r.status.inWindow == s.inWindow
  {
  }

  /** A detection pass that finds no rectangle leaves none cached: the score drops to
      0 and the delegate hears that confidence was lost. */
  lemma FrameLosesWhenNothingDetected(s: Status, cfg: Settings, biggest: seq<Quad> -> Option<Quad>,
                                      sample: Option<nat>)
    requires Selects(biggest)
    requires Analysed(s, cfg, sample) && s.borderDetectFrame
    ensures var r := FrameStep(s, cfg, biggest, sample, []);
            r.detectionRan && r.status.lastRectangle.None? && r.decision == Lost &&
            r.status.confidence == 0 && r.status.events == s.events + [LostConfidence]
  {
    assert biggest([]).None?;
  }

  /** After a detection pass the cached rectangle, if any, is one the detector reported. */
  lemma FrameCachesDetected(s: Status, cfg: Settings, biggest: seq<Quad> -> Option<Quad>,
                            sample: Option<nat>, detected: seq<Quad>)
    requires Selects(biggest)
    ensures var r := FrameStep(s, cfg, biggest, sample, detected);
            r.detectionRan && r.status.lastRectangle.Some? ==> r.status.lastRectangle.value in detected
  {
    FrameCadence(s, cfg, biggest, sample, detected);
  }

  /** A tracked frame shows the filtered frame highlighted over the cached rectangle at
      the new score's alpha, centre-marked exactly when that is enabled, and never with
      the focus mark, since focusing is never started. */
  lemma FrameShowsOverlay(s: Status, cfg: Settings, biggest: seq<Quad> -> Option<Quad>,
                          sample: Option<nat>, detected: seq<Quad>)
    requires Inv(s) && Analysed(s, cfg, sample)
    requires FrameStep(s, cfg, biggest, sample, detected).status.lastRectangle.Some?
    ensures var r := FrameStep(s, cfg, biggest, sample, detected);
            var q := r.status.lastRectangle.value;
            r.shown.Some? && !r.shown.value.FocusMarked? &&
            (r.shown.value.CenterMarked? <==> cfg.drawCenter) &&
            (r.shown.value.CenterMarked? ==> r.shown.value.quad == q) &&
            Uncentred(r.shown.value) ==
              Highlighted(ApplyFilter(CameraFrame(sample.value), cfg.viewType), q, OverlayAlpha(r.status.confidence))
  {
  }

  /** A frame keeps the score in [0, 100] and never starts focusing. */
  lemma FrameKeepsInvariant(s: Status, cfg: Settings, biggest: seq<Quad> -> Option<Quad>,
                            sample: Option<nat>, detected: seq<Quad>)
    requires Inv(s)
    ensures Inv(FrameStep(s, cfg, biggest, sample, detected).status)
  {
  }

  /** The still before correction: rotated (iOS 10 and later) and colour-filtered. */
  function PreparedStill(shot: nat, cfg: Settings, bar: InterfaceOrientation): Image {
    var decoded := StillPhoto(shot);
    var oriented := if cfg.iOS10OrLater
                    then Oriented(decoded, ImagePropertyOrientation(ImageOrientationFor(bar)))
                    else decoded;
    ApplyFilter(oriented, cfg.viewType)
  }

  /** The cropped image inside the final one (before conversion to UIImage). */
  function CropOf(img: Image): Image {
    if img.Uprighted? then img.source else img
  }

  /** The image a still-capture completion hands to its caller. */
  function FinalImage(cfg: Settings, confidence: int, biggest: seq<Quad> -> Option<Quad>,
                      data: StillData, detected: seq<Quad>, bar: InterfaceOrientation): (r: Option<Image>)
    requires !data.NoData?
    ensures r.Some? <==> data.Jpeg?
    ensures data.Jpeg? && !cfg.borderDetection ==> r == Some(StillPhoto(data.shot))
    ensures data.Jpeg? && cfg.borderDetection ==>
              (r.value.Uprighted? <==> !cfg.iOS10OrLater) &&
              CropOf(r.value).Cropped? && CropOf(r.value).margin == CropMargin &&
              (CropOf(r.value).source.Corrected? <==> ConfidenceHighEnough(confidence) && biggest(detected).Some?) &&
              (CropOf(r.value).source.Corrected? ==>
                 CropOf(r.value).source == Corrected(PreparedStill(data.shot, cfg, bar), biggest(detected).value)) &&
              (!CropOf(r.value).source.Corrected? ==> CropOf(r.value).source == PreparedStill(data.shot, cfg, bar))
  {
    match data
    case Undecodable => None
    case Jpeg(shot) =>
      if !cfg.borderDetection then Some(StillPhoto(shot))
      else
        var prepared := PreparedStill(shot, cfg, bar);
        var corrected := if ConfidenceHighEnough(confidence) && biggest(detected).Some?
                         then Corrected(prepared, biggest(detected).value)
                         else prepared;
        var cropped := Cropped(corrected, CropMargin);
        Some(if cfg.iOS10OrLater then cropped else Uprighted(cropped))
  }

  /** A still is corrected only with a rectangle the detector found on that still. */
  lemma StillCorrectedWithDetected(cfg: Settings, confidence: int, biggest: seq<Quad> -> Option<Quad>,
                                   shot: nat, detected: seq<Quad>, bar: InterfaceOrientation)
    requires Selects(biggest) && cfg.borderDetection
    ensures var r := FinalImage(cfg, confidence, biggest, Jpeg(shot), detected, bar);
            CropOf(r.value).source.Corrected? ==> CropOf(r.value).source.quad in detected
  {
  }

  /** The completion of a still capture started by captureImage(with:); `auto` when the
      frame handler started it, whose completion notifies the delegate. */
  function StillStep(s: Status, cfg: Settings, biggest: seq<Quad> -> Option<Quad>, auto: bool,
                     data: StillData, detected: seq<Quad>, bar: InterfaceOrientation): (r: CaptureOutcome)
    ensures data.NoData? ==> r.image.None?
    ensures !data.NoData? ==> r.image == FinalImage(cfg, s.confidence, biggest, data, detected, bar)
    // a delivered still stops the view; the capture guard is left set
    ensures r.status.isStopped == (s.isStopped || !data.NoData?)
    ensures r.status.isCapturing == s.isCapturing
    ensures r.status.events == s.events + (if auto then [GainedFullConfidence(r.image)] else [])
    ensures r.status.confidence == s.confidence && r.status.didNotifyFullConfidence == s.didNotifyFullConfidence
    // no other field changes
    ensures r.status == s.(isStopped := r.status.isStopped, events := r.status.events)
  {
    var image := if data.NoData? then None else FinalImage(cfg, s.confidence, biggest, data, detected, bar);
    CaptureOutcome(s.(isStopped := s.isStopped || !data.NoData?,
                      events := s.events + (if auto then [GainedFullConfidence(image)] else [])),
                   image)
  }

  /** setupCameraView: with a camera it resets the score and installs the still output. */
  function SetupStep(s: Status, deviceFound: bool): (t: Status)
    ensures deviceFound ==> t.confidence == 0 && t.hasStillOutput
    ensures !deviceFound ==> t == s
    ensures t.(confidence := s.confidence, hasStillOutput := s.hasStillOutput) == s
  {
    if deviceFound then s.(confidence := 0, hasStillOutput := true) else s
  }

  const InitialStatus: Status :=
    Status(false, false, false, false, false, false, 0, None, None, false, false, [])

  // ---------------------------------------------------------------------
  // The view

  class CameraView {
    // public configuration
    var detectorType: DetectorType
    var isBorderDetectionEnabled: bool
    var isDrawCenterEnabled: bool
    var isShowAutoFocusEnabled: bool
    var cameraViewType: ViewType
    const iOS10OrLater: bool
    /** CIRectangleFeature.biggestRectangle(inRectangles:), known only by its declaration. */
    const biggestRectangle: seq<Quad> -> Option<Quad>

    // state
    var isStopped: bool
    var forceStop: bool
    var isCapturing: bool
    var borderDetectFrame: bool
    var didNotifyFullConfidence: bool
    var isCurrentlyFocusing: bool
    var confidence: int
    var lastRectangle: Option<Quad>
    var latestCorrected: Option<Image>
    var hasStillOutput: bool
    /** Whether the view is in a window (captureImage needs one). */
    var inWindow: bool
    /** Delegate notifications dispatched so far, oldest first. */
    var events: seq<Event>

    function Snapshot(): Status
      reads this
    {
      Status(isStopped, forceStop, isCapturing, borderDetectFrame, didNotifyFullConfidence,
             isCurrentlyFocusing, confidence, lastRectangle, latestCorrected, hasStillOutput, inWindow, events)
    }

    function Configuration(): Settings
      reads this
    {
      Settings(detectorType, isBorderDetectionEnabled, isDrawCenterEnabled, isShowAutoFocusEnabled,
               cameraViewType, iOS10OrLater)
    }

    ghost predicate Valid()
      reads this
    {
      Inv(Snapshot())
    }

    /** init(frame:) with the defaults of the stored properties. */
    constructor (iOS10: bool, biggest: seq<Quad> -> Option<Quad>)
      requires Selects(biggest)
      ensures Valid()
      ensures Snapshot() == InitialStatus
      ensures Configuration() == Settings(Accuracy, false, false, false, Normal, iOS10)
      ensures biggestRectangle == biggest
    {
      detectorType, isBorderDetectionEnabled, isDrawCenterEnabled, isShowAutoFocusEnabled := Accuracy, false, false, false;
      cameraViewType, iOS10OrLater, biggestRectangle := Normal, iOS10, biggest;
      isStopped, forceStop, isCapturing, borderDetectFrame := false, false, false, false;
      didNotifyFullConfidence, isCurrentlyFocusing := false, false;
      confidence, lastRectangle, latestCorrected := 0, None, None;
      hasStillOutput, inWindow, events := false, false, [];
    }

    method SetupCameraView(deviceFound: bool)
      requires Valid()
      modifies this
      ensures Valid()
      ensures Snapshot() == SetupStep(old(Snapshot()), deviceFound)
      ensures Configuration() == old(Configuration())
    {
      if !deviceFound {
        return;
      }
      confidence := 0;
      hasStillOutput := true;
    }

    method Start()
      requires Valid()
      modifies this
      ensures Valid()
      ensures Snapshot() == old(Snapshot()).(isStopped := false, isCapturing := false)
      ensures Configuration() == old(Configuration())
    {
      isStopped := false;
      isCapturing := false;
    }

    method Stop()
      requires Valid()
      modifies this
      ensures Valid()
      ensures Snapshot() == old(Snapshot()).(isStopped := true)
      ensures Configuration() == old(Configuration())
    {
      isStopped := true;
    }

    /** The 0.5 s timer's action. */
    method EnableBorderDetectFrame()
      requires Valid()
      modifies this
      ensures Valid()
      ensures Snapshot() == old(Snapshot()).(borderDetectFrame := true)
      ensures Configuration() == old(Configuration())
    {
      borderDetectFrame := true;
    }

    /** The block scheduled 2 s after full confidence fired. */
    method ClearFullConfidenceLatch()
      requires Valid()
      modifies this
      ensures Valid()
      ensures Snapshot() == old(Snapshot()).(didNotifyFullConfidence := false)
      ensures Configuration() == old(Configuration())
    {
      didNotifyFullConfidence := false;
    }

    /** The application will resign active. */
    method BackgroundMode()
      requires Valid()
      modifies this
      ensures Valid()
      ensures Snapshot() == old(Snapshot()).(forceStop := true)
      ensures Configuration() == old(Configuration())
    {
      forceStop := true;
    }

    /** The application did become active. */
    method ForegroundMode()
      requires Valid()
      modifies this
      ensures Valid()
      ensures Snapshot() == old(Snapshot()).(forceStop := false)
      ensures Configuration() == old(Configuration())
    {
      forceStop := false;
    }

    /** captureImage(with:): starts a still capture unless one is running or the view
        has no still output or window. */
    method CaptureImage() returns (accepted: bool)
      requires Valid()
      modifies this
      ensures Valid()
      ensures accepted == CaptureAccepted(old(Snapshot()))
      ensures Snapshot() == CaptureStep(old(Snapshot()))
      ensures Configuration() == old(Configuration())
    {
      if !hasStillOutput || !inWindow || isCapturing {
        return false;
      }
      isCapturing := true;
      accepted := true;
    }

    /** The completion block of a still capture: post-processing, stop, and, for
        a capture the frame handler started, the full-confidence notification. */
    method CompleteStillCapture(auto: bool, data: StillData, detected: seq<Quad>, bar: InterfaceOrientation)
      returns (image: Option<Image>)
      requires Valid()
      modifies this
      ensures Valid()
      ensures var r := StillStep(old(Snapshot()), old(Configuration()), biggestRectangle, auto, data, detected, bar);
              Snapshot() == r.status && image == r.image
      ensures Configuration() == old(Configuration())
    {
      match data {
      case NoData =>
        image := None;
      case Undecodable =>
        image := None;
        isStopped := true;
      case Jpeg(shot) =>
        if !isBorderDetectionEnabled {
          image := Some(StillPhoto(shot));
        } else {
          var enhanced := StillPhoto(shot);
          if iOS10OrLater {
            enhanced := Oriented(enhanced, ImagePropertyOrientation(ImageOrientationFor(bar)));
          }
          enhanced := ApplyFilter(enhanced, cameraViewType);
          if ConfidenceHighEnough(confidence) {
            var rectangle := biggestRectangle(detected);
            if rectangle.Some? {
              enhanced := Corrected(enhanced, rectangle.value);
            }
          }
          enhanced := Cropped(enhanced, CropMargin);
          image := Some(if iOS10OrLater then enhanced else Uprighted(enhanced));
        }
        isStopped := true;
      }
      if auto {
        events := events + [GainedFullConfidence(image)];
      }
    }

    /** captureOutput(_:didOutputSampleBuffer:from:) for a frame whose pixels are `sample`
        (None: invalid buffer or no pixel buffer); `detected` is what the detector would
        report on this frame. Returns the decision and the image handed to the display. */
    method CaptureOutput(sample: Option<nat>, detected: seq<Quad>) returns (decision: Decision, shown: Option<Image>)
      requires Valid()
      modifies this
      ensures Valid()
      ensures var r := FrameStep(old(Snapshot()), old(Configuration()), biggestRectangle, sample, detected);
              Snapshot() == r.status && decision == r.decision && shown == r.shown
      ensures Configuration() == old(Configuration())
    {
      if forceStop || isStopped || isCapturing || sample.None? {
        return Ignored, None;
      }
      var image := ApplyFilter(CameraFrame(sample.value), cameraViewType);
      if !isBorderDetectionEnabled {
        return Unanalysed, Some(image);
      }
      if borderDetectFrame {
        lastRectangle, borderDetectFrame := biggestRectangle(detected), false;
      }
      decision, shown := TrackCachedRectangle(image);
    }

    /** The part of the frame handler that acts on the cached rectangle. */
    method TrackCachedRectangle(image: Image) returns (decision: Decision, shown: Option<Image>)
      requires Valid()
      modifies this
      ensures Valid()
      ensures var r := RectangleStep(old(Snapshot()), old(Configuration()), image);
              Snapshot() == r.status && decision == r.decision && shown == r.shown
      ensures Configuration() == old(Configuration())
    {
      if lastRectangle.None? {
        events := events + [LostConfidence];
        confidence := 0;
        isCurrentlyFocusing := false;
        return Lost, Some(image);
      }
      decision, shown := TrackRectangle(image, lastRectangle.value);
    }

    /** Raises the score for the cached rectangle `rectangle`, draws the overlays,
        reports the score and, at 100 with the latch clear, fires full confidence. */
    method TrackRectangle(image: Image, rectangle: Quad) returns (decision: Decision, shown: Option<Image>)
      requires Valid()
      modifies this
      ensures Valid()
      ensures var r := TrackStep(old(Snapshot()), old(Configuration()), image, rectangle);
              Snapshot() == r.status && decision == r.decision && shown == r.shown
      ensures Configuration() == old(Configuration())
    {
      var c := Raise(confidence, ConfidenceSpeed(detectorType));
      confidence, latestCorrected, events := c, Some(Corrected(image, rectangle)), events + [DetectedRectangle(c)];
      var overlaid := DrawOverlays(image, rectangle);
      decision := Tracking(confidence);
      if confidence >= MaxConfidence && !didNotifyFullConfidence {
        FireFullConfidence();
        decision := FullConfidence(confidence);
      }
      shown := Some(overlaid);
    }

    /** The highlight overlay at the current score, the centre mark and the focus mark.
        Focusing is never started (the class invariant), so the focus mark is not drawn. */
    method DrawOverlays(image: Image, rectangle: Quad) returns (overlaid: Image)
      requires !isCurrentlyFocusing
      ensures !overlaid.FocusMarked?
      ensures overlaid.CenterMarked? <==> isDrawCenterEnabled
      ensures overlaid.CenterMarked? ==> overlaid.quad == rectangle
      ensures Uncentred(overlaid) == Highlighted(image, rectangle, OverlayAlpha(confidence))
      ensures overlaid == Overlay(image, rectangle, confidence, isCurrentlyFocusing, Configuration())
    {
      overlaid := Highlighted(image, rectangle, OverlayAlpha(confidence));
      if isDrawCenterEnabled {
        overlaid := CenterMarked(overlaid, rectangle);
      }
      if isCurrentlyFocusing && isShowAutoFocusEnabled {
        overlaid := FocusMarked(overlaid, rectangle);
      }
    }

    /** Sets the full-confidence latch and asks for a still capture. */
    method FireFullConfidence()
      requires Valid()
      modifies this
      ensures Valid()
      ensures Snapshot() == CaptureStep(old(Snapshot()).(didNotifyFullConfidence := true))
      ensures Configuration() == old(Configuration())
    {
      didNotifyFullConfidence := true;
      var _ := CaptureImage();
    }
  }
}
