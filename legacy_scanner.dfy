/**
 The older revision of the camera view (Source/Private/IRLCameraView.swift).
 Its frame handler's body is entirely commented out and its capture method
 only calls back with no image, so what is live is the configuration, the
 lifecycle flags and the orientation helpers.
 */
module LegacyScanner {
  import opened Imaging
  import opened Orientation
  import Scanner

  /** Default of minimumConfidenceForFullDetection. */
  const DefaultMinimumConfidence: int := 66

  /** Default of maximumConfidenceForFullDetection. */
  const DefaultMaximumConfidence: int := 100

  /** Upper bound the setter's observer enforces. */
  const MinimumConfidenceCap: int := 100

  /** Threshold of the lazily created gradient image. */
  const GradientThreshold: real := 0.3

  /** The value minimumConfidenceForFullDetection holds after an assignment of `v`:
      the observer replaces anything above 100 by 100. */
  function ClampMinimum(v: int): (r: int)
    ensures r <= MinimumConfidenceCap
    ensures r == v <==> v <= MinimumConfidenceCap
    ensures r != v ==> r == MinimumConfidenceCap
  {
    if v > MinimumConfidenceCap then MinimumConfidenceCap else v
  }

  /** Assigning the stored value again changes nothing. */
  lemma ClampMinimumIdempotent(v: int)
    ensures ClampMinimum(ClampMinimum(v)) == ClampMinimum(v)
  {
  }

  /** rectangleDetectionConfidenceHighEnough, over the CGFloat score. */
  predicate ConfidenceHighEnough(c: real) {
    c > 1.0
  }

  /** On whole scores the old and the live gate agree. */
  lemma ConfidenceGatesAgree(c: int)
    ensures ConfidenceHighEnough(c as real) <==> Scanner.ConfidenceHighEnough(c)
  {
  }

  /** imagePropertyOrientation(for:): the property orientation of the same name. */
  function ImagePropertyOrientation(o: ImageOrientation): (p: PropertyOrientation)
    ensures IsMirrored(o) <==> IsPropertyMirrored(p)
  {
    match o
    case Up => PropUp
    case UpMirrored => PropUpMirrored
    case Down => PropDown
    case DownMirrored => PropDownMirrored
    case LeftMirrored => PropLeftMirrored
    case Right => PropRight
    case RightMirrored => PropRightMirrored
    case Left => PropLeft
  }

  /** Distinct image orientations map to distinct property orientations. */
  lemma ImagePropertyOrientationInjective(a: ImageOrientation, b: ImageOrientation)
    requires ImagePropertyOrientation(a) == ImagePropertyOrientation(b)
    ensures a == b
  {
  }

  /** The live revision returns the raw value of exactly this orientation. */
  lemma PropertyOrientationAgreesWithLive(o: ImageOrientation)
    ensures Scanner.ImagePropertyOrientation(o) == RawValue(ImagePropertyOrientation(o))
  {
  }

  /** The fields the old view updates. */
  datatype LegacyStatus = LegacyStatus(
    isStopped: bool,
    borderDetectFrame: bool,
    forceStop: bool,
    isCapturing: bool,
    minimumConfidence: int,
    maximumConfidence: int,
    confidence: real,
    gradient: Option<Image>,
    hasSession: bool)

  /** start(): create the gradient once, then clear the stop and capture flags. */
  function StartStep(s: LegacyStatus): (t: LegacyStatus)
    ensures !t.isStopped && !t.isCapturing
    ensures t.gradient.Some?
    ensures s.gradient.Some? ==> t.gradient == s.gradient
    ensures s.gradient.None? ==> t.gradient == Some(GradientImage(GradientThreshold))
    ensures t.(isStopped := s.isStopped, isCapturing := s.isCapturing, gradient := s.gradient) == s
  {
    var g := if s.gradient.None? then Some(GradientImage(GradientThreshold)) else s.gradient;
    s.(gradient := g, isStopped := false, isCapturing := false)
  }

  /** Starting twice is starting once: in particular the gradient is not re-created. */
  lemma StartIdempotent(s: LegacyStatus)
    ensures StartStep(StartStep(s)) == StartStep(s)
  {
  }

  class CameraView {
    var minimumConfidenceForFullDetection: int
    /** Declared next to the minimum, public, without an observer, and never read. */
    var maximumConfidenceForFullDetection: int
    var isStopped: bool
    var borderDetectFrame: bool
    var forceStop: bool
    var isCapturing: bool
    var imageDedectionConfidence: real
    var gradient: Option<Image>
    /** Whether captureSession has been assigned (it is force-unwrapped by start and stop). */
    var hasSession: bool

    function Snapshot(): LegacyStatus
      reads this
    {
      LegacyStatus(isStopped, borderDetectFrame, forceStop, isCapturing, minimumConfidenceForFullDetection,
                   maximumConfidenceForFullDetection, imageDedectionConfidence, gradient, hasSession)
    }

    ghost predicate Valid()
      reads this
    {
      minimumConfidenceForFullDetection <= MinimumConfidenceCap
    }

    /** init() with the stored properties' defaults. */
    constructor ()
      ensures Valid()
      ensures Snapshot() == LegacyStatus(false, false, false, false, DefaultMinimumConfidence, DefaultMaximumConfidence,
                                         0.0, None, false)
    {
      minimumConfidenceForFullDetection, maximumConfidenceForFullDetection := DefaultMinimumConfidence, DefaultMaximumConfidence;
      isStopped, borderDetectFrame, forceStop, isCapturing := false, false, false, false;
      imageDedectionConfidence, gradient, hasSession := 0.0, None, false;
    }

    /** Assignment to minimumConfidenceForFullDetection, followed by its didSet observer. */
    method SetMinimumConfidenceForFullDetection(v: int)
      modifies this
      ensures Valid()
      ensures Snapshot() == old(Snapshot()).(minimumConfidence := ClampMinimum(v))
    {
      minimumConfidenceForFullDetection := v;
      if minimumConfidenceForFullDetection > 100 {
        minimumConfidenceForFullDetection := 100;
      }
    }

    /** Assignment to maximumConfidenceForFullDetection: stored as given. */
    method SetMaximumConfidenceForFullDetection(v: int)
      requires Valid()
      modifies this
      ensures Valid()
      ensures Snapshot() == old(Snapshot()).(maximumConfidence := v)
    {
      maximumConfidenceForFullDetection := v;
    }

    /** setupCameraView(): without a camera nothing happens; with one the score is reset,
        and the session is stored only when the data output has a connection. */
    method SetupCameraView(deviceFound: bool, connectionFound: bool)
      requires Valid()
      modifies this
      ensures Valid()
      ensures !deviceFound ==> Snapshot() == old(Snapshot())
      ensures deviceFound ==>
                Snapshot() == old(Snapshot()).(confidence := 0.0, hasSession := old(hasSession) || connectionFound)
    {
      if !deviceFound {
        return;
      }
      imageDedectionConfidence := 0.0;
      if !connectionFound {
        return;
      }
      hasSession := true;
    }

    method Start()
      requires Valid() && hasSession
      modifies this
      ensures Valid()
      ensures Snapshot() == StartStep(old(Snapshot()))
    {
      if gradient.None? {
        gradient := Some(GradientImage(GradientThreshold));
      }
      isStopped := false;
      isCapturing := false;
    }

    method Stop()
      requires Valid() && hasSession
      modifies this
      ensures Valid()
      ensures Snapshot() == old(Snapshot()).(isStopped := true)
    {
      isStopped := true;
    }

    method EnableBorderDetectFrame()
      requires Valid()
      modifies this
      ensures Valid()
      ensures Snapshot() == old(Snapshot()).(borderDetectFrame := true)
    {
      borderDetectFrame := true;
    }

    method BackgroundMode()
      requires Valid()
      modifies this
      ensures Valid()
      ensures Snapshot() == old(Snapshot()).(forceStop := true)
    {
      forceStop := true;
    }

    method ForegroundMode()
      requires Valid()
      modifies this
      ensures Valid()
      ensures Snapshot() == old(Snapshot()).(forceStop := false)
    {
      forceStop := false;
    }

    /** captureImage(with:): the completion handler's invocations, in order. */
    method CaptureImage() returns (completions: seq<Option<Image>>)
      ensures |completions| == 1 && completions[0].None?
    {
      completions := [None];
    }

    /** captureOutput(_:didOutputSampleBuffer:from:): its body is commented out. */
    method CaptureOutput(sample: Option<nat>)
      ensures Snapshot() == old(Snapshot())
    {
    }
  }
}
