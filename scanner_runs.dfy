/**
 Whole runs of the camera view: every event that can reach it (frames, the
 cadence timer, the latch cooldown, lifecycle calls, capture requests and
 completions) as one action type, and the properties that hold over any
 sequence of them.
 */
module ScannerRuns {
  import opened Imaging
  import opened Orientation
  import opened Scanner

  /** Everything that can happen to the view, one call at a time. */
  datatype Action =
    | VideoFrame(sample: Option<nat>, detected: seq<Quad>)   // captureOutput
    | TimerFired                                              // enableBorderDetectFrame
    | LatchCooldown                                           // the 2 s block clearing the latch
    | StartView                                               // start
    | StopView                                                // stop
    | WillResignActive                                        // backgroundMode
    | DidBecomeActive                                         // foregroundMode
    | CaptureRequested                                        // captureImage(with:) by a client
    | StillDelivered(auto: bool, data: StillData, detected: seq<Quad>, bar: InterfaceOrientation)
    | CameraSetup(deviceFound: bool)                          // setupCameraView
    | WindowChanged(inWindow: bool)                           // the view enters or leaves a window

  /** The state after one action, as the corresponding method of CameraView leaves it. */
  function Apply(s: Status, cfg: Settings, biggest: seq<Quad> -> Option<Quad>, a: Action): Status {
    match a
    case VideoFrame(sample, detected) => FrameStep(s, cfg, biggest, sample, detected).status
    case TimerFired => s.(borderDetectFrame := true)
    case LatchCooldown => s.(didNotifyFullConfidence := false)
    case StartView => s.(isStopped := false, isCapturing := false)
    case StopView => s.(isStopped := true)
    case WillResignActive => s.(forceStop := true)
    case DidBecomeActive => s.(forceStop := false)
    case CaptureRequested => CaptureStep(s)
    case StillDelivered(auto, data, detected, bar) => StillStep(s, cfg, biggest, auto, data, detected, bar).status
    case CameraSetup(found) => SetupStep(s, found)
    case WindowChanged(w) => s.(inWindow := w)
  }

  function Run(s: Status, cfg: Settings, biggest: seq<Quad> -> Option<Quad>, actions: seq<Action>): Status
    decreases |actions|
  {
    if actions == [] then s
    else Run(Apply(s, cfg, biggest, actions[0]), cfg, biggest, actions[1..])
  }

  /** The decisions of the frames of a run, in order. */
  function Decisions(s: Status, cfg: Settings, biggest: seq<Quad> -> Option<Quad>, actions: seq<Action>): seq<Decision>
    decreases |actions|
  {
    if actions == [] then []
    else
      var rest := Decisions(Apply(s, cfg, biggest, actions[0]), cfg, biggest, actions[1..]);
      match actions[0]
      case VideoFrame(sample, detected) => [FrameStep(s, cfg, biggest, sample, detected).decision] + rest
      case _ => rest
  }

  /** How many times the rectangle detector runs during a run. */
  function DetectionPasses(s: Status, cfg: Settings, biggest: seq<Quad> -> Option<Quad>, actions: seq<Action>): nat
    decreases |actions|
  {
    if actions == [] then 0
    else
      var rest := DetectionPasses(Apply(s, cfg, biggest, actions[0]), cfg, biggest, actions[1..]);
      match actions[0]
      case VideoFrame(sample, detected) => (if FrameStep(s, cfg, biggest, sample, detected).detectionRan then 1 else 0) + rest
      case _ => rest
  }

  /** How many full-confidence decisions a sequence holds. */
  function FullCount(ds: seq<Decision>): nat {
    if ds == [] then 0 else (if ds[0].FullConfidence? then 1 else 0) + FullCount(ds[1..])
  }

  // ---------------------------------------------------------------------
  // The invariant

  lemma ApplyKeepsInvariant(s: Status, cfg: Settings, biggest: seq<Quad> -> Option<Quad>, a: Action)
    requires Inv(s)
    ensures Inv(Apply(s, cfg, biggest, a))
  {
    if a.VideoFrame? {
      FrameKeepsInvariant(s, cfg, biggest, a.sample, a.detected);
    }
  }

  /** Over any run the score stays in [0, 100] and focusing is never started. */
  lemma {:induction false} RunKeepsInvariant(s: Status, cfg: Settings, biggest: seq<Quad> -> Option<Quad>,
                                              actions: seq<Action>)
    requires Inv(s)
    ensures Inv(Run(s, cfg, biggest, actions))
    decreases |actions|
  {
    if actions != [] {
      ApplyKeepsInvariant(s, cfg, biggest, actions[0]);
      RunKeepsInvariant(Apply(s, cfg, biggest, actions[0]), cfg, biggest, actions[1..]);
    }
  }

  // ---------------------------------------------------------------------
  // The full-confidence latch

  /** Only the cooldown clears the latch. */
  lemma LatchOnlyClearedByCooldown(s: Status, cfg: Settings, biggest: seq<Quad> -> Option<Quad>, a: Action)
    requires s.didNotifyFullConfidence && !a.LatchCooldown?
    ensures Apply(s, cfg, biggest, a).didNotifyFullConfidence
  {
    if a.VideoFrame? {
      FrameLatch(s, cfg, biggest, a.sample, a.detected);
    }
  }

  /** Without a cooldown, full confidence fires at most once, and not at all while the
      latch is already set, whatever frames, ticks and lifecycle calls arrive. */
  lemma {:induction false} FullConfidenceAtMostOncePerLatch(s: Status, cfg: Settings,
                                                             biggest: seq<Quad> -> Option<Quad>, actions: seq<Action>)
    requires forall i :: 0 <= i < |actions| ==> !actions[i].LatchCooldown?
    ensures FullCount(Decisions(s, cfg, biggest, actions)) <= (if s.didNotifyFullConfidence then 0 else 1)
    decreases |actions|
  {
    if actions != [] {
      var a := actions[0];
      var t := Apply(s, cfg, biggest, a);
      var rest := Decisions(t, cfg, biggest, actions[1..]);
      FullConfidenceAtMostOncePerLatch(t, cfg, biggest, actions[1..]);
      if s.didNotifyFullConfidence {
        LatchOnlyClearedByCooldown(s, cfg, biggest, a);
      }
      if a.VideoFrame? {
        var d := FrameStep(s, cfg, biggest, a.sample, a.detected).decision;
        FrameLatch(s, cfg, biggest, a.sample, a.detected);
        assert ([d] + rest)[1..] == rest;
      }
    }
  }

  // ---------------------------------------------------------------------
  // The cadence gate

  /** Only the timer sets the cadence flag. */
  lemma CadenceOnlySetByTimer(s: Status, cfg: Settings, biggest: seq<Quad> -> Option<Quad>, a: Action)
    requires !s.borderDetectFrame && !a.TimerFired?
    ensures !Apply(s, cfg, biggest, a).borderDetectFrame
  {
    if a.VideoFrame? {
      FrameCadence(s, cfg, biggest, a.sample, a.detected);
    }
  }

  /** Between two timer ticks the expensive detector runs at most once. */
  lemma {:induction false} AtMostOneDetectionPerTick(s: Status, cfg: Settings,
                                                      biggest: seq<Quad> -> Option<Quad>, actions: seq<Action>)
    requires forall i :: 0 <= i < |actions| ==> !actions[i].TimerFired?
    ensures DetectionPasses(s, cfg, biggest, actions) <= (if s.borderDetectFrame then 1 else 0)
    decreases |actions|
  {
    if actions != [] {
      var a := actions[0];
      var t := Apply(s, cfg, biggest, a);
      AtMostOneDetectionPerTick(t, cfg, biggest, actions[1..]);
      if a.VideoFrame? {
        FrameCadence(s, cfg, biggest, a.sample, a.detected);
      } else if !s.borderDetectFrame {
        CadenceOnlySetByTimer(s, cfg, biggest, a);
      }
    }
  }

  // ---------------------------------------------------------------------
  // Stop and the capture guard

  /** A stopped view stays stopped until start(), and ignores a frame. */
  lemma StoppedStep(s: Status, cfg: Settings, biggest: seq<Quad> -> Option<Quad>, a: Action)
    requires s.isStopped && !a.StartView?
    ensures Apply(s, cfg, biggest, a).isStopped
    ensures a.VideoFrame? ==> FrameStep(s, cfg, biggest, a.sample, a.detected).decision == Ignored
  {
    if a.VideoFrame? {
      FrameIgnoredWhenBlocked(s, cfg, biggest, a.sample, a.detected);
    }
  }

  /** Once stopped, and until started again, every frame is ignored. */
  lemma {:induction false} StoppedViewIgnoresFrames(s: Status, cfg: Settings,
                                                     biggest: seq<Quad> -> Option<Quad>, actions: seq<Action>)
    requires s.isStopped
    requires forall i :: 0 <= i < |actions| ==> !actions[i].StartView?
    ensures Run(s, cfg, biggest, actions).isStopped
    ensures forall d :: d in Decisions(s, cfg, biggest, actions) ==> d == Ignored
    decreases |actions|
  {
    if actions != [] {
      StoppedStep(s, cfg, biggest, actions[0]);
      StoppedViewIgnoresFrames(Apply(s, cfg, biggest, actions[0]), cfg, biggest, actions[1..]);
    }
  }

  /** Only start() lowers the capture guard; in particular a completed capture does not. */
  lemma CaptureGuardOnlyClearedByStart(s: Status, cfg: Settings, biggest: seq<Quad> -> Option<Quad>, a: Action)
    requires s.isCapturing && !a.StartView?
    ensures Apply(s, cfg, biggest, a).isCapturing
  {
    if a.VideoFrame? {
      FrameLatch(s, cfg, biggest, a.sample, a.detected);
    }
  }

  /** While a capture is in progress, and until start() is called, every frame is
      ignored and every further capture request is rejected without effect. */
  lemma {:induction false} CapturingViewIgnoresFrames(s: Status, cfg: Settings,
                                                       biggest: seq<Quad> -> Option<Quad>, actions: seq<Action>)
    requires s.isCapturing
    requires forall i :: 0 <= i < |actions| ==> !actions[i].StartView?
    ensures Run(s, cfg, biggest, actions).isCapturing
    ensures forall d :: d in Decisions(s, cfg, biggest, actions) ==> d == Ignored
    decreases |actions|
  {
    if actions != [] {
      var a := actions[0];
      var t := Apply(s, cfg, biggest, a);
      CaptureGuardOnlyClearedByStart(s, cfg, biggest, a);
      if a.VideoFrame? {
        FrameIgnoredWhenBlocked(s, cfg, biggest, a.sample, a.detected);
      }
      CapturingViewIgnoresFrames(t, cfg, biggest, actions[1..]);
    }
  }

  // ---------------------------------------------------------------------
  // The confidence ramp

  /** How many consecutive frames with a rectangle take the score from 0 to 100. */
  function FramesToFull(d: DetectorType): (n: nat)
    ensures (n - 1) * ConfidenceSpeed(d) < MaxConfidence <= n * ConfidenceSpeed(d)
  {
    var step := ConfidenceSpeed(d);
    (MaxConfidence + step - 1) / step
  }

  /** A view that is running, analysing, has a rectangle cached, no detection due and
      the latch clear. */
  ghost predicate Steady(s: Status, cfg: Settings) {
    !Blocked(s) && cfg.borderDetection && s.lastRectangle.Some? && !s.borderDetectFrame &&
    !s.didNotifyFullConfidence
  }

  /** The state after n identical frames with pixels. */
  function Repeated(s: Status, cfg: Settings, biggest: seq<Quad> -> Option<Quad>, frame: nat, n: nat): Status {
    if n == 0 then s
    else FrameStep(Repeated(s, cfg, biggest, frame, n - 1), cfg, biggest, Some(frame), []).status
  }

  /** The n-th of those frames (counting from 1). */
  function NthFrame(s: Status, cfg: Settings, biggest: seq<Quad> -> Option<Quad>, frame: nat, n: nat): FrameResult
    requires n >= 1
  {
    FrameStep(Repeated(s, cfg, biggest, frame, n - 1), cfg, biggest, Some(frame), [])
  }

  /** One more frame on a steady view: the score rises by one step (clamped), the
      rectangle stays cached, and the view stays steady unless the frame fired. */
  lemma SteadyFrame(p: Status, cfg: Settings, biggest: seq<Quad> -> Option<Quad>, frame: nat)
    requires Steady(p, cfg)
    ensures var r := FrameStep(p, cfg, biggest, Some(frame), []);
            var c := Raise(p.confidence, ConfidenceSpeed(cfg.detector));
            r.status.confidence == c && r.status.lastRectangle == p.lastRectangle &&
            r.decision == (if c >= MaxConfidence then FullConfidence(c) else Tracking(c)) &&
            (c < MaxConfidence ==> Steady(r.status, cfg))
  {
    FrameCadence(p, cfg, biggest, Some(frame), []);
    FrameRaisesConfidence(p, cfg, biggest, Some(frame), []);
    FrameLatch(p, cfg, biggest, Some(frame), []);
    FrameKeepsLifecycle(p, cfg, biggest, Some(frame), []);
  }

  /** Before the score reaches 100, n frames leave the view steady at n steps. */
  lemma {:induction false} RampBeforeFull(s: Status, cfg: Settings, biggest: seq<Quad> -> Option<Quad>,
                                          frame: nat, n: nat)
    requires Steady(s, cfg) && s.confidence == 0
    requires n < FramesToFull(cfg.detector)
    ensures var t := Repeated(s, cfg, biggest, frame, n);
            Steady(t, cfg) && t.confidence == n * ConfidenceSpeed(cfg.detector) &&
            t.lastRectangle == s.lastRectangle
  {
    if n > 0 {
      var step := ConfidenceSpeed(cfg.detector);
      RampBeforeFull(s, cfg, biggest, frame, n - 1);
      assert (n - 1) * step + step == n * step;
      SteadyFrame(Repeated(s, cfg, biggest, frame, n - 1), cfg, biggest, frame);
    }
  }

  /** From a steady view at score 0, frame n reports n steps until the FramesToFull-th
      frame, which is the first to fire full confidence, at score 100. */
  lemma RampDecisions(s: Status, cfg: Settings, biggest: seq<Quad> -> Option<Quad>, frame: nat, n: nat)
    requires Steady(s, cfg) && s.confidence == 0
    requires 1 <= n <= FramesToFull(cfg.detector)
    ensures NthFrame(s, cfg, biggest, frame, n).decision ==
              if n == FramesToFull(cfg.detector) then FullConfidence(MaxConfidence)
              else Tracking(n * ConfidenceSpeed(cfg.detector))
  {
    var step := ConfidenceSpeed(cfg.detector);
    RampBeforeFull(s, cfg, biggest, frame, n - 1);
    assert (n - 1) * step + step == n * step;
    SteadyFrame(Repeated(s, cfg, biggest, frame, n - 1), cfg, biggest, frame);
  }

  /** At score 100 a steady view fires. If the capture it asks for starts, the next
      frame is ignored (the capture guard is up); if the capture is refused (no still
      output or no window), the next frame only reports 100, and the first frame after
      the cooldown fires again. */
  lemma FireThenCaptureOrRefire(p: Status, cfg: Settings, biggest: seq<Quad> -> Option<Quad>, frame: nat)
    requires Steady(p, cfg) && p.confidence == MaxConfidence
    ensures var first := FrameStep(p, cfg, biggest, Some(frame), []);
            var second := FrameStep(first.status, cfg, biggest, Some(frame), []);
            var third := FrameStep(Apply(second.status, cfg, biggest, LatchCooldown), cfg, biggest, Some(frame), []);
            first.decision == FullConfidence(MaxConfidence) &&
            (CaptureAccepted(p) ==> second.decision == Ignored) &&
            (!CaptureAccepted(p) ==> second.decision == Tracking(MaxConfidence) &&
                                     third.decision == FullConfidence(MaxConfidence))
  {
    var first := FrameStep(p, cfg, biggest, Some(frame), []);
    SteadyFrame(p, cfg, biggest, frame);
    FrameLatch(p, cfg, biggest, Some(frame), []);
    if CaptureAccepted(p) {
      FrameIgnoredWhenBlocked(first.status, cfg, biggest, Some(frame), []);
    } else {
      var q := first.status;
      FrameCadence(p, cfg, biggest, Some(frame), []);
      FrameKeepsLifecycle(p, cfg, biggest, Some(frame), []);
      var second := FrameStep(q, cfg, biggest, Some(frame), []);
      FrameCadence(q, cfg, biggest, Some(frame), []);
      FrameRaisesConfidence(q, cfg, biggest, Some(frame), []);
      FrameLatch(q, cfg, biggest, Some(frame), []);
      FrameKeepsLifecycle(q, cfg, biggest, Some(frame), []);
      SteadyFrame(second.status.(didNotifyFullConfidence := false), cfg, biggest, frame);
    }
  }

  // ---------------------------------------------------------------------
  // The ramp with detection passes

  /** An action of a run that keeps a document in view: a timer tick, or a frame with
      pixels on which the detector would find a rectangle. */
  ghost predicate KeepsDocument(biggest: seq<Quad> -> Option<Quad>, a: Action) {
    a.TimerFired? || (a.VideoFrame? && a.sample.Some? && biggest(a.detected).Some?)
  }

  /** How many video frames a run holds. */
  function FrameCount(actions: seq<Action>): nat {
    if actions == [] then 0 else (if actions[0].VideoFrame? then 1 else 0) + FrameCount(actions[1..])
  }

  /** The score `c` raised by `n` steps, clamped at 100. */
  function Clamped(c: int, n: nat, step: nat): int {
    if c + n * step > MaxConfidence then MaxConfidence else c + n * step
  }

  /** A running, analysing view with a rectangle cached; a capture runs only at 100. */
  ghost predicate Locked(s: Status, cfg: Settings) {
    !s.isStopped && !s.forceStop && cfg.borderDetection && s.lastRectangle.Some? &&
    0 <= s.confidence <= MaxConfidence && (s.isCapturing ==> s.confidence == MaxConfidence)
  }

  /** One action of such a run: a tick changes no score, a frame raises it by one
      clamped step (or is ignored at 100 while capturing), and the view stays locked. */
  lemma LockedStep(s: Status, cfg: Settings, biggest: seq<Quad> -> Option<Quad>, a: Action)
    requires Locked(s, cfg) && KeepsDocument(biggest, a)
    ensures var t := Apply(s, cfg, biggest, a);
            Locked(t, cfg) &&
            t.confidence == Clamped(s.confidence, if a.VideoFrame? then 1 else 0, ConfidenceSpeed(cfg.detector)) &&
            (a.VideoFrame? && t.confidence < MaxConfidence ==>
               FrameStep(s, cfg, biggest, a.sample, a.detected).decision.Tracking? &&
               t.didNotifyFullConfidence == s.didNotifyFullConfidence) &&
            (a.VideoFrame? && s.confidence < MaxConfidence <= t.confidence && !s.didNotifyFullConfidence ==>
               FrameStep(s, cfg, biggest, a.sample, a.detected).decision.FullConfidence?) &&
            (a.TimerFired? ==> t.didNotifyFullConfidence == s.didNotifyFullConfidence)
  {
    if a.VideoFrame? {
      if s.isCapturing {
        FrameIgnoredWhenBlocked(s, cfg, biggest, a.sample, a.detected);
      } else {
        FrameCadence(s, cfg, biggest, a.sample, a.detected);
        FrameRaisesConfidence(s, cfg, biggest, a.sample, a.detected);
        FrameLatch(s, cfg, biggest, a.sample, a.detected);
        FrameKeepsLifecycle(s, cfg, biggest, a.sample, a.detected);
      }
    }
  }

  /** However the 0.5 s timer interleaves with the frames, a run that keeps a document
      in view raises the score by one step per frame, clamped at 100. */
  lemma {:induction false} RampWithDetection(s: Status, cfg: Settings, biggest: seq<Quad> -> Option<Quad>,
                                             actions: seq<Action>)
    requires Locked(s, cfg)
    requires forall i :: 0 <= i < |actions| ==> KeepsDocument(biggest, actions[i])
    ensures Locked(Run(s, cfg, biggest, actions), cfg)
    ensures Run(s, cfg, biggest, actions).confidence ==
              Clamped(s.confidence, FrameCount(actions), ConfidenceSpeed(cfg.detector))
    decreases |actions|
  {
    if actions != [] {
      var step := ConfidenceSpeed(cfg.detector);
      var k := FrameCount(actions[1..]);
      LockedStep(s, cfg, biggest, actions[0]);
      RampWithDetection(Apply(s, cfg, biggest, actions[0]), cfg, biggest, actions[1..]);
      assert (k + 1) * step == k * step + step;
    }
  }

  /** Starting below 100 with the latch clear, such a run fires full confidence exactly
      once if it holds enough frames to reach 100, and not at all otherwise. */
  lemma {:induction false} RampFiresOnce(s: Status, cfg: Settings, biggest: seq<Quad> -> Option<Quad>,
                                         actions: seq<Action>)
    requires Locked(s, cfg) && s.confidence < MaxConfidence && !s.didNotifyFullConfidence
    requires forall i :: 0 <= i < |actions| ==> KeepsDocument(biggest, actions[i])
    ensures FullCount(Decisions(s, cfg, biggest, actions)) ==
              if s.confidence + FrameCount(actions) * ConfidenceSpeed(cfg.detector) >= MaxConfidence then 1 else 0
    decreases |actions|
  {
    if actions != [] {
      var step := ConfidenceSpeed(cfg.detector);
      var a := actions[0];
      var t := Apply(s, cfg, biggest, a);
      var k := FrameCount(actions[1..]);
      var rest := Decisions(t, cfg, biggest, actions[1..]);
      LockedStep(s, cfg, biggest, a);
      assert (k + 1) * step == k * step + step;
      if t.confidence < MaxConfidence {
        RampFiresOnce(t, cfg, biggest, actions[1..]);
      } else {
        FullConfidenceAtMostOncePerLatch(t, cfg, biggest, actions[1..]);
        FrameLatch(s, cfg, biggest, a.sample, a.detected);
      }
      if a.VideoFrame? {
        var d := FrameStep(s, cfg, biggest, a.sample, a.detected).decision;
        assert ([d] + rest)[1..] == rest;
      }
    }
  }

  /** From score 0 with the latch clear, a run that keeps a document in view fires full
      confidence exactly once and ends at 100 when it holds FramesToFull frames, timer
      ticks included anywhere; with fewer frames it never fires. */
  lemma DocumentInViewReachesFull(s: Status, cfg: Settings, biggest: seq<Quad> -> Option<Quad>,
                                  actions: seq<Action>)
    requires Locked(s, cfg) && s.confidence == 0 && !s.didNotifyFullConfidence
    requires forall i :: 0 <= i < |actions| ==> KeepsDocument(biggest, actions[i])
    ensures FrameCount(actions) >= FramesToFull(cfg.detector) ==>
              Run(s, cfg, biggest, actions).confidence == MaxConfidence &&
              FullCount(Decisions(s, cfg, biggest, actions)) == 1
    ensures FrameCount(actions) < FramesToFull(cfg.detector) ==>
              Run(s, cfg, biggest, actions).confidence == FrameCount(actions) * ConfidenceSpeed(cfg.detector) &&
              FullCount(Decisions(s, cfg, biggest, actions)) == 0
  {
    var step := ConfidenceSpeed(cfg.detector);
    var n := FrameCount(actions);
    var full := FramesToFull(cfg.detector);
    RampWithDetection(s, cfg, biggest, actions);
    RampFiresOnce(s, cfg, biggest, actions);
    if n >= full {
      assert n * step == full * step + (n - full) * step;
    } else {
      assert (full - 1) * step == n * step + (full - 1 - n) * step;
    }
  }

  /** The accuracy detector needs 100 frames in a row, the performance detector 34. */
  lemma RampLengths()
    ensures FramesToFull(Accuracy) == 100
    ensures FramesToFull(Performance) == 34
  {
  }
}
