# IRLDocumentScanner camera view in Dafny

This project models the camera view of IRLDocumentScanner (`IRLCameraView`). For each live video frame it decides whether a document rectangle is in view. It keeps a confidence score, draws an overlay and reports to its delegate. When confidence is full, it captures, corrects and crops a still photo on its own. The model covers two revisions of the class:

- `Scanner` models `Source/IRLCameraView.swift`, the live revision.
  - The pure functions `FrameStep`, `CaptureStep`, `StillStep` and `SetupStep` each describe one transition of the view's state (`Status`).
  - The class `Scanner.CameraView` has the source's fields. Each of its methods is proved to perform exactly the matching transition.
  - The `Frame*` lemmas state what one frame does: the guard, the detection cadence, losing and gaining confidence, the full-confidence latch, the notifications, and the invariant.
- `ScannerRuns` puts the events the view reacts to into one `Action` type and proves properties over any sequence of actions. The events are frames, timer ticks, the latch cooldown, start/stop, app activity changes, capture requests, capture completions, camera setup and window changes. The public configuration stays fixed during a run.
- `LegacyScanner` models `Source/Private/IRLCameraView.swift`, an older revision. Its frame handler is commented out and its capture method only calls back with no image.
- `Imaging` and `Orientation` hold the values both revisions share:
  - Core Image values, as terms built from uninterpreted operations;
  - rectangle features;
  - the UIKit, AVFoundation and ImageIO orientation enumerations, with the Exif orientation values.

Inputs the view cannot compute itself are parameters:

- the frame's pixels (a frame number, or none for an invalid buffer);
- the rectangles the detector reports on a frame or still;
- the "biggest rectangle" selection, which is the class's function-valued constant `biggestRectangle`;
- whether a camera exists, whether the view is in a window, the status-bar orientation, and the OS-version test;
- the still capture's data.

Delegate calls are appended to an event log (`events`). The 0.5 s timer and the 2 s latch cooldown are the methods `EnableBorderDetectFrame` and `ClearFullConfidenceLatch`.

Some behaviour of the code is easy to misread; the model follows it:

- `start()` (Source/IRLCameraView.swift:301-311) resets only `isStopped` and `isCapturing`. The score, the latch, the cadence flag and the cached rectangle all survive a restart.
- A still-capture completion that receives data calls `stop()`; one without data returns before stopping (Source/IRLCameraView.swift:353-356). Neither lowers `isCapturing`. Only `start()` does (`ScannerRuns.CaptureGuardOnlyClearedByStart`). After an automatic capture has started, every frame is ignored until the next `start()` (`ScannerRuns.CapturingViewIgnoresFrames`). So a continuing document does not fire full confidence a second time after the cooldown, unless the capture was refused (`ScannerRuns.FireThenCaptureOrRefire`).
- `didGainFullDetectionConfidence` is sent only from the completion of the capture that the frame handler asks for. If the capture guard refuses that capture, the delegate never hears of full confidence.
- `isCurrentlyFocusing` is never set to true in the live code. The invariant `Scanner.Inv` records that it stays false, so the focus mark is never drawn (`Scanner.FrameShowsOverlay`).
- The full-confidence threshold is the literal 100 (`>= 100`). No lower threshold is configurable: perspective correction of a still needs a score above 1.

## Model

| member | source | states |
|---|---|---|
| Orientation.RawValue | Source/IRLCameraView.swift:178-193 | the Exif value of a property orientation is in 1..8, and it is one of 2, 4, 5, 7 exactly for the mirrored orientations |
| Orientation.FromRawValue | Source/IRLCameraView.swift:193 | an Exif value names a property orientation exactly when it is in 1..8 |
| Orientation.RawValueRoundTrip | Source/IRLCameraView.swift:193 | decoding the raw value gives the orientation back, so distinct orientations have distinct raw values |
| Orientation.FromRawValueRoundTrip | Source/IRLCameraView.swift:193 | every value in 1..8 is the raw value of the orientation it decodes to |
| Scanner.ConfidenceSpeed | Source/IRLCameraView.swift:35-42 | the score step is 1 exactly for the accuracy detector and 3 for performance |
| Scanner.Raise | Source/IRLCameraView.swift:572-573 | adding the step then clamping keeps a score within [old, 100]; the result is old + step or 100, and it is 100 exactly when old + step reaches 100 |
| Scanner.OverlayAlpha | Source/IRLCameraView.swift:575-576 | the highlight alpha is non-negative for a non-negative score, never above 0.8, equals 0.8 exactly from score 80 on, and is score/100 up to 80 |
| Scanner.VideoOrientationFor | Source/IRLCameraView.swift:159-166 | every known status-bar orientation maps to the video orientation of the same name; unknown maps to portrait |
| Scanner.VideoOrientationCovers | Source/IRLCameraView.swift:159-166 | every video orientation is produced by some status-bar orientation |
| Scanner.ImageOrientationFor | Source/IRLCameraView.swift:168-176 | the still orientation is never mirrored; it is "up" exactly for landscape-right and unknown |
| Scanner.ImageOrientationDistinct | Source/IRLCameraView.swift:168-176 | the four known status-bar orientations give four different image orientations |
| Scanner.ImagePropertyOrientation | Source/IRLCameraView.swift:178-194 | the Int32 passed to applyingOrientation is in 1..8 and is a mirrored Exif value exactly for mirrored image orientations |
| Scanner.ImagePropertyOrientationInjective | Source/IRLCameraView.swift:178-194 | distinct image orientations give distinct Exif values |
| Scanner.ApplyFilter | Source/IRLCameraView.swift:534-541 | the image is left unchanged exactly for the normal view; otherwise exactly one filter is layered on top of it, the enhance filter or the ultra-contrast filter with the 0.3 gradient |
| Scanner.ApplyFilterDistinguishesViewTypes | Source/IRLCameraView.swift:534-541 | different view types give different filtered images of the same frame |
| Scanner.ConfidenceHighEnough | Source/IRLCameraView.swift:150-152 | the perspective-correction gate passes only from score 2; every score at or above the full-confidence threshold passes it; a score that fails it is at most one accuracy step |
| Scanner.CaptureStep | Source/IRLCameraView.swift:329-331 | with a still output, a window and no capture running, the capture guard goes up and nothing else changes; otherwise nothing changes, in particular while a capture runs |
| Scanner.FrameIgnoredWhenBlocked | Source/IRLCameraView.swift:525-530 | a frame arriving while backgrounded, stopped or capturing, or without pixels, changes nothing, shows nothing and notifies nobody |
| Scanner.FrameUnanalysedWithoutBorderDetection | Source/IRLCameraView.swift:543-550 | with border detection off, a frame leaves the whole state as it was and shows the filtered frame |
| Scanner.FrameCadence | Source/IRLCameraView.swift:552-556 | the detector runs exactly on an analysed frame with the cadence flag set; that frame clears the flag and caches the biggest detected rectangle or none; every other frame keeps flag and cache |
| Scanner.FrameStep | Source/IRLCameraView.swift:520-621 | the frame handler as one transition; it has no contract of its own, and its properties are the `Scanner.Frame*` lemmas below |
| Scanner.RectangleStep | Source/IRLCameraView.swift:558-613 | the switch on the cached rectangle; no contract of its own, stated by `Scanner.FrameLosesConfidence`, `Scanner.FrameRaisesConfidence`, `Scanner.FrameLatch` and `Scanner.FrameNotifies` |
| Scanner.TrackStep | Source/IRLCameraView.swift:570-613 | the tracked-rectangle branch; no contract of its own, stated by `Scanner.FrameRaisesConfidence`, `Scanner.FrameLatch` and `Scanner.FrameShowsOverlay` |
| Scanner.Overlay | Source/IRLCameraView.swift:575-590 | the three drawing steps; no contract of its own, stated by `Scanner.CameraView.DrawOverlays` and `Scanner.FrameShowsOverlay` |
| Scanner.FrameLosesConfidence | Source/IRLCameraView.swift:558-620 | with no rectangle cached the score becomes 0 whatever it was, focusing stops, the decision is Lost, a lost-confidence event is sent, the filtered frame is shown without overlays and the last corrected image is kept |
| Scanner.FrameRaisesConfidence | Source/IRLCameraView.swift:570-596 | with a rectangle cached the score is raised by the step and clamped, the corrected frame is the filtered frame corrected with that rectangle, and the new score is reported |
| Scanner.FrameLatch | Source/IRLCameraView.swift:598-612 | full confidence fires exactly when a rectangle is tracked at score 100 with the latch clear; firing sets the latch and only firing does; it fires at 100; the capture guard rises only when firing and the capture is accepted |
| Scanner.FrameNotifies | Source/IRLCameraView.swift:558-596 | each frame appends exactly the events its decision calls for: lost, or detected with the new score, or nothing |
| Scanner.FrameLosesWhenNothingDetected | Source/IRLCameraView.swift:552-568 | when a detection pass finds no rectangle, none is cached, the decision is Lost, the score drops to 0 and a lost-confidence event is sent |
| Scanner.FrameCachesDetected | Source/IRLCameraView.swift:552-556 | after a detection pass the cached rectangle, if any, is one of the rectangles the detector reported |
| Scanner.FrameShowsOverlay | Source/IRLCameraView.swift:570-590 | a tracked frame shows the filtered frame highlighted over the cached rectangle at the new score's alpha, centre-marked on that rectangle exactly when centre drawing is on, and never focus-marked |
| Scanner.FrameKeepsLifecycle | Source/IRLCameraView.swift:520-621 | a frame changes none of stopped, backgrounded, still output and window |
| Scanner.FrameKeepsInvariant | Source/IRLCameraView.swift:567-573 | a frame keeps the score in [0, 100] and focusing off |
| Scanner.PreparedStill | Source/IRLCameraView.swift:368-380 | the still rotated on iOS 10 and colour-filtered; no contract of its own, stated by `Scanner.FinalImage` |
| Scanner.FinalImage | Source/IRLCameraView.swift:358-395 | an image comes back exactly for decodable data; without border detection it is the decoded still; with it, the still is rotated (iOS 10) and filtered, corrected only when the score is above 1 and a rectangle is found, always cropped by 20, and uprighted only before iOS 10 |
| Scanner.StillCorrectedWithDetected | Source/IRLCameraView.swift:382-386 | a still is perspective-corrected only with a rectangle the detector found on that still |
| Scanner.StillStep | Source/IRLCameraView.swift:349-401 | without data the image is nil and the view keeps running; with any data the view stops; either way the capture guard stays up, the score and latch are untouched, and an automatic capture reports full confidence with the image (possibly nil); no other field changes |
| Scanner.SetupStep | Source/IRLCameraView.swift:243-271 | with a camera, the score resets to 0 and the still output is installed, nothing else changes; without one nothing changes |
| Scanner.CameraView.constructor | Source/IRLCameraView.swift:53-57 | all flags false, score 0, nothing cached, accuracy detector, border detection, centre and focus drawing off, normal colours |
| Scanner.CameraView.SetupCameraView | Source/IRLCameraView.swift:243-299 | performs SetupStep and keeps the invariant |
| Scanner.CameraView.Start | Source/IRLCameraView.swift:301-311 | clears stopped and capturing and nothing else |
| Scanner.CameraView.Stop | Source/IRLCameraView.swift:313-319 | sets stopped and nothing else |
| Scanner.CameraView.EnableBorderDetectFrame | Source/IRLCameraView.swift:427-429 | the timer tick sets the cadence flag and nothing else |
| Scanner.CameraView.ClearFullConfidenceLatch | Source/IRLCameraView.swift:609-612 | the cooldown clears the latch and nothing else |
| Scanner.CameraView.BackgroundMode | Source/IRLCameraView.swift:431-433 | sets forceStop and nothing else |
| Scanner.CameraView.ForegroundMode | Source/IRLCameraView.swift:435-437 | clears forceStop and nothing else |
| Scanner.CameraView.CaptureImage | Source/IRLCameraView.swift:327-331 | reports whether the capture was accepted and performs CaptureStep |
| Scanner.CameraView.CompleteStillCapture | Source/IRLCameraView.swift:349-401 | performs StillStep and returns its image |
| Scanner.CameraView.CaptureOutput | Source/IRLCameraView.swift:520-621 | performs FrameStep: new state, decision and displayed image |
| Scanner.CameraView.TrackCachedRectangle | Source/IRLCameraView.swift:558-613 | performs the cached-rectangle half of a frame |
| Scanner.CameraView.TrackRectangle | Source/IRLCameraView.swift:570-613 | raises the score, corrects, draws, reports and fires at 100 exactly as TrackStep says |
| Scanner.CameraView.DrawOverlays | Source/IRLCameraView.swift:575-590 | while not focusing: the result is never focus-marked, it is centre-marked on the rectangle exactly when centre drawing is on, and under that mark is the frame highlighted over the rectangle at the score's alpha; it equals Overlay |
| Scanner.CameraView.FireFullConfidence | Source/IRLCameraView.swift:598-601 | sets the latch and performs CaptureStep |
| ScannerRuns.ApplyKeepsInvariant | Source/IRLCameraView.swift:520-621 | every action keeps the score in [0, 100] and focusing off |
| ScannerRuns.RunKeepsInvariant | Source/IRLCameraView.swift:567-573 | so does every sequence of actions |
| ScannerRuns.LatchOnlyClearedByCooldown | Source/IRLCameraView.swift:598-612 | once set, the latch stays set under every action but the cooldown |
| ScannerRuns.FullConfidenceAtMostOncePerLatch | Source/IRLCameraView.swift:598-612 | without a cooldown, any run fires full confidence at most once, and never if the latch was already set |
| ScannerRuns.CadenceOnlySetByTimer | Source/IRLCameraView.swift:427-429 | only the timer tick sets the cadence flag |
| ScannerRuns.AtMostOneDetectionPerTick | Source/IRLCameraView.swift:552-556 | without a timer tick, any run runs the detector at most once, and never if the flag was clear |
| ScannerRuns.StoppedStep | Source/IRLCameraView.swift:313-314 | a stopped view stays stopped under every action but start, and ignores a frame |
| ScannerRuns.StoppedViewIgnoresFrames | Source/IRLCameraView.swift:525 | after stop and until start, every frame of any run is ignored |
| ScannerRuns.CaptureGuardOnlyClearedByStart | Source/IRLCameraView.swift:301-304 | the capture guard stays up under every action but start, including capture completion |
| ScannerRuns.CapturingViewIgnoresFrames | Source/IRLCameraView.swift:329-331 | while a capture runs and until start, every frame of any run is ignored |
| ScannerRuns.FramesToFull | Source/IRLCameraView.swift:572-573 | the number of steps to full confidence is the least n with n·step ≥ 100 |
| ScannerRuns.SteadyFrame | Source/IRLCameraView.swift:570-613 | on a running, analysing view with a rectangle cached and no detection due, a frame raises the score by one clamped step and fires exactly at 100 |
| ScannerRuns.RampBeforeFull | Source/IRLCameraView.swift:572-573 | from score 0, with no detection pass due, n frames below the full count leave the score at n·step with the rectangle still cached |
| ScannerRuns.RampDecisions | Source/IRLCameraView.swift:572-598 | with no detection pass due, frame n reports Tracking(n·step) before the full count and FullConfidence(100) on it |
| ScannerRuns.LockedStep | Source/IRLCameraView.swift:552-601 | on a running, analysing view with a rectangle cached, a timer tick or a frame on which a rectangle is detected keeps the view so; the tick keeps the score and latch, the frame raises the score by one clamped step, reports Tracking below 100 and fires on reaching 100 with the latch clear |
| ScannerRuns.RampWithDetection | Source/IRLCameraView.swift:552-573 | with timer ticks anywhere in the run, a run that keeps a document in view ends at the starting score plus one step per frame, clamped at 100 |
| ScannerRuns.RampFiresOnce | Source/IRLCameraView.swift:598-612 | from below 100 with the latch clear, such a run fires full confidence exactly once if its frames reach 100 and never otherwise |
| ScannerRuns.DocumentInViewReachesFull | Source/IRLCameraView.swift:572-601 | from 0, such a run with at least FramesToFull frames ends at 100 having fired once; with fewer it ends at frames·step and has not fired |
| ScannerRuns.RampLengths | Source/IRLCameraView.swift:35-42 | full confidence takes 100 frames with the accuracy detector and 34 with performance |
| ScannerRuns.FireThenCaptureOrRefire | Source/IRLCameraView.swift:598-612 | at score 100 the view fires; after an accepted capture the next frame is ignored; after a refused one the next frame reports 100 and the first frame after the cooldown fires again |
| LegacyScanner.ClampMinimum | Source/Private/IRLCameraView.swift:50-56 | the stored minimum is at most 100; it equals the assigned value exactly when that is at most 100, and is 100 otherwise |
| LegacyScanner.ClampMinimumIdempotent | Source/Private/IRLCameraView.swift:50-56 | assigning the stored value again changes nothing |
| LegacyScanner.ConfidenceHighEnough | Source/Private/IRLCameraView.swift:144-146 | the CGFloat gate "score > 1.0"; no contract of its own, stated by `LegacyScanner.ConfidenceGatesAgree` |
| LegacyScanner.ConfidenceGatesAgree | Source/Private/IRLCameraView.swift:144-146 | the CGFloat gate "score > 1.0" agrees with the live integer gate on whole scores |
| LegacyScanner.ImagePropertyOrientation | Source/Private/IRLCameraView.swift:167-178 | each image orientation maps to a property orientation that is mirrored exactly when it is |
| LegacyScanner.ImagePropertyOrientationInjective | Source/Private/IRLCameraView.swift:167-178 | the mapping is injective |
| LegacyScanner.PropertyOrientationAgreesWithLive | Source/Private/IRLCameraView.swift:167-178 | the live revision returns the raw value of exactly this property orientation |
| LegacyScanner.StartStep | Source/Private/IRLCameraView.swift:284-291 | start clears stopped and capturing, creates the 0.3 gradient only when there is none, keeps an existing one, and changes nothing else |
| LegacyScanner.StartIdempotent | Source/Private/IRLCameraView.swift:284-291 | starting twice is starting once, so repeated starts keep the same gradient |
| LegacyScanner.CameraView.constructor | Source/Private/IRLCameraView.swift:50-57 | minimum 66, maximum 100, all flags false, score 0, no gradient, no session |
| LegacyScanner.CameraView.SetMaximumConfidenceForFullDetection | Source/Private/IRLCameraView.swift:57 | the assignment stores the value as given and changes nothing else |
| LegacyScanner.CameraView.SetMinimumConfidenceForFullDetection | Source/Private/IRLCameraView.swift:50-56 | the assignment stores ClampMinimum of the value and changes nothing else |
| LegacyScanner.CameraView.SetupCameraView | Source/Private/IRLCameraView.swift:226-282 | without a camera nothing changes; with one the score resets to 0, and the session is stored only when the data output has a connection |
| LegacyScanner.CameraView.Start | Source/Private/IRLCameraView.swift:284-298 | performs StartStep; it needs a stored session, which it force-unwraps |
| LegacyScanner.CameraView.Stop | Source/Private/IRLCameraView.swift:300-306 | sets stopped and nothing else, so a second stop changes nothing |
| LegacyScanner.CameraView.EnableBorderDetectFrame | Source/Private/IRLCameraView.swift:328-330 | sets the cadence flag and nothing else |
| LegacyScanner.CameraView.BackgroundMode | Source/Private/IRLCameraView.swift:332-334 | sets forceStop and nothing else |
| LegacyScanner.CameraView.ForegroundMode | Source/Private/IRLCameraView.swift:336-338 | clears forceStop and nothing else |
| LegacyScanner.CameraView.CaptureImage | Source/Private/IRLCameraView.swift:314-316 | the completion is called exactly once, with no image, and no field changes |
| LegacyScanner.CameraView.CaptureOutput | Source/Private/IRLCameraView.swift:410-528 | a frame changes no field: the method may modify nothing |

## Left out

- Camera device and session work is not modelled: device discovery, inputs and outputs, focus and exposure modes, the torch, and `focus(at:)`. `setupCameraView` is reduced to three inputs: whether a camera exists, the score reset, and whether the still output or session gets stored.
- OpenGL and Core Image rendering is not modelled: the GLK view, drawing, `presentRenderbuffer`, snapshots and `hideGLKView`. `shown` is the image the frame handler would draw. The handler also returns early when no GL context exists, and the model does not capture that.
- Core Image operations are uninterpreted: filters, perspective correction, overlays, cropping and UIImage conversion. Their bodies are not part of this model. `makeUIImage` and `orientationCorrecterUIImage` are assumed to succeed on an image.
- The rectangle detector, the area comparison of `biggestRectangle(inRectangles:)` and the detector options are not modelled. The detector is abstracted as the list of rectangles it reports. The selection is a function constrained only to return one of the rectangles it is given (`Scanner.Selects`), which the live view's constructor requires.
- Concurrency and timing are not modelled: dispatch queues, the 0.5 s timer, the 2 s `asyncAfter` and the asynchronous still capture. Each becomes an explicit action, and any interleaving of actions is allowed. The model does not check that a still-capture completion follows an accepted capture.
- The timer's lifecycle is not modelled. `start()` schedules a new timer without invalidating the old one, and `stop()` invalidates only the latest one.
- Scanner.FrameNotifies: the detected-rectangle event carries the frame's score. The source reads the score when the main queue delivers the event, so it may report a later value.
- Weak-self checks are not modelled. Delegate calls and the completion are taken to reach a live view and delegate.
- `maximumConfidenceForFullDetection` is never read by either revision. The legacy class keeps it as a field with its setter. The live revision's field is not modelled.
- `isTorchEnabled`, `hasFlash`, `overlayColor` and the colours and amplitude of the overlay marks are not modelled. They only affect drawing.
- `cameraViewType`'s blur animation, the orientation-change choreography, `createSnapshot`, `removeGLKView` and `deinit` are not modelled. They are UIKit only.
- The commented-out Objective-C body of the legacy frame handler is dead code and is not modelled.
- The legacy `setupCameraView` also replaces `captureDevice`, and its `createGLKView` runs only once. Neither is modelled, because neither affects the modelled fields.
- CGFloat values are not modelled as floating point. They are exact reals: the highlight alpha, and the legacy score as `real`.
- The live score is an unbounded `int`. It stays in [0, 100], so Swift's `Int` overflow cannot occur.
- ScannerRuns.Apply: assignments to the public configuration (`detectorType`, `isBorderDetectionEnabled`, `cameraViewType`, `isDrawCenterEnabled`, `isShowAutoFocusEnabled`; Source/IRLCameraView.swift:53-57, 83) are not actions. Every run uses one fixed configuration. The class `Scanner.CameraView` keeps these as fields, but no method changes them.
- LegacyScanner.CameraView.Stop: requires a stored session, because `stop()` force-unwraps `captureSession` (Source/Private/IRLCameraView.swift:302). The crash a call without a session would cause is not modelled. `LegacyScanner.CameraView.Start` requires the same for `startRunning()` at line 293.
- Scanner.CameraView.DrawOverlays: requires that the view is not focusing. This is the focusing half of the class invariant, which every caller holds. The focus-mark branch stays in its body and in `Overlay`, but no contract covers a call made while focusing.
