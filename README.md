# divine_camera controller state machines in Dafny

This project models the `CameraController` classes of the `divine_camera`
Flutter plugin: the AVFoundation controller on iOS and the CameraX controller
on Android. Both keep a small state machine behind a lot of platform plumbing:

- device-session fields: lens, zoom range and current zoom, flash and torch,
  the paused flag, and "initialized";
- runtime controls: zoom clamping, and a string-driven flash/torch update with
  its projection back to a mode string;
- a recording controller: start and stop guards, the max-duration auto-stop,
  the iOS asset-writer session and the Android recorder events;
- the iOS per-sample routing of the capture delegate;
- pure mappings: quality table, lens string, state snapshot, and the Android
  4:3 / 16:9 sensor choice.

Hardware is abstract. A device is present or absent. A configuration lock
succeeds or fails. Binding yields a camera or an exception message. The writer
reports a status, and an input is ready or not. Recorder events, the preview's
surface request, the max-duration timer firing and the delayed Android stop
completion are explicit method calls. Work the source posts to a dispatch
queue or the main looper runs to the end inside the method that posts it.

Modules:

- `CameraCommon` (`camera_common.dfy`): shared values. These are `Option`,
  `Outcome`, the lens, the flash request, the two zoom clamps and the
  `CameraState` snapshot.
- `IosFrameRouter` (`ios_frame_router.dfy`): the routing decision for one
  sample, and the writer-call log discipline it keeps.
- `IosCamera` (`ios_camera.dfy`): presets, flash, device, the recording
  functions, and `class CameraController`. The class fields are four records:
  `DeviceSession`, `Controls`, `FrameSlot` and `RecordingSession`.
- `AndroidRecording` (`android_recording.dfy`): the `VideoRecordEvent`
  listener as a pure step function, and lemmas over runs of events.
- `AndroidCamera` (`android_camera.dfy`): quality, flash, aspect ratio,
  availability, capability refresh, and `class CameraController`. Its fields
  are `UseCases`, `Controls`, `isPaused`, `RecorderState` and the current
  recording's `Listener`.
- `CrossPlatform` (`cross_platform.dfy`): where the two flash updates agree.

Behaviours a caller may not expect:

- An unknown flash mode returns `true` on both platforms.
- iOS `resumePreview` never fails. Android `resumePreview` fails with "Camera
  not initialized" unless it has both a provider and a camera.
- Android `pausePreview` only sets the flag. iOS also stops the session and
  drops samples.
- On iOS "on" sets only the flash mode, so a lit torch stays lit and the mode
  still reads "torch". Android "on" turns the torch off.
- The Android start callback is not delivered by `startRecording` itself. It
  comes with the first `Status` event that reports recorded frames.
- On Android, a second `stopRecording` issued before both the Finalize event
  and the first stop's 200 ms completion passes the guard, because
  `isRecording` is cleared only by Finalize and the recording only by that
  completion. Its delayed
  completion runs after the first one has cleared the file, so it reports
  "Recording file not found", not "Not recording".
- Android `release` leaves the auto-stop runnable, the auto-stop callback, the
  recording file and the pending stop completions in place. It shuts the
  executor down for good.
- Android `recordingStartTime` is never reset.

## Model

Paths are relative to the repository root. `CameraController.swift` is
`mobile/packages/divine_camera/ios/Classes/CameraController.swift`, and
`CameraController.kt` is
`mobile/packages/divine_camera/android/src/main/kotlin/co/openvine/divine_camera/CameraController.kt`;
the table gives them in full.

| member | source | states |
|---|---|---|
| CameraCommon.LensRoundTrip | mobile/packages/divine_camera/ios/Classes/CameraController.swift:89 | the lens is front exactly for the string "front"; parsing inverts naming; every other string gives the back lens (the same test is at CameraController.kt:93-97) |
| CameraCommon.FlashRequestRoundTrip | mobile/packages/divine_camera/ios/Classes/CameraController.swift:376-404 | the four mode strings and their requests are inverse to each other; every other string is the "other" request |
| CameraCommon.SwiftClamp | mobile/packages/divine_camera/ios/Classes/CameraController.swift:454 | `max(lo, min(v, hi))` lies in the range, is `v` inside it, is the in-range point nearest `v`, and is `lo` on an empty range |
| CameraCommon.CoerceIn | mobile/packages/divine_camera/android/src/main/kotlin/co/openvine/divine_camera/CameraController.kt:595 | `coerceIn` fails exactly on an empty range; otherwise it is in range, is `v` inside it, and is the in-range point nearest `v` |
| CameraCommon.ClampsAgree | mobile/packages/divine_camera/android/src/main/kotlin/co/openvine/divine_camera/CameraController.kt:595 | on every non-empty range the Kotlin and Swift clamps give the same zoom |
| CameraCommon.ClampIdempotent | mobile/packages/divine_camera/ios/Classes/CameraController.swift:454 | clamping an already clamped zoom changes nothing |
| IosFrameRouter.RouteSample | mobile/packages/divine_camera/ios/Classes/CameraController.swift:800-853 | a paused controller ignores every sample; the preview slot is updated exactly for unpaused video with an image; the session opens exactly on a recorded video frame while writing and not yet started; video is appended exactly when writing and ready, and only into an open session; audio is appended exactly when recording, started, writing and ready |
| IosFrameRouter.RouteCalls | mobile/packages/divine_camera/ios/Classes/CameraController.swift:829-851 | the writer calls of one sample are the start, video and audio calls the route selects, once each |
| IosFrameRouter.SessionStartedAtMostOnce | mobile/packages/divine_camera/ios/Classes/CameraController.swift:829-837 | a writer log in discipline holds exactly one session start if the session flag is set and none otherwise, and every audio append comes after the start |
| IosFrameRouter.RouteKeepsWriterLog | mobile/packages/divine_camera/ios/Classes/CameraController.swift:829-851 | routing any sample keeps the log discipline, with the session flag set exactly when the route opens the session |
| IosCamera.QualityPreset | mobile/packages/divine_camera/ios/Classes/CameraController.swift:92-111 | an unknown quality string gives 1920x1080; "uhd" gives 4K exactly from iOS 9 on |
| IosCamera.QualityTableRoundTrip | mobile/packages/divine_camera/ios/Classes/CameraController.swift:92-111 | every preset is selected by its own name, and distinct known strings select distinct presets |
| IosCamera.EffectivePreset | mobile/packages/divine_camera/ios/Classes/CameraController.swift:123-129 | the session gets the wanted preset when it supports it, and `.high` exactly when it does not |
| IosCamera.FlashRoundTrip | mobile/packages/divine_camera/ios/Classes/CameraController.swift:370-409 | after "off", "auto" or "torch" the mode reads back as written; after "on" it reads "on" unless the torch was lit; an unknown mode changes nothing; the mode reads "torch" exactly when the torch is on (projection at CameraController.swift:724-738) |
| IosCamera.DeviceTorchUpdate | mobile/packages/divine_camera/ios/Classes/CameraController.swift:378-402 | `setFlashMode` changes only the device's torch mode, and only to a mode the device supports: "off", "auto" and "torch" select their torch mode when supported; "on" and unknown modes leave the device alone |
| IosCamera.WithProperties | mobile/packages/divine_camera/ios/Classes/CameraController.swift:291-306 | the zoom range becomes 1 to the device ceiling capped at 10 (exactly 10 above that); the current zoom, `hasFlash` and both point-of-interest capabilities come from the device; the aspect ratio is the format's width over height; flash, torch and availability are kept |
| IosCamera.Begin | mobile/packages/divine_camera/ios/Classes/CameraController.swift:556-569 | an accepted start is recording with a fresh writer and an unstarted session, with URL and start time set; the timer is armed only for a positive limit |
| IosCamera.StopResult | mobile/packages/divine_camera/ios/Classes/CameraController.swift:609-680 | stopping without a recording or writer reports "Not recording"; a failed writer reports "Recording failed: " with its error; a finished writer without an output URL reports "Output URL not available"; success delivers the file, the elapsed time (0 without a start time) and the track's absolute size, defaulting to 1920x1080 |
| IosCamera.AfterStop | mobile/packages/divine_camera/ios/Classes/CameraController.swift:609-680 | a refused stop changes nothing; an accepted stop clears the recording flag and the timer; the writer, URL, start time and session flag are reset after the finish, except on the "Output URL not available" path; the recorder invariant is kept |
| IosCamera.StopIsNotRepeatable | mobile/packages/divine_camera/ios/Classes/CameraController.swift:609-612 | a stop after any stop reports "Not recording" and changes nothing |
| IosCamera.BeginThenStop | mobile/packages/divine_camera/ios/Classes/CameraController.swift:556-680 | a recording begun with an empty writer keeps the invariant; its stop delivers the file, the elapsed time and the track size, or reports the failure; the recorder is left idle with no writer, timer or URL |
| IosCamera.CameraController.GetCameraState | mobile/packages/divine_camera/ios/Classes/CameraController.swift:704-721 | the snapshot: initialised exactly when a session exists, the recording flag, the flash string `FlashModeString` of the setting ("torch" exactly when the torch is on), the lens name that parses back to the current lens, the zoom range and aspect ratio, the five capability flags (`hasFlash`, front and back availability, focus- and exposure-point support), and the stored texture id |
| IosCamera.CameraController.constructor | mobile/packages/divine_camera/ios/Classes/CameraController.swift:58-82 | the initial fields, with front and back availability set exactly when a camera at that position was discovered |
| IosCamera.CameraController.Initialize | mobile/packages/divine_camera/ios/Classes/CameraController.swift:88-255 | the lens and quality are set first; no device gives "No camera available for position"; a failing input gives its error with the device recorded; success starts the session with the effective preset, reads the device properties, registers the texture and returns the snapshot |
| IosCamera.CameraController.SwitchCamera | mobile/packages/divine_camera/ios/Classes/CameraController.swift:309-367 | no session gives "Session not available"; no device gives "No camera available for position"; a throwing input re-adds the old one and reports the error; a rejected input leaves none attached and still succeeds; success switches the device and lens and keeps the texture |
| IosCamera.CameraController.SetFlashMode | mobile/packages/divine_camera/ios/Classes/CameraController.swift:370-409 | it succeeds exactly with a device and a successful lock, including for an unknown mode; on success the fields are `FlashUpdate` of the old ones and only the device torch changes; on failure nothing changes |
| IosCamera.CameraController.SetFocusPoint | mobile/packages/divine_camera/ios/Classes/CameraController.swift:412-428 | it succeeds exactly with a device that supports a focus point and a successful lock |
| IosCamera.CameraController.SetExposurePoint | mobile/packages/divine_camera/ios/Classes/CameraController.swift:431-447 | it succeeds exactly with a device that supports an exposure point and a successful lock |
| IosCamera.CameraController.SetZoomLevel | mobile/packages/divine_camera/ios/Classes/CameraController.swift:450-464 | with no device or a failed lock nothing changes and it returns false; otherwise the controller and the device store exactly the clamped level, which lies within the zoom range and equals the request when in range |
| IosCamera.CameraController.StartRecording | mobile/packages/divine_camera/ios/Classes/CameraController.swift:467-581 | while recording it reports "Already recording" and changes nothing; a writer error or a missing device is reported with only the limit and URL recorded; an accepted start is `Begin` with a writer of portrait size (height, width) |
| IosCamera.CameraController.StopRecording | mobile/packages/divine_camera/ios/Classes/CameraController.swift:609-680 | the completion is `StopResult` and the new recorder is `AfterStop` of the old one |
| IosCamera.CameraController.AutoStopRecording | mobile/packages/divine_camera/ios/Classes/CameraController.swift:584-596 | a no-op unless recording; otherwise it stops as `stopRecording` does, leaves no timer, and notifies exactly a successful result |
| IosCamera.CameraController.PausePreview | mobile/packages/divine_camera/ios/Classes/CameraController.swift:683-688 | the slot is paused and a present session stops |
| IosCamera.CameraController.ResumePreview | mobile/packages/divine_camera/ios/Classes/CameraController.swift:691-701 | the slot is unpaused, a present session runs, and the snapshot is returned |
| IosCamera.CameraController.Release | mobile/packages/divine_camera/ios/Classes/CameraController.swift:741-779 | session, device, input, writer and slot are dropped and the texture is -1; the snapshot then reads not initialized, not recording, texture -1 |
| IosCamera.CameraController.CopyPixelBuffer | mobile/packages/divine_camera/ios/Classes/CameraController.swift:785-794 | the slot's buffer; nil exactly when the slot is empty, otherwise the stored sample's own image |
| IosCamera.CameraController.CaptureOutput | mobile/packages/divine_camera/ios/Classes/CameraController.swift:800-853 | the slot, the session flag and the writer log change exactly as `RouteSample` and `RouteCalls` say; a frame is announced exactly when the slot is updated with a texture registered; a paused controller changes nothing |
| AndroidRecording.LongToInt | mobile/packages/divine_camera/android/src/main/kotlin/co/openvine/divine_camera/CameraController.kt:783 | `Long.toInt()` lies in the 32-bit range, is congruent to its argument modulo 2^32, and is the identity within range |
| AndroidRecording.FinishedResult | mobile/packages/divine_camera/android/src/main/kotlin/co/openvine/divine_camera/CameraController.kt:779-791 | there is a result exactly when the file is set and exists, carrying the truncated elapsed time and the preview size; otherwise "Recording file not found" (the same block is at CameraController.kt:707-719) |
| AndroidRecording.Step | mobile/packages/divine_camera/android/src/main/kotlin/co/openvine/divine_camera/CameraController.kt:654-725 | Start only sets `isRecording`; the start callback fires exactly on a recorded `Status` before the listener fired, setting the start time and arming the runnable only for a positive limit and changing no other field; Finalize keeps the start time and clears `isRecording` and the runnable, answers an installed auto-stop callback and then clears it with the recording and the file |
| AndroidRecording.StartCallbackAtMostOnce | mobile/packages/divine_camera/android/src/main/kotlin/co/openvine/divine_camera/CameraController.kt:646-691 | over any run of events the start callback fires once if the listener had not fired and some status reports recorded frames, and never otherwise |
| AndroidRecording.AutoStopAnsweredAtMostOnce | mobile/packages/divine_camera/android/src/main/kotlin/co/openvine/divine_camera/CameraController.kt:706-723 | over any run of events an installed auto-stop callback is answered exactly once if a Finalize comes, and stays installed otherwise |
| AndroidRecording.RunnableOnlyFromRecordedStatus | mobile/packages/divine_camera/android/src/main/kotlin/co/openvine/divine_camera/CameraController.kt:673-686 | a run that starts with no runnable ends with one only if a recorded status came to an unfired listener with a positive limit, and then it is that limit; a run ending in Finalize has none |
| AndroidRecording.RunnableStaysOrClears | mobile/packages/divine_camera/android/src/main/kotlin/co/openvine/divine_camera/CameraController.kt:666-697 | once the listener has fired, no event posts another runnable; the posted one stays or is removed |
| AndroidRecording.LastFinalizeClears | mobile/packages/divine_camera/android/src/main/kotlin/co/openvine/divine_camera/CameraController.kt:693-697 | a run ending in Finalize leaves the recording stopped with no runnable |
| AndroidCamera.QualityFor | mobile/packages/divine_camera/android/src/main/kotlin/co/openvine/divine_camera/CameraController.kt:99-107 | an unknown quality gives FHD, and FHD comes exactly from "fhd" or an unknown string |
| AndroidCamera.QualityTableRoundTrip | mobile/packages/divine_camera/android/src/main/kotlin/co/openvine/divine_camera/CameraController.kt:99-107 | every quality is selected by its own name, and distinct known strings select distinct qualities |
| AndroidCamera.FlashRoundTrip | mobile/packages/divine_camera/android/src/main/kotlin/co/openvine/divine_camera/CameraController.kt:509-544 | every known mode reads back as written; "torch" keeps the flash mode; an unknown mode changes nothing; the mode reads "torch" exactly when the torch is on (projection at CameraController.kt:849-857) |
| AndroidCamera.ChooseRatio | mobile/packages/divine_camera/android/src/main/kotlin/co/openvine/divine_camera/CameraController.kt:166-196 | 4:3 exactly when the sensor ratio is strictly nearer 4/3 than 16/9, which is exactly below 14/9; a tie or a zero height gives 16:9 |
| AndroidCamera.BestAspectRatioIs4x3 | mobile/packages/divine_camera/android/src/main/kotlin/co/openvine/divine_camera/CameraController.kt:150-207 | the search gives 4:3 exactly when some camera faces the target with a sensor size nearer 4:3, and every camera before it is readable and not deciding |
| AndroidCamera.CameraController.GetBestAspectRatio | mobile/packages/divine_camera/android/src/main/kotlin/co/openvine/divine_camera/CameraController.kt:150-207 | the loop returns `BestAspectRatio`: the first deciding camera's choice, and 16:9 on an exception or when none decides |
| AndroidCamera.FacingSeenBeforeFailure | mobile/packages/divine_camera/android/src/main/kotlin/co/openvine/divine_camera/CameraController.kt:129-144 | the scan finds a facing exactly when a camera with it comes before every unreadable camera |
| AndroidCamera.CheckCameraAvailability | mobile/packages/divine_camera/android/src/main/kotlin/co/openvine/divine_camera/CameraController.kt:129-144 | the loop's flags are the scan's result for front and back |
| AndroidCamera.StartRefresh | mobile/packages/divine_camera/android/src/main/kotlin/co/openvine/divine_camera/CameraController.kt:347-360 | the zoom range and current zoom are copied from the zoom state, or 1.0 without one; flash comes from the camera; focus and exposure are supported; nothing else changes |
| AndroidCamera.SwitchRefresh | mobile/packages/divine_camera/android/src/main/kotlin/co/openvine/divine_camera/CameraController.kt:478-490 | the switch refresh is the start refresh with the current zoom reset to 1.0 |
| AndroidCamera.StartOutcome | mobile/packages/divine_camera/android/src/main/kotlin/co/openvine/divine_camera/CameraController.kt:213-368 | `startCamera` answers at once exactly when a check fails, always with an error, "Camera provider not available" first |
| AndroidCamera.CameraController.GetCameraState | mobile/packages/divine_camera/android/src/main/kotlin/co/openvine/divine_camera/CameraController.kt:826-844 | the snapshot: initialised exactly when a camera is bound, the recording flag, the flash string `FlashModeString` of the setting ("torch" exactly when the torch is enabled), the lens name that parses back to the current lens, the zoom range and aspect ratio, the five capability flags (`hasFlash`, front and back availability, focus- and exposure-point support), and the texture id, -1 exactly when no texture is registered |
| AndroidCamera.CameraController.constructor | mobile/packages/divine_camera/android/src/main/kotlin/co/openvine/divine_camera/CameraController.kt:42-81 | the initial fields: back lens, FHD, flash off, zoom 1.0, 16:9 at 1920x1080, nothing bound, not recording |
| AndroidCamera.CameraController.Initialize | mobile/packages/divine_camera/android/src/main/kotlin/co/openvine/divine_camera/CameraController.kt:86-110 | the lens and quality are set, and the availability flags gain the scan's result |
| AndroidCamera.CameraController.OnProviderReady | mobile/packages/divine_camera/android/src/main/kotlin/co/openvine/divine_camera/CameraController.kt:111-123 | a failing provider reports "Failed to get camera provider: " with its message and changes nothing; otherwise the provider is stored and `startCamera` runs |
| AndroidCamera.CameraController.StartCamera | mobile/packages/divine_camera/android/src/main/kotlin/co/openvine/divine_camera/CameraController.kt:213-368 | the completion is `StartOutcome`; the failed checks change nothing, or only drop the texture; otherwise the new texture, the rebuilt use cases with the sensor's ratio and a fresh surface provider, the bound camera and the refreshed capabilities |
| AndroidCamera.CameraController.OnSurfaceRequest | mobile/packages/divine_camera/android/src/main/kotlin/co/openvine/divine_camera/CameraController.kt:269-312 | any installed provider records the resolution and aspect ratio; the `startCamera` provider answers once, with the snapshot and its own texture id or "Failed to create preview surface"; the `switchCamera` provider answers nothing |
| AndroidCamera.CameraController.SwitchCamera | mobile/packages/divine_camera/android/src/main/kotlin/co/openvine/divine_camera/CameraController.kt:374-504 | the lens is set before any check; the provider and LifecycleOwner errors; a binding failure reports "Failed to switch camera: " with its message; success rebinds, keeps the texture, resets the zoom to 1.0 and returns the snapshot |
| AndroidCamera.CameraController.SetFlashMode | mobile/packages/divine_camera/android/src/main/kotlin/co/openvine/divine_camera/CameraController.kt:509-544 | it fails exactly without a camera or when the torch call of a known mode throws, changing nothing; otherwise the fields are `FlashUpdate` of the old ones |
| AndroidCamera.CameraController.SetFocusPoint | mobile/packages/divine_camera/android/src/main/kotlin/co/openvine/divine_camera/CameraController.kt:549-565 | it succeeds exactly with a camera and a metering call that does not throw |
| AndroidCamera.CameraController.SetExposurePoint | mobile/packages/divine_camera/android/src/main/kotlin/co/openvine/divine_camera/CameraController.kt:570-586 | it succeeds exactly with a camera and a metering call that does not throw |
| AndroidCamera.CameraController.SetZoomLevel | mobile/packages/divine_camera/android/src/main/kotlin/co/openvine/divine_camera/CameraController.kt:591-604 | it fails without a camera, on an empty range or when the zoom call throws, changing nothing; otherwise it stores exactly `coerceIn(level, min, max)`, which lies in range and equals the request when in range |
| AndroidCamera.CameraController.StartRecording | mobile/packages/divine_camera/android/src/main/kotlin/co/openvine/divine_camera/CameraController.kt:611-734 | the guards run in order: "Video capture not initialized", "Already recording", "Audio permission not granted", each changing nothing; then the file is set; a throwing start reports its message; otherwise a recording with a fresh listener for the limit; `isRecording` is not set here |
| AndroidCamera.CameraController.OnRecordEvent | mobile/packages/divine_camera/android/src/main/kotlin/co/openvine/divine_camera/CameraController.kt:654-725 | the listener, the recorder fields and what is delivered are exactly `Step` of the old ones |
| AndroidCamera.CameraController.AutoStopRecording | mobile/packages/divine_camera/android/src/main/kotlin/co/openvine/divine_camera/CameraController.kt:740-759 | a no-op without a running recording; otherwise the auto-stop callback is installed before the stop |
| AndroidCamera.CameraController.StopRecording | mobile/packages/divine_camera/android/src/main/kotlin/co/openvine/divine_camera/CameraController.kt:764-800 | "Not recording" without a running recording; a throwing stop reports its message; both change nothing; otherwise one more delayed completion is pending |
| AndroidCamera.CameraController.StopDelayElapsed | mobile/packages/divine_camera/android/src/main/kotlin/co/openvine/divine_camera/CameraController.kt:777-793 | the completion is `FinishedResult` of the file as it then is; the file and the recording are dropped |
| AndroidCamera.CameraController.PausePreview | mobile/packages/divine_camera/android/src/main/kotlin/co/openvine/divine_camera/CameraController.kt:805-808 | only the paused flag is set |
| AndroidCamera.CameraController.ResumePreview | mobile/packages/divine_camera/android/src/main/kotlin/co/openvine/divine_camera/CameraController.kt:813-821 | the paused flag is cleared; the snapshot is returned exactly with a provider and a camera, otherwise "Camera not initialized" |
| AndroidCamera.CameraController.Release | mobile/packages/divine_camera/android/src/main/kotlin/co/openvine/divine_camera/CameraController.kt:862-888 | recording, provider, camera, preview, video capture and texture are dropped and the executor is shut; the snapshot then reads not initialized, not recording, texture -1 (snapshot at CameraController.kt:826-844) |
| CrossPlatform.FlashPlatformsAgree | mobile/packages/divine_camera/ios/Classes/CameraController.swift:370-409 | from states reporting the same mode, the same mode string keeps the two platforms reporting alike, except exactly "on" with the iOS torch lit (Android side at CameraController.kt:509-544) |

## Left out

- AndroidCamera.CameraController.AutoStopRecording: Kotlin calls `stop()` on the recording without a try/catch, so a throw there escapes the max-duration runnable; the model has no uncaught exceptions and only installs the callback.

- Capture sessions, device inputs and outputs, `bindToLifecycle`, surface
  objects and the texture registry: abstract success, failure or present and
  absent inputs.
- Dispatch queues, `Timer`, `Handler.postDelayed`, the 200 ms stop delay and
  main-thread hops. Each posted block runs at once, except the Android
  surface request, recorder events, auto-stop runnable and delayed stop
  completion, which are methods of their own. No interleaving is modelled.
- Floating point: zoom factors and ratios are exact reals, so `Float`
  rounding is not modelled. This includes the zero-height sensor, whose
  infinite or NaN ratio is modelled by the outcome of its comparisons.
- The file system, the wall clock and track reading are inputs: file
  existence, the current time in ms, the track's transformed size, the output
  URL and file.
- The iOS asset-writer pre-warm, audio input setup, encoder settings and
  debug logging.
- The focus and exposure coordinates beyond their guards, and pixel buffer
  contents.
- The `NotificationCenter` auto-stop broadcast and the `onAutoStopListener`
  channel call. The model delivers the auto-stop result and stops there.
- The plugin dispatch layers (`DivineCameraPlugin.kt`,
  `DivineCameraPlugin.swift`) and the app's `MainActivity.kt` and
  `AppDelegate.swift`.
- CameraX `Recording.stop()` on a stopped recording, and a late Finalize event
  that reaches a superseded listener, are not modelled beyond what the
  listener step does with them.
- The try/catch around Android `release`: the model's release cannot throw.
- The Android executor after `release` is a flag; a later initialize does not
  model the shut executor's use.
- AndroidCamera.CameraController.OnSurfaceRequest: requires a positive
  resolution, which CameraX guarantees; a zero-height resolution would make
  the Kotlin `Float` ratio infinite.
- IosCamera.CameraController.Initialize: requires the device to satisfy
  `DeviceOk` (zoom ceiling at least 1 and a non-degenerate format), which
  AVFoundation guarantees.
- IosCamera.CameraController.SwitchCamera: requires `DeviceOk` of the new
  device, as for Initialize.
