/** The AVFoundation camera controller of the iOS plugin
 *  (`ios/Classes/CameraController.swift`): the device-session fields, the
 *  runtime controls, the asset-writer recording state machine and the
 *  preview slot fed by the capture delegate.
 *
 *  The hardware is abstract: a device is present or absent, a configuration
 *  lock succeeds or throws, an input can be added or not, the writer reports
 *  a status. The work the source schedules on its dispatch queues runs to the
 *  end inside the method that schedules it; the max-duration timer firing is
 *  a call to `AutoStopRecording`.
 */
module IosCamera {
  import opened CameraCommon
  import opened IosFrameRouter

  // ---------------------------------------------------------------------------
  // Quality presets

  /** The `AVCaptureSession.Preset` values the controller uses. */
  datatype Preset = Medium | Hd1280x720 | Hd1920x1080 | Hd4K3840x2160 | High | Low

  /** The quality string table of `initialize`; `atLeastIos9` is the
   *  `#available(iOS 9.0, *)` test guarding the 4K preset. */
  function QualityPreset(quality: string, atLeastIos9: bool): (p: Preset)
    ensures quality !in QualityNames ==> p == Hd1920x1080
    ensures quality == "uhd" ==> (p == Hd4K3840x2160 <==> atLeastIos9)
  {
    if quality == "sd" then Medium
    else if quality == "hd" then Hd1280x720
    else if quality == "fhd" then Hd1920x1080
    else if quality == "uhd" then (if atLeastIos9 then Hd4K3840x2160 else Hd1920x1080)
    else if quality == "highest" then High
    else if quality == "lowest" then Low
    else Hd1920x1080
  }

  /** The quality string each preset is selected by. */
  function QualityName(p: Preset): string
  {
    match p
    case Medium => "sd"
    case Hd1280x720 => "hd"
    case Hd1920x1080 => "fhd"
    case Hd4K3840x2160 => "uhd"
    case High => "highest"
    case Low => "lowest"
  }

  /** Every preset is reachable from its own name, and (from iOS 9 on) distinct
   *  known quality strings select distinct presets. */
  lemma QualityTableRoundTrip(p: Preset, a: string, b: string)
    ensures QualityName(p) in QualityNames
    ensures QualityPreset(QualityName(p), true) == p
    ensures a in QualityNames && b in QualityNames && a != b ==>
              QualityPreset(a, true) != QualityPreset(b, true)
  {
  }

  /** The preset the new session ends up with: the wanted one if the session
   *  accepts it, otherwise `.high` (which is also a session's default). */
  function EffectivePreset(wanted: Preset, supported: set<Preset>): (p: Preset)
    ensures p == wanted || p == High
    ensures wanted in supported ==> p == wanted
    ensures wanted !in supported ==> p == High
  {
    if wanted in supported then wanted else High
  }

  // ---------------------------------------------------------------------------
  // Flash and torch

  datatype FlashMode = FlashOff | FlashAuto | FlashOn
  datatype TorchMode = TorchOff | TorchAuto | TorchOn

  /** `currentFlashMode` and `currentTorchMode` together. */
  datatype FlashSetting = FlashSetting(flash: FlashMode, torch: TorchMode)

  /** The field update `setFlashMode` makes once the device is locked. */
  function FlashUpdate(q: FlashRequest, s: FlashSetting): FlashSetting
  {
    match q
    case RequestOff => FlashSetting(FlashOff, TorchOff)
    case RequestAuto => FlashSetting(FlashAuto, TorchAuto)
    case RequestOn => s.(flash := FlashOn)
    case RequestTorch => s.(torch := TorchOn)
    case RequestOther => s
  }

  /** `getFlashModeString`: the torch wins, otherwise the flash mode. */
  function FlashModeString(s: FlashSetting): string
  {
    if s.torch == TorchOn then "torch"
    else match s.flash
      case FlashOff => "off"
      case FlashAuto => "auto"
      case FlashOn => "on"
  }

  /** The projection reads back what the update wrote, except that "on" leaves
   *  a lit torch on and so still reads "torch"; an unknown mode changes nothing. */
  lemma FlashRoundTrip(mode: string, s: FlashSetting)
    ensures mode in {"off", "auto", "torch"} ==> FlashModeString(FlashUpdate(ParseFlashRequest(mode), s)) == mode
    ensures mode == "on" ==>
              FlashModeString(FlashUpdate(ParseFlashRequest(mode), s)) == if s.torch == TorchOn then "torch" else "on"
    ensures mode !in {"off", "auto", "on", "torch"} ==> FlashUpdate(ParseFlashRequest(mode), s) == s
    ensures FlashModeString(s) == "torch" <==> s.torch == TorchOn
    ensures FlashModeString(s) in {"off", "auto", "on", "torch"}
  {
  }

  // ---------------------------------------------------------------------------
  // Hardware

  /** The parts of an `AVCaptureDevice` the controller reads or writes. */
  datatype Device = Device(
    maxZoomFactor: real,      // activeFormat.videoMaxZoomFactor
    zoomFactor: real,         // videoZoomFactor
    hasFlash: bool,
    focusPointSupported: bool,
    exposurePointSupported: bool,
    formatWidth: int,         // active format dimensions, landscape
    formatHeight: int,
    torchModesSupported: set<TorchMode>,
    torchMode: TorchMode)

  /** What AVFoundation guarantees of a device: a zoom ceiling of at least 1
   *  and a non-degenerate active format. */
  predicate DeviceOk(d: Device)
  {
    d.maxZoomFactor >= 1.0 && d.formatWidth > 0 && d.formatHeight > 0
  }

  /** The device side of `setFlashMode`: "off", "auto" and "torch" select their
   *  torch mode when the device supports it; "on" and unknown modes leave the
   *  device alone. */
  function DeviceTorchUpdate(q: FlashRequest, d: Device): (e: Device)
    ensures e == d.(torchMode := e.torchMode)
    ensures e.torchMode != d.torchMode ==> e.torchMode in d.torchModesSupported
    ensures q == RequestOff && TorchOff in d.torchModesSupported ==> e.torchMode == TorchOff
    ensures q == RequestAuto && TorchAuto in d.torchModesSupported ==> e.torchMode == TorchAuto
    ensures q == RequestTorch && TorchOn in d.torchModesSupported ==> e.torchMode == TorchOn
    ensures q == RequestOn || q == RequestOther ==> e == d
  {
    match q
    case RequestOff => if TorchOff in d.torchModesSupported then d.(torchMode := TorchOff) else d
    case RequestAuto => if TorchAuto in d.torchModesSupported then d.(torchMode := TorchAuto) else d
    case RequestTorch => if TorchOn in d.torchModesSupported then d.(torchMode := TorchOn) else d
    case _ => d
  }

  /** Creating an `AVCaptureDeviceInput` and adding it to the session; a
   *  throwing initializer gives its error's description. */
  datatype InputResult = InputAdded | InputRejected | InputThrows(description: string)

  /** The asset writer of the current recording: the portrait video size it was
   *  configured with and the calls made on it so far. */
  datatype AssetWriter = AssetWriter(videoWidth: int, videoHeight: int, calls: seq<WriterCall>)

  /** A sample buffer: its presentation time and its image buffer, if any. */
  datatype Sample = Sample(timestamp: int, imageBuffer: Option<nat>)

  /** How `finishWriting` ends: the writer completed, or it failed with its
   *  error's description, if it has an error. */
  datatype WriterFinish = FinishedWriting | FailedWriting(error: Option<string>)

  /** The failure message of `stopRecording`. */
  function RecordingFailed(error: Option<string>): string
  {
    "Recording failed: " + (if error.Some? then error.value else "Unknown error")
  }

  predicate ArmsTimer(maxDurationMs: Option<int>)
  {
    maxDurationMs.Some? && maxDurationMs.value > 0
  }

  const NoCameraForPosition := "No camera available for position"
  const AlreadyRecording := "Already recording"
  const NotRecording := "Not recording"
  const OutputUrlMissing := "Output URL not available"

  // ---------------------------------------------------------------------------
  // The controller state, in four parts

  /** The capture session, the video device and its input, the lens, the
   *  quality preset and the registered preview texture. */
  datatype DeviceSession = DeviceSession(
    hasSession: bool,            // captureSession != nil
    sessionRunning: bool,
    sessionPreset: Preset,
    videoQualityPreset: Preset,
    videoDevice: Option<Device>,
    hasVideoInput: bool,         // videoInput != nil
    inputAttached: bool,         // the session currently holds videoInput
    currentLens: Lens,
    textureId: int)

  predicate SessionOk(s: DeviceSession)
  {
    && s.textureId >= -1
    && (s.inputAttached ==> s.hasVideoInput)
    && (s.videoDevice.Some? ==> DeviceOk(s.videoDevice.value))
  }

  /** The runtime controls and the capabilities read from the device. */
  datatype Controls = Controls(
    flashMode: FlashMode,
    torchMode: TorchMode,
    minZoom: real,
    maxZoom: real,
    currentZoom: real,
    aspectRatio: real,
    hasFlash: bool,
    isFocusPointSupported: bool,
    isExposurePointSupported: bool,
    hasFrontCamera: bool,
    hasBackCamera: bool)

  /** The zoom range starts at 1 and is capped at 10. */
  predicate ControlsOk(c: Controls)
  {
    c.minZoom == 1.0 <= c.maxZoom <= 10.0
  }

  /** `updateCameraProperties(device:)`: the zoom range, the current zoom, the
   *  capabilities and the aspect ratio are read from the device. */
  function WithProperties(c: Controls, d: Device): (t: Controls)
    requires DeviceOk(d)
    ensures ControlsOk(t)
    ensures t.maxZoom <= d.maxZoomFactor && (d.maxZoomFactor <= 10.0 ==> t.maxZoom == d.maxZoomFactor)
    ensures d.maxZoomFactor >= 10.0 ==> t.maxZoom == 10.0
    ensures t.hasFlash == d.hasFlash
    ensures t.isFocusPointSupported == d.focusPointSupported && t.isExposurePointSupported == d.exposurePointSupported
    ensures t.currentZoom == d.zoomFactor
    ensures t.aspectRatio > 0.0 && t.aspectRatio * d.formatHeight as real == d.formatWidth as real
    ensures t.flashMode == c.flashMode && t.torchMode == c.torchMode
    ensures t.hasFrontCamera == c.hasFrontCamera && t.hasBackCamera == c.hasBackCamera
  {
    c.(minZoom := 1.0, maxZoom := Min(d.maxZoomFactor, 10.0), currentZoom := d.zoomFactor,
       hasFlash := d.hasFlash, isFocusPointSupported := d.focusPointSupported,
       isExposurePointSupported := d.exposurePointSupported,
       aspectRatio := d.formatWidth as real / d.formatHeight as real)
  }

  /** The preview slot the capture delegate fills and the texture reads. */
  datatype FrameSlot = FrameSlot(isPaused: bool, latestSampleBuffer: Option<Sample>, pixelBufferRef: Option<nat>)

  /** The slot holds a sample together with that sample's own image buffer, or nothing. */
  predicate SlotOk(f: FrameSlot)
  {
    && (f.latestSampleBuffer.None? <==> f.pixelBufferRef.None?)
    && (f.latestSampleBuffer.Some? ==>
          f.latestSampleBuffer.value.imageBuffer.Some? && f.pixelBufferRef == f.latestSampleBuffer.value.imageBuffer)
  }

  /** The recording state machine. */
  datatype RecordingSession = RecordingSession(
    isRecording: bool,
    isWriterSessionStarted: bool,
    assetWriter: Option<AssetWriter>,     // writer, its two inputs and the adaptor
    recordingStartTime: Option<int>,
    currentRecordingUrl: Option<string>,
    maxDurationTimer: Option<int>,        // the scheduled timer's interval
    maxDurationMs: Option<int>)

  /** A recording always has its writer, and the writer's log keeps the session discipline. */
  ghost predicate RecordingOk(r: RecordingSession)
  {
    && (r.isRecording ==> r.assetWriter.Some?)
    && (r.assetWriter.Some? ==> WriterLogOk(r.assetWriter.value.calls, r.isWriterSessionStarted))
  }

  /** The recorder once `startRecording` has created writer `w` for
   *  `outputUrl` at time `nowMs`: a timer is armed only for a positive limit. */
  function Begin(r: RecordingSession, maxDurationMs: Option<int>, outputUrl: string, w: AssetWriter, nowMs: int): (t: RecordingSession)
    ensures t.isRecording && !t.isWriterSessionStarted && t.assetWriter == Some(w)
    ensures t.currentRecordingUrl == Some(outputUrl) && t.recordingStartTime == Some(nowMs)
    ensures ArmsTimer(maxDurationMs) ==> t.maxDurationTimer == maxDurationMs
    ensures !ArmsTimer(maxDurationMs) ==> t.maxDurationTimer == r.maxDurationTimer
  {
    r.(maxDurationMs := maxDurationMs, currentRecordingUrl := Some(outputUrl),
       assetWriter := Some(w), isRecording := true, isWriterSessionStarted := false,
       recordingStartTime := Some(nowMs),
       maxDurationTimer := if ArmsTimer(maxDurationMs) then maxDurationMs else r.maxDurationTimer)
  }

  function IntAbs(x: int): nat { if x < 0 then -x else x }

  /** `stopRecording`: the completion it delivers. `finish` is how the
   *  writer's `finishWriting` ended; `videoTrackSize` is the transformed natural
   *  size of the written track, if it has one. */
  function StopResult(s: RecordingSession, finish: WriterFinish, nowMs: int,
                      videoTrackSize: Option<(int, int)>): (r: Outcome<RecordingResult>)
    ensures !s.isRecording || s.assetWriter.None? ==> r == Err(NotRecording)
    ensures s.isRecording && s.assetWriter.Some? && finish.FailedWriting? ==> r == Err(RecordingFailed(finish.error))
    ensures r.Ok? <==> s.isRecording && s.assetWriter.Some? && finish.FinishedWriting? && s.currentRecordingUrl.Some?
    ensures r.Ok? ==> r.value.filePath == s.currentRecordingUrl.value
    ensures r.Ok? ==> r.value.width >= 0 && r.value.height >= 0
    ensures r.Ok? && videoTrackSize.None? ==> r.value.width == 1920 && r.value.height == 1080
    ensures r.Ok? && s.recordingStartTime.Some? ==> r.value.durationMs == nowMs - s.recordingStartTime.value
    ensures r.Ok? && s.recordingStartTime.None? ==> r.value.durationMs == 0
    ensures r.Ok? && videoTrackSize.Some? ==>
              r.value.width == IntAbs(videoTrackSize.value.0) && r.value.height == IntAbs(videoTrackSize.value.1)
    ensures s.isRecording && s.assetWriter.Some? && finish.FinishedWriting? && s.currentRecordingUrl.None? ==>
              r == Err(OutputUrlMissing)
  {
    if !s.isRecording || s.assetWriter.None? then Err(NotRecording)
    else if finish.FailedWriting? then Err(RecordingFailed(finish.error))
    else if s.currentRecordingUrl.None? then Err(OutputUrlMissing)
    else
      var duration := if s.recordingStartTime.Some? then nowMs - s.recordingStartTime.value else 0;
      var size := if videoTrackSize.Some? then (IntAbs(videoTrackSize.value.0), IntAbs(videoTrackSize.value.1))
                  else (1920, 1080);
      Ok(RecordingResult(s.currentRecordingUrl.value, duration, size.0, size.1))
  }

  /** The recorder `stopRecording` leaves: timer cancelled and recording flag
   *  cleared at once; after the writer finishes, the writer, URL, start time
   *  and session flag are reset, except on the "Output URL not available"
   *  path, which returns before that cleanup. A refused stop changes nothing. */
  function AfterStop(s: RecordingSession, finish: WriterFinish): (t: RecordingSession)
    ensures !s.isRecording || s.assetWriter.None? ==> t == s
    ensures s.isRecording && s.assetWriter.Some? ==> !t.isRecording && t.maxDurationTimer.None?
    ensures s.isRecording && s.assetWriter.Some? && (finish.FailedWriting? || s.currentRecordingUrl.Some?) ==>
              t.assetWriter.None? && !t.isWriterSessionStarted && t.currentRecordingUrl.None? && t.recordingStartTime.None?
    ensures t.maxDurationMs == s.maxDurationMs
    ensures RecordingOk(s) ==> RecordingOk(t) && !t.isRecording
  {
    if !s.isRecording || s.assetWriter.None? then s
    else
      var stopped := s.(maxDurationTimer := None, isRecording := false);
      if finish.FinishedWriting? && s.currentRecordingUrl.None? then stopped
      else stopped.(assetWriter := None, currentRecordingUrl := None,
                    recordingStartTime := None, isWriterSessionStarted := false)
  }

  /** A second stop after any stop reports "Not recording" and changes nothing. */
  lemma StopIsNotRepeatable(s: RecordingSession, first: WriterFinish, second: WriterFinish, now: int,
                            size: Option<(int, int)>)
    ensures StopResult(AfterStop(s, first), second, now, size) == Err(NotRecording)
    ensures AfterStop(AfterStop(s, first), second) == AfterStop(s, first)
  {
  }

  /** A recording begun on an idle recorder keeps the recorder invariant; a
   *  completed writer's stop delivers the file, the elapsed time and the
   *  track size, a failed one reports the failure; either way the recorder is
   *  left idle with no writer. */
  lemma BeginThenStop(r: RecordingSession, maxDurationMs: Option<int>, outputUrl: string, w: AssetWriter,
                      startMs: int, finish: WriterFinish, nowMs: int, size: Option<(int, int)>)
    requires w.calls == []
    ensures var b := Begin(r, maxDurationMs, outputUrl, w, startMs);
            && RecordingOk(b)
            && StopResult(b, finish, nowMs, size) ==
                 (if finish.FailedWriting? then Err(RecordingFailed(finish.error))
                  else Ok(RecordingResult(outputUrl, nowMs - startMs,
                                          if size.Some? then IntAbs(size.value.0) else 1920,
                                          if size.Some? then IntAbs(size.value.1) else 1080)))
            && var t := AfterStop(b, finish);
               !t.isRecording && t.assetWriter.None? && t.maxDurationTimer.None? && t.currentRecordingUrl.None?
  {
  }

  /** The controller. Its fields are grouped into the four parts above; each
   *  method updates the parts the source's method touches. */
  class CameraController {
    var session: DeviceSession
    var controls: Controls
    var slot: FrameSlot
    var recording: RecordingSession

    /** The controller invariant. */
    ghost predicate Valid()
      reads this
    {
      SessionOk(session) && ControlsOk(controls) && SlotOk(slot) && RecordingOk(recording)
    }

    function Setting(): FlashSetting
      reads this
    {
      FlashSetting(controls.flashMode, controls.torchMode)
    }

    /** `getCameraState`: the session, the recording flag, the flash string, the
     *  lens name, the zoom, the capabilities and the texture id (-1 before
     *  registration and after release). */
    function GetCameraState(): (r: CameraState)
      reads this
      ensures r.isInitialized <==> session.hasSession
      ensures r.isRecording == recording.isRecording
      ensures r.flashMode in {"off", "auto", "on", "torch"} && (r.flashMode == "torch" <==> controls.torchMode == TorchOn)
      ensures r.lens == "front" <==> session.currentLens == Front
      ensures r.flashMode == FlashModeString(Setting()) && ParseLens(r.lens) == session.currentLens
      ensures r.hasFlash == controls.hasFlash
      ensures r.hasFrontCamera == controls.hasFrontCamera && r.hasBackCamera == controls.hasBackCamera
      ensures r.isFocusPointSupported == controls.isFocusPointSupported
      ensures r.isExposurePointSupported == controls.isExposurePointSupported
      ensures r.zoomLevel == controls.currentZoom && r.minZoomLevel == controls.minZoom
      ensures r.maxZoomLevel == controls.maxZoom && r.aspectRatio == controls.aspectRatio
      ensures r.textureId == session.textureId
    {
      CameraState(session.hasSession, recording.isRecording, FlashModeString(Setting()),
                  LensName(session.currentLens), controls.currentZoom, controls.minZoom, controls.maxZoom,
                  controls.aspectRatio, controls.hasFlash, controls.hasFrontCamera, controls.hasBackCamera,
                  controls.isFocusPointSupported, controls.isExposurePointSupported, session.textureId)
    }

    /** `init` with `checkCameraAvailability`: `discovered` holds the positions
     *  of the wide-angle cameras found (`None` for an unspecified position). */
    constructor (discovered: seq<Option<Lens>>)
      ensures Valid()
      ensures session == DeviceSession(false, false, High, High, None, false, false, Back, -1)
      ensures controls == Controls(FlashOff, TorchOff, 1.0, 1.0, 1.0, 16.0 / 9.0, false, false, false,
                                   Some(Front) in discovered, Some(Back) in discovered)
      ensures slot == FrameSlot(false, None, None)
      ensures recording == RecordingSession(false, false, None, None, None, None, None)
    {
      var front, back := false, false;
      var i := 0;
      while i < |discovered|
        invariant 0 <= i <= |discovered|
        invariant front <==> Some(Front) in discovered[..i]
        invariant back <==> Some(Back) in discovered[..i]
      {
        assert discovered[..i + 1] == discovered[..i] + [discovered[i]];
        if discovered[i] == Some(Front) {
          front := true;
        } else if discovered[i] == Some(Back) {
          back := true;
        }
        i := i + 1;
      }
      assert discovered[..i] == discovered;
      session := DeviceSession(false, false, High, High, None, false, false, Back, -1);
      controls := Controls(FlashOff, TorchOff, 1.0, 1.0, 1.0, 16.0 / 9.0, false, false, false, front, back);
      slot := FrameSlot(false, None, None);
      recording := RecordingSession(false, false, None, None, None, None, None);
    }

    /** `initialize(lens:videoQuality:)` followed by `setupCamera`. `device` is
     *  the wide-angle camera at the requested position, `videoInput` what
     *  creating and adding its input does, `supportedPresets` the presets the
     *  new session accepts, `newTextureId` what the texture registry returns. */
    method Initialize(lens: string, videoQuality: string, atLeastIos9: bool,
                      supportedPresets: set<Preset>, device: Option<Device>,
                      videoInput: InputResult, newTextureId: nat)
      returns (r: Outcome<CameraState>)
      requires Valid()
      requires device.Some? ==> DeviceOk(device.value)
      modifies this
      ensures Valid()
      ensures slot == old(slot) && recording == old(recording)
      ensures r.Ok? <==> device.Some? && videoInput == InputAdded
      ensures var chosen := old(session).(currentLens := ParseLens(lens),
                                          videoQualityPreset := QualityPreset(videoQuality, atLeastIos9));
              && (device.None? ==>
                    r == Err(NoCameraForPosition) && session == chosen && controls == old(controls))
              && (device.Some? && videoInput.InputThrows? ==>
                    && r == Err("Failed to create video input: " + videoInput.description)
                    && session == chosen.(videoDevice := device) && controls == old(controls))
              && (device.Some? && videoInput == InputRejected ==>
                    && r == Err("Cannot add video input")
                    && session == chosen.(videoDevice := device) && controls == old(controls))
              && (r.Ok? ==>
                    && session == chosen.(videoDevice := device, hasVideoInput := true, inputAttached := true,
                                          hasSession := true, sessionRunning := true,
                                          sessionPreset := EffectivePreset(chosen.videoQualityPreset, supportedPresets),
                                          textureId := newTextureId)
                    && controls == WithProperties(old(controls), device.value))
      ensures r.Ok? ==> r.value == GetCameraState() && r.value.isInitialized && r.value.textureId == newTextureId
      ensures r.Ok? && 1.0 <= device.value.zoomFactor <= Min(device.value.maxZoomFactor, 10.0) ==>
                r.value.minZoomLevel <= r.value.zoomLevel <= r.value.maxZoomLevel
    {
      session := session.(currentLens := ParseLens(lens),
                          videoQualityPreset := QualityPreset(videoQuality, atLeastIos9));
      var preset := EffectivePreset(session.videoQualityPreset, supportedPresets);
      if device.None? {
        return Err(NoCameraForPosition);
      }
      session := session.(videoDevice := device);
      if videoInput.InputThrows? {
        return Err("Failed to create video input: " + videoInput.description);
      } else if videoInput == InputRejected {
        return Err("Cannot add video input");
      }
      session := session.(hasVideoInput := true, inputAttached := true);
      controls := WithProperties(controls, device.value);
      session := session.(hasSession := true, sessionRunning := true, sessionPreset := preset);
      session := session.(textureId := newTextureId);
      r := Ok(GetCameraState());
    }

    /** `switchCamera(lens:)`. The preview texture is kept across the switch. */
    method SwitchCamera(lens: string, device: Option<Device>, videoInput: InputResult)
      returns (r: Outcome<CameraState>)
      requires Valid()
      requires device.Some? ==> DeviceOk(device.value)
      modifies this
      ensures Valid()
      ensures slot == old(slot) && recording == old(recording)
      ensures !old(session.hasSession) ==>
                r == Err("Session not available") && session == old(session) && controls == old(controls)
      ensures old(session.hasSession) && device.None? ==>
                r == Err(NoCameraForPosition) && session == old(session) && controls == old(controls)
      ensures old(session.hasSession) && device.Some? && videoInput.InputThrows? ==>
                && r == Err("Failed to switch camera: " + videoInput.description)
                && session == old(session).(inputAttached := old(session.hasVideoInput))
                && controls == old(controls)
      ensures old(session.hasSession) && device.Some? && videoInput == InputRejected ==>
                && r == Ok(GetCameraState())
                && session == old(session).(inputAttached := false) && controls == old(controls)
      ensures old(session.hasSession) && device.Some? && videoInput == InputAdded ==>
                && r == Ok(GetCameraState())
                && session == old(session).(inputAttached := true, hasVideoInput := true,
                                            videoDevice := device, currentLens := ParseLens(lens))
                && controls == WithProperties(old(controls), device.value)
      ensures r.Ok? ==> r.value.textureId == old(session.textureId) && r.value.isInitialized
    {
      if !session.hasSession {
        return Err("Session not available");
      }
      var newPosition := ParseLens(lens);
      if device.None? {
        return Err(NoCameraForPosition);
      }
      // the old input is removed, then the new one added
      if session.hasVideoInput {
        session := session.(inputAttached := false);
      }
      match videoInput {
        case InputThrows(description) =>
          // re-add the old input
          if session.hasVideoInput {
            session := session.(inputAttached := true);
          }
          return Err("Failed to switch camera: " + description);
        case InputRejected =>
        case InputAdded =>
          session := session.(inputAttached := true, hasVideoInput := true,
                              videoDevice := device, currentLens := newPosition);
          controls := WithProperties(controls, device.value);
      }
      r := Ok(GetCameraState());
    }

    /** `setFlashMode(mode:)`. `lockOk` says `lockForConfiguration` succeeded.
     *  What `getFlashModeString` then reports is `FlashRoundTrip`. */
    method SetFlashMode(mode: string, lockOk: bool) returns (ok: bool)
      requires Valid()
      modifies this
      ensures Valid()
      ensures slot == old(slot) && recording == old(recording)
      ensures ok <==> old(session.videoDevice).Some? && lockOk
      ensures !ok ==> session == old(session) && controls == old(controls)
      ensures ok ==>
                var q := ParseFlashRequest(mode);
                && Setting() == FlashUpdate(q, old(Setting()))
                && controls == old(controls).(flashMode := controls.flashMode, torchMode := controls.torchMode)
                && session == old(session).(videoDevice := Some(DeviceTorchUpdate(q, old(session.videoDevice).value)))
    {
      if session.videoDevice.None? || !lockOk {
        return false;
      }
      // the `switch mode`: the torch is set on the device where supported,
      // and the controller's flash and torch fields are updated
      var q := ParseFlashRequest(mode);
      var setting := FlashUpdate(q, Setting());
      session := session.(videoDevice := Some(DeviceTorchUpdate(q, session.videoDevice.value)));
      controls := controls.(flashMode := setting.flash, torchMode := setting.torch);
      ok := true;
    }

    /** `setFocusPoint(x:y:)`: the point itself is not modelled. */
    method SetFocusPoint(x: real, y: real, lockOk: bool) returns (ok: bool)
      ensures ok <==> session.videoDevice.Some? && session.videoDevice.value.focusPointSupported && lockOk
    {
      ok := session.videoDevice.Some? && session.videoDevice.value.focusPointSupported && lockOk;
    }

    /** `setExposurePoint(x:y:)`: the point itself is not modelled. */
    method SetExposurePoint(x: real, y: real, lockOk: bool) returns (ok: bool)
      ensures ok <==> session.videoDevice.Some? && session.videoDevice.value.exposurePointSupported && lockOk
    {
      ok := session.videoDevice.Some? && session.videoDevice.value.exposurePointSupported && lockOk;
    }

    /** `setZoomLevel(level:)`. */
    method SetZoomLevel(level: real, lockOk: bool) returns (ok: bool)
      requires Valid()
      modifies this
      ensures Valid()
      ensures slot == old(slot) && recording == old(recording)
      ensures ok <==> old(session.videoDevice).Some? && lockOk
      ensures !ok ==> session == old(session) && controls == old(controls)
      ensures ok ==>
                var z := SwiftClamp(level, old(controls.minZoom), old(controls.maxZoom));
                && controls == old(controls).(currentZoom := z)
                && session == old(session).(videoDevice := Some(old(session.videoDevice).value.(zoomFactor := z)))
      ensures ok ==> controls.minZoom <= controls.currentZoom <= controls.maxZoom
      ensures ok && controls.minZoom <= level <= controls.maxZoom ==> controls.currentZoom == level
    {
      if session.videoDevice.None? {
        return false;
      }
      var clampedLevel := Max(controls.minZoom, Min(level, controls.maxZoom));
      if !lockOk {
        return false;
      }
      session := session.(videoDevice := Some(session.videoDevice.value.(zoomFactor := clampedLevel)));
      controls := controls.(currentZoom := clampedLevel);
      ok := true;
    }

    /** `startRecording(maxDurationMs:)`. `writerError` is the description
     *  of the error creating `AVAssetWriter` at `outputUrl` throws, if it
     *  does; `nowMs` is the clock at start. The completion's error, or `None`
     *  on success. */
    method StartRecording(maxDurationMs: Option<int>, outputUrl: string, writerError: Option<string>, nowMs: int)
      returns (err: Option<string>)
      requires Valid()
      modifies this
      ensures Valid()
      ensures session == old(session) && controls == old(controls) && slot == old(slot)
      ensures old(recording.isRecording) ==> err == Some(AlreadyRecording) && recording == old(recording)
      ensures err.None? <==> !old(recording.isRecording) && writerError.None? && old(session.videoDevice).Some?
      ensures var tried := old(recording).(maxDurationMs := maxDurationMs, currentRecordingUrl := Some(outputUrl));
              && (!old(recording.isRecording) && writerError.Some? ==>
                    err == Some("Failed to create asset writer: " + writerError.value) && recording == tried)
              && (!old(recording.isRecording) && writerError.None? && old(session.videoDevice).None? ==>
                    err == Some("Video device not available") && recording == tried)
      ensures err.None? ==>
                var d := old(session.videoDevice).value;
                recording == Begin(old(recording), maxDurationMs, outputUrl,
                                   AssetWriter(d.formatHeight, d.formatWidth, []), nowMs)
    {
      if recording.isRecording {
        return Some(AlreadyRecording);
      }
      recording := recording.(maxDurationMs := maxDurationMs, currentRecordingUrl := Some(outputUrl));
      if writerError.Some? {
        return Some("Failed to create asset writer: " + writerError.value);
      }
      if session.videoDevice.None? {
        return Some("Video device not available");
      }
      var d := session.videoDevice.value;
      // portrait frames: the writer's width is the format's height and vice versa
      recording := recording.(assetWriter := Some(AssetWriter(d.formatHeight, d.formatWidth, [])),
                              isRecording := true, isWriterSessionStarted := false,
                              recordingStartTime := Some(nowMs));
      if maxDurationMs.Some? && maxDurationMs.value > 0 {
        recording := recording.(maxDurationTimer := maxDurationMs);
      }
      err := None;
    }

    /** `stopRecording`, with the writer's asynchronous finish folded in. */
    method StopRecording(finish: WriterFinish, nowMs: int, videoTrackSize: Option<(int, int)>)
      returns (r: Outcome<RecordingResult>)
      requires Valid()
      modifies this
      ensures Valid()
      ensures session == old(session) && controls == old(controls) && slot == old(slot)
      ensures r == StopResult(old(recording), finish, nowMs, videoTrackSize)
      ensures recording == AfterStop(old(recording), finish)
    {
      if !recording.isRecording || recording.assetWriter.None? {
        return Err(NotRecording);
      }
      recording := recording.(maxDurationTimer := None, isRecording := false);
      if finish.FinishedWriting? {
        var start := recording.recordingStartTime;
        var duration := if start.Some? then nowMs - start.value else 0;
        if recording.currentRecordingUrl.None? {
          return Err(OutputUrlMissing);
        }
        var width, height := 1920, 1080;
        if videoTrackSize.Some? {
          width, height := IntAbs(videoTrackSize.value.0), IntAbs(videoTrackSize.value.1);
        }
        r := Ok(RecordingResult(recording.currentRecordingUrl.value, duration, width, height));
      } else {
        r := Err(RecordingFailed(finish.error));
      }
      recording := recording.(assetWriter := None, currentRecordingUrl := None,
                              recordingStartTime := None, isWriterSessionStarted := false);
    }

    /** `autoStopRecording`, run when the max-duration timer fires: a no-op
     *  unless recording; otherwise cancels the timer and stops, and a
     *  successful result is the auto-stop notification. */
    method AutoStopRecording(finish: WriterFinish, nowMs: int, videoTrackSize: Option<(int, int)>)
      returns (notification: Option<RecordingResult>)
      requires Valid()
      modifies this
      ensures Valid()
      ensures session == old(session) && controls == old(controls) && slot == old(slot)
      ensures !old(recording.isRecording) ==> notification.None? && recording == old(recording)
      ensures old(recording.isRecording) ==>
                var r := StopResult(old(recording), finish, nowMs, videoTrackSize);
                && recording == AfterStop(old(recording), finish)
                && notification == (if r.Ok? then Some(r.value) else None)
                && !recording.isRecording && recording.maxDurationTimer.None?
    {
      if !recording.isRecording {
        return None;
      }
      recording := recording.(maxDurationTimer := None);
      var r := StopRecording(finish, nowMs, videoTrackSize);
      notification := if r.Ok? then Some(r.value) else None;
    }

    /** `pausePreview`: samples are dropped and the session stops. */
    method PausePreview()
      requires Valid()
      modifies this
      ensures Valid()
      ensures slot == old(slot).(isPaused := true)
      ensures session == old(session).(sessionRunning := old(session.sessionRunning) && !old(session.hasSession))
      ensures controls == old(controls) && recording == old(recording)
    {
      slot := slot.(isPaused := true);
      if session.hasSession {
        session := session.(sessionRunning := false);
      }
    }

    /** `resumePreview`: on iOS it always completes with the state. */
    method ResumePreview() returns (state: CameraState)
      requires Valid()
      modifies this
      ensures Valid()
      ensures slot == old(slot).(isPaused := false)
      ensures session == old(session).(sessionRunning := old(session.sessionRunning) || old(session.hasSession))
      ensures controls == old(controls) && recording == old(recording)
      ensures state == GetCameraState()
    {
      slot := slot.(isPaused := false);
      if session.hasSession {
        session := session.(sessionRunning := true);
      }
      state := GetCameraState();
    }

    /** `release`. Timer, URL, start time and the session flag are left as they were. */
    method Release()
      requires Valid()
      modifies this
      ensures Valid()
      ensures session == old(session).(hasSession := false, sessionRunning := false, videoDevice := None,
                                       hasVideoInput := false, inputAttached := false, textureId := -1)
      ensures slot == old(slot).(latestSampleBuffer := None, pixelBufferRef := None)
      ensures recording == old(recording).(isRecording := false, assetWriter := None)
      ensures controls == old(controls)
      ensures var s := GetCameraState(); !s.isInitialized && !s.isRecording && s.textureId == -1
    {
      if recording.isRecording {
        recording := recording.(isRecording := false);
      }
      session := session.(hasSession := false, sessionRunning := false, videoDevice := None,
                          hasVideoInput := false, inputAttached := false);
      recording := recording.(assetWriter := None);
      if session.textureId >= 0 {
        session := session.(textureId := -1);
      }
      slot := slot.(latestSampleBuffer := None, pixelBufferRef := None);
    }

    /** `copyPixelBuffer`: the preview slot's image buffer, nil exactly when
     *  the slot is empty. */
    method CopyPixelBuffer() returns (p: Option<nat>)
      requires Valid()
      ensures p == slot.pixelBufferRef
      ensures p.None? <==> slot.latestSampleBuffer.None?
      ensures p.Some? ==> slot.latestSampleBuffer.value.imageBuffer == p
    {
      p := slot.pixelBufferRef;
    }

    /** `captureOutput(_:didOutput:from:)`. `status` is the writer's status and
     *  `inputReady` the readiness of the writer input the sample would go to,
     *  both as read for this sample. Returns whether the texture registry is
     *  told that a new frame is available. */
    method CaptureOutput(source: SampleSource, sample: Sample, status: WriterStatus, inputReady: bool)
      returns (frameAvailable: bool)
      requires Valid()
      modifies this
      ensures Valid()
      ensures session == old(session) && controls == old(controls)
      ensures var route := RouteSample(old(slot.isPaused), source, sample.imageBuffer.Some?,
                                       old(recording.isRecording), old(recording.assetWriter).Some?,
                                       old(recording.isWriterSessionStarted), status, inputReady);
              && frameAvailable == (route.updatePreview && old(session.textureId) >= 0)
              && slot == (if route.updatePreview then old(slot).(latestSampleBuffer := Some(sample),
                                                                 pixelBufferRef := sample.imageBuffer)
                          else old(slot))
              && recording == old(recording).(
                   isWriterSessionStarted := old(recording.isWriterSessionStarted) || route.startSession,
                   assetWriter := if old(recording.assetWriter).None? then None
                                  else Some(old(recording.assetWriter).value.(
                                         calls := old(recording.assetWriter).value.calls
                                                  + RouteCalls(route, sample.timestamp))))
      ensures old(slot.isPaused) ==> slot == old(slot) && recording == old(recording) && !frameAvailable
    {
      ghost var route := RouteSample(slot.isPaused, source, sample.imageBuffer.Some?, recording.isRecording,
                                     recording.assetWriter.Some?, recording.isWriterSessionStarted,
                                     status, inputReady);
      if recording.assetWriter.Some? {
        RouteKeepsWriterLog(recording.assetWriter.value.calls, slot.isPaused, source, sample.imageBuffer.Some?,
                            recording.isRecording, recording.isWriterSessionStarted, status, inputReady,
                            sample.timestamp);
      }
      frameAvailable := false;
      var ts := sample.timestamp;
      // a sample that makes no writer call leaves the writer's log as it was
      assert RouteCalls(route, ts) == [] ==> forall c: seq<WriterCall> :: c + RouteCalls(route, ts) == c;
      if slot.isPaused {
        assert RouteCalls(route, ts) == [];
        return;
      }
      if source == VideoOutput {
        if sample.imageBuffer.None? {
          assert route == Ignore && RouteCalls(route, ts) == [];
          return;
        }
        slot := slot.(latestSampleBuffer := Some(sample), pixelBufferRef := sample.imageBuffer);
        frameAvailable := session.textureId >= 0;
        if recording.isRecording && recording.assetWriter.Some? {
          var w := recording.assetWriter.value;
          // the session opens on the first frame seen while writing
          if !recording.isWriterSessionStarted && status == Writing {
            w := w.(calls := w.calls + [StartSession(ts)]);
            recording := recording.(isWriterSessionStarted := true);
          }
          if status == Writing && inputReady {
            w := w.(calls := w.calls + [AppendVideo(ts)]);
          }
          assert w.calls == old(recording.assetWriter).value.calls + RouteCalls(route, ts);
          recording := recording.(assetWriter := Some(w));
        } else {
          assert RouteCalls(route, ts) == [];
        }
      } else if source == AudioOutput {
        var rs := recording;
        if rs.isRecording && rs.assetWriter.Some? && rs.isWriterSessionStarted && status == Writing && inputReady {
          assert RouteCalls(route, ts) == [AppendAudio(ts)];
          recording := rs.(assetWriter := Some(rs.assetWriter.value.(calls := rs.assetWriter.value.calls + [AppendAudio(ts)])));
        } else {
          assert RouteCalls(route, ts) == [];
        }
      } else {
        assert route == Ignore && RouteCalls(route, ts) == [];
      }
    }
  }
}
