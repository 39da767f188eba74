/** The CameraX camera controller of the Android plugin
 *  (`android/.../CameraController.kt`): lens and quality mapping, the
 *  sensor aspect-ratio choice, the use-case handles, the runtime controls,
 *  and the recording commands around the recorder state machine of
 *  `AndroidRecording`.
 *
 *  The hardware is abstract: the provider future succeeds or fails, binding
 *  the use cases yields a camera or throws, camera-control calls throw or
 *  not, the camera list is a sequence of characteristics. Work posted to the
 *  main looper runs at once inside the method that posts it, except the
 *  preview's surface request (`OnSurfaceRequest`), the recorder's events
 *  (`OnRecordEvent`), the auto-stop runnable (`AutoStopRecording`) and the
 *  delayed completion of `stopRecording` (`StopDelayElapsed`), which are
 *  calls of their own.
 */
module AndroidCamera {
  import opened CameraCommon
  import opened AndroidRecording

  // ---------------------------------------------------------------------------
  // Quality

  /** The CameraX `Quality` values the controller selects. */
  datatype Quality = SD | HD | FHD | UHD | Highest | Lowest

  /** The `when (quality)` table of `initialize`. */
  function QualityFor(quality: string): (q: Quality)
    ensures quality !in QualityNames ==> q == FHD
    ensures q == FHD <==> quality == "fhd" || quality !in QualityNames
  {
    if quality == "sd" then SD
    else if quality == "hd" then HD
    else if quality == "fhd" then FHD
    else if quality == "uhd" then UHD
    else if quality == "highest" then Highest
    else if quality == "lowest" then Lowest
    else FHD
  }

  function QualityName(q: Quality): string
  {
    match q
    case SD => "sd"
    case HD => "hd"
    case FHD => "fhd"
    case UHD => "uhd"
    case Highest => "highest"
    case Lowest => "lowest"
  }

  /** Every quality is selected by its own name, and distinct known strings
   *  select distinct qualities. */
  lemma QualityTableRoundTrip(q: Quality, a: string, b: string)
    ensures QualityName(q) in QualityNames
    ensures QualityFor(QualityName(q)) == q
    ensures a in QualityNames && b in QualityNames && a != b ==> QualityFor(a) != QualityFor(b)
  {
  }

  // ---------------------------------------------------------------------------
  // Flash and torch

  /** `ImageCapture.FLASH_MODE_OFF`, `_AUTO`, `_ON`. */
  datatype CaptureFlashMode = ModeOff | ModeAuto | ModeOn

  /** `currentFlashMode` and `isTorchEnabled` together. */
  datatype FlashSetting = FlashSetting(flashMode: CaptureFlashMode, torchEnabled: bool)

  /** The field update of `setFlashMode` once `enableTorch` has returned:
   *  "off", "auto" and "on" switch the torch off and set their mode, "torch"
   *  switches it on and keeps the mode, anything else changes nothing. */
  function FlashUpdate(q: FlashRequest, s: FlashSetting): FlashSetting
  {
    match q
    case RequestOff => FlashSetting(ModeOff, false)
    case RequestAuto => FlashSetting(ModeAuto, false)
    case RequestOn => FlashSetting(ModeOn, false)
    case RequestTorch => s.(torchEnabled := true)
    case RequestOther => s
  }

  /** `getFlashModeString`. */
  function FlashModeString(s: FlashSetting): string
  {
    if s.torchEnabled then "torch"
    else match s.flashMode
      case ModeOff => "off"
      case ModeAuto => "auto"
      case ModeOn => "on"
  }

  /** On Android every known mode reads back as itself; an unknown mode
   *  changes nothing; the projection is "torch" exactly when the torch is on. */
  lemma FlashRoundTrip(mode: string, s: FlashSetting)
    ensures mode in {"off", "auto", "on", "torch"} ==> FlashModeString(FlashUpdate(ParseFlashRequest(mode), s)) == mode
    ensures mode !in {"off", "auto", "on", "torch"} ==> FlashUpdate(ParseFlashRequest(mode), s) == s
    ensures mode == "torch" ==> FlashUpdate(ParseFlashRequest(mode), s).flashMode == s.flashMode
    ensures FlashModeString(s) == "torch" <==> s.torchEnabled
    ensures FlashModeString(s) in {"off", "auto", "on", "torch"}
  {
  }

  // ---------------------------------------------------------------------------
  // Sensor aspect ratio

  /** `AspectRatio.RATIO_4_3` and `AspectRatio.RATIO_16_9`. */
  datatype TargetRatio = Ratio4x3 | Ratio16x9

  /** The comparison of `getBestAspectRatio` for an active array of
   *  `width` x `height`: 4:3 when the sensor ratio is strictly nearer to 4/3
   *  than to 16/9. A zero height makes the float ratio infinite or NaN, and
   *  every comparison with those is false, so the answer is 16:9. Equivalently,
   *  4:3 exactly below the midpoint 14/9; the midpoint itself goes to 16:9. */
  function ChooseRatio(width: int, height: int): (r: TargetRatio)
    ensures r == Ratio4x3 <==>
              height != 0 && Dist(width as real / height as real, 4.0 / 3.0) < Dist(width as real / height as real, 16.0 / 9.0)
    ensures r == Ratio4x3 <==> height != 0 && width as real / height as real < 14.0 / 9.0
  {
    if height == 0 then Ratio16x9
    else
      var sensorRatio := width as real / height as real;
      if Dist(sensorRatio, 4.0 / 3.0) < Dist(sensorRatio, 16.0 / 9.0) then Ratio4x3 else Ratio16x9
  }

  /** `CameraCharacteristics.LENS_FACING_*`. */
  datatype Facing = FacingFront | FacingBack | FacingExternal

  function LensFacing(l: Lens): Facing
  {
    match l
    case Front => FacingFront
    case Back => FacingBack
  }

  /** One id of `cameraManager.cameraIdList`: its characteristics cannot be
   *  read (the call throws), or its facing and active array size, either of
   *  which may be absent. */
  datatype CameraEntry =
    | Unreadable
    | Entry(facing: Option<Facing>, activeArraySize: Option<(int, int)>)

  /** A camera that ends the search: it faces the target and has a sensor size. */
  predicate Decides(target: Facing, e: CameraEntry)
  {
    e.Entry? && e.facing == Some(target) && e.activeArraySize.Some?
  }

  /** What `getBestAspectRatio` returns: the choice for the first deciding
   *  camera; 16:9 when none decides or an unreadable camera comes first. */
  function BestAspectRatio(target: Facing, cams: seq<CameraEntry>): TargetRatio
  {
    if cams == [] then Ratio16x9
    else if cams[0].Unreadable? then Ratio16x9
    else if Decides(target, cams[0]) then ChooseRatio(cams[0].activeArraySize.value.0, cams[0].activeArraySize.value.1)
    else BestAspectRatio(target, cams[1..])
  }

  /** The search picks 4:3 exactly when some camera decides, every camera
   *  before it is readable and undecided, and its sensor is nearer to 4:3. */
  lemma {:induction false} BestAspectRatioIs4x3(target: Facing, cams: seq<CameraEntry>)
    ensures BestAspectRatio(target, cams) == Ratio4x3 <==>
              exists i :: 0 <= i < |cams| && Decides(target, cams[i])
                          && ChooseRatio(cams[i].activeArraySize.value.0, cams[i].activeArraySize.value.1) == Ratio4x3
                          && forall j :: 0 <= j < i ==> cams[j].Entry? && !Decides(target, cams[j])
  {
    if cams != [] && cams[0].Entry? && !Decides(target, cams[0]) {
      BestAspectRatioIs4x3(target, cams[1..]);
      if BestAspectRatio(target, cams) == Ratio4x3 {
        var i :| 0 <= i < |cams[1..]| && Decides(target, cams[1..][i])
                 && ChooseRatio(cams[1..][i].activeArraySize.value.0, cams[1..][i].activeArraySize.value.1) == Ratio4x3
                 && forall j :: 0 <= j < i ==> cams[1..][j].Entry? && !Decides(target, cams[1..][j]);
        assert forall j :: 0 <= j < i + 1 ==> cams[j].Entry? && !Decides(target, cams[j]) by {
          forall j | 0 <= j < i + 1 ensures cams[j].Entry? && !Decides(target, cams[j]) {
            if j > 0 { assert cams[j] == cams[1..][j - 1]; }
          }
        }
        assert cams[i + 1] == cams[1..][i];
      }
      if exists i :: 0 <= i < |cams| && Decides(target, cams[i])
                     && ChooseRatio(cams[i].activeArraySize.value.0, cams[i].activeArraySize.value.1) == Ratio4x3
                     && forall j :: 0 <= j < i ==> cams[j].Entry? && !Decides(target, cams[j]) {
        var i :| 0 <= i < |cams| && Decides(target, cams[i])
                 && ChooseRatio(cams[i].activeArraySize.value.0, cams[i].activeArraySize.value.1) == Ratio4x3
                 && forall j :: 0 <= j < i ==> cams[j].Entry? && !Decides(target, cams[j]);
        assert i > 0;
        assert cams[1..][i - 1] == cams[i];
        assert forall j :: 0 <= j < i - 1 ==> cams[1..][j].Entry? && !Decides(target, cams[1..][j]) by {
          forall j | 0 <= j < i - 1 ensures cams[1..][j].Entry? && !Decides(target, cams[1..][j]) {
            assert cams[1..][j] == cams[j + 1];
          }
        }
      }
    }
  }

  /** `getBestAspectRatio` for the lens facing `target`, as the loop over the camera ids. */
  method GetBestAspectRatio(target: Facing, cams: seq<CameraEntry>) returns (r: TargetRatio)
    ensures r == BestAspectRatio(target, cams)
  {
    var i := 0;
    while i < |cams|
      invariant 0 <= i <= |cams|
      invariant BestAspectRatio(target, cams) == BestAspectRatio(target, cams[i..])
    {
      assert cams[i..][1..] == cams[i + 1..];
      match cams[i] {
        case Unreadable =>
          // getCameraCharacteristics threw: the catch falls through to the default
          return Ratio16x9;
        case Entry(facing, sensorSize) =>
          if facing == Some(target) && sensorSize.Some? {
            return ChooseRatio(sensorSize.value.0, sensorSize.value.1);
          }
      }
      i := i + 1;
    }
    r := Ratio16x9;
  }

  /** Whether the scan of `checkCameraAvailability` meets a camera facing
   *  `f`: it walks the list in order and an unreadable camera ends it. */
  function FacingSeen(cams: seq<CameraEntry>, f: Facing): bool
  {
    if cams == [] || cams[0].Unreadable? then false
    else cams[0].facing == Some(f) || FacingSeen(cams[1..], f)
  }

  /** Some readable camera before the first unreadable one faces `f`. */
  ghost predicate SeenBeforeFailure(cams: seq<CameraEntry>, f: Facing)
  {
    exists i :: 0 <= i < |cams| && cams[i].Entry? && cams[i].facing == Some(f)
                && forall j :: 0 <= j < i ==> cams[j].Entry?
  }

  /** The scan finds a facing exactly when a camera with it comes before
   *  every unreadable one. */
  lemma {:induction false} FacingSeenBeforeFailure(cams: seq<CameraEntry>, f: Facing)
    ensures FacingSeen(cams, f) <==> SeenBeforeFailure(cams, f)
  {
    if cams != [] && cams[0].Entry? {
      FacingSeenBeforeFailure(cams[1..], f);
      if SeenBeforeFailure(cams[1..], f) {
        var i :| 0 <= i < |cams[1..]| && cams[1..][i].Entry? && cams[1..][i].facing == Some(f)
                 && forall j :: 0 <= j < i ==> cams[1..][j].Entry?;
        assert cams[i + 1] == cams[1..][i];
        assert forall j :: 0 <= j < i + 1 ==> cams[j].Entry? by {
          forall j | 0 <= j < i + 1 ensures cams[j].Entry? {
            if j > 0 { assert cams[j] == cams[1..][j - 1]; }
          }
        }
      }
      if SeenBeforeFailure(cams, f) && cams[0].facing != Some(f) {
        var i :| 0 <= i < |cams| && cams[i].Entry? && cams[i].facing == Some(f)
                 && forall j :: 0 <= j < i ==> cams[j].Entry?;
        assert cams[1..][i - 1] == cams[i];
        assert forall j :: 0 <= j < i - 1 ==> cams[1..][j].Entry? by {
          forall j | 0 <= j < i - 1 ensures cams[1..][j].Entry? {
            assert cams[1..][j] == cams[j + 1];
          }
        }
      }
    }
  }

  /** `checkCameraAvailability`: the loop sets a flag for each facing it
   *  meets, and an exception ends it with the flags found so far. */
  method CheckCameraAvailability(cams: seq<CameraEntry>) returns (front: bool, back: bool)
    ensures front == FacingSeen(cams, FacingFront)
    ensures back == FacingSeen(cams, FacingBack)
  {
    front, back := false, false;
    var i := 0;
    while i < |cams| && cams[i].Entry?
      invariant 0 <= i <= |cams|
      invariant FacingSeen(cams, FacingFront) == (front || FacingSeen(cams[i..], FacingFront))
      invariant FacingSeen(cams, FacingBack) == (back || FacingSeen(cams[i..], FacingBack))
    {
      assert cams[i..][1..] == cams[i + 1..];
      if cams[i].facing == Some(FacingFront) {
        front := true;
      } else if cams[i].facing == Some(FacingBack) {
        back := true;
      }
      i := i + 1;
    }
  }

  // ---------------------------------------------------------------------------
  // The controller state

  /** `cameraInfo.zoomState.value`. */
  datatype ZoomState = ZoomState(minZoomRatio: real, maxZoomRatio: real, zoomRatio: real)

  /** A camera `bindToLifecycle` returned: what the controller reads from its `cameraInfo`. */
  datatype BoundCamera = BoundCamera(zoomState: Option<ZoomState>, hasFlashUnit: bool)

  /** The surface provider installed on the current preview: the one of
   *  `startCamera` (which captured the new texture's id and its own
   *  `callbackCalled` flag) or the one of `switchCamera`. */
  datatype SurfaceHandler =
    | NoHandler
    | StartHandler(textureId: nat, callbackCalled: bool)
    | SwitchHandler

  /** The CameraX handles of the controller. */
  datatype UseCases = UseCases(
    hasProvider: bool,                       // cameraProvider != null
    camera: Option<BoundCamera>,
    hasPreview: bool,
    surfaceHandler: SurfaceHandler,
    hasVideoCapture: bool,
    textureEntry: Option<nat>,               // the Flutter texture's id
    targetAspectRatio: Option<TargetRatio>,  // what the preview and recorder were built for
    currentLens: Lens,
    videoQuality: Quality,
    executorShutdown: bool)

  /** The runtime controls and capabilities. */
  datatype Controls = Controls(
    flashMode: CaptureFlashMode,
    isTorchEnabled: bool,
    minZoom: real,
    maxZoom: real,
    currentZoom: real,
    aspectRatio: real,
    videoWidth: int,
    videoHeight: int,
    hasFrontCamera: bool,
    hasBackCamera: bool,
    hasFlash: bool,
    isFocusPointSupported: bool,
    isExposurePointSupported: bool)

  /** The capability refresh of `startCamera` after binding: the zoom range and
   *  the current zoom are copied from the zoom state (1.0 where there is none). */
  function StartRefresh(c: Controls, cam: BoundCamera): (t: Controls)
    ensures cam.zoomState.Some? ==>
              && t.minZoom == cam.zoomState.value.minZoomRatio && t.maxZoom == cam.zoomState.value.maxZoomRatio
              && t.currentZoom == cam.zoomState.value.zoomRatio
    ensures cam.zoomState.None? ==> t.minZoom == t.maxZoom == t.currentZoom == 1.0
    ensures t.hasFlash == cam.hasFlashUnit && t.isFocusPointSupported && t.isExposurePointSupported
    ensures t.(minZoom := c.minZoom, maxZoom := c.maxZoom, currentZoom := c.currentZoom, hasFlash := c.hasFlash,
               isFocusPointSupported := c.isFocusPointSupported,
               isExposurePointSupported := c.isExposurePointSupported) == c
  {
    var z := cam.zoomState;
    c.(minZoom := if z.Some? then z.value.minZoomRatio else 1.0,
       maxZoom := if z.Some? then z.value.maxZoomRatio else 1.0,
       currentZoom := if z.Some? then z.value.zoomRatio else 1.0,
       hasFlash := cam.hasFlashUnit, isFocusPointSupported := true, isExposurePointSupported := true)
  }

  /** The capability refresh of `switchCamera`: as at start, except that the
   *  current zoom is reset to 1.0 whatever the new camera's zoom state says. */
  function SwitchRefresh(c: Controls, cam: BoundCamera): (t: Controls)
    ensures t == StartRefresh(c, cam).(currentZoom := 1.0)
    ensures t.currentZoom == 1.0
  {
    var z := cam.zoomState;
    c.(minZoom := if z.Some? then z.value.minZoomRatio else 1.0,
       maxZoom := if z.Some? then z.value.maxZoomRatio else 1.0,
       currentZoom := 1.0,
       hasFlash := cam.hasFlashUnit, isFocusPointSupported := true, isExposurePointSupported := true)
  }

  /** The use cases once the preview and the video capture are rebuilt for
   *  `ratio` with the surface provider `handler`, and the camera replaced by
   *  the one binding returned (kept when binding threw). */
  function Rebuilt(u: UseCases, ratio: TargetRatio, handler: SurfaceHandler, bound: Outcome<BoundCamera>): UseCases
  {
    u.(targetAspectRatio := Some(ratio), hasPreview := true, surfaceHandler := handler, hasVideoCapture := true,
       camera := if bound.Ok? then Some(bound.value) else u.camera)
  }

  /** What `startCamera` answers at once, in its order of checks: nothing
   *  when it waits for the surface request. */
  function StartOutcome(lifecycleOwner: bool, hasProvider: bool, newTexture: Option<nat>,
                        bound: Outcome<BoundCamera>): (c: Option<Outcome<CameraState>>)
    ensures c.None? <==> hasProvider && lifecycleOwner && newTexture.Some? && bound.Ok?
    ensures c.Some? ==> c.value.Err?
    ensures !hasProvider ==> c == Some(Err(ProviderNotAvailable))
  {
    if !hasProvider then Some(Err(ProviderNotAvailable))
    else if !lifecycleOwner then Some(Err("Activity must be a LifecycleOwner (use FlutterFragmentActivity)"))
    else if newTexture.None? then Some(Err("Failed to create texture"))
    else if bound.Err? then Some(Err("Failed to start camera: " + bound.message))
    else None
  }

  const ProviderNotAvailable := "Camera provider not available"
  const VideoCaptureNotInitialized := "Video capture not initialized"
  const AlreadyRecording := "Already recording"
  const NoAudioPermission := "Audio permission not granted"
  const NotRecording := "Not recording"

  /** The controller. Its fields are grouped into the CameraX handles, the
   *  controls, the paused flag, the recorder state and the current
   *  recording's listener. */
  class CameraController {
    const activityIsLifecycleOwner: bool
    var uses: UseCases
    var controls: Controls
    var isPaused: bool
    var rec: RecorderState
    var listener: Option<Listener>

    /** The controller invariant. */
    ghost predicate Valid()
      reads this
    {
      && (uses.surfaceHandler != NoHandler ==> uses.hasPreview)
      && controls.videoWidth > 0 && controls.videoHeight > 0 && controls.aspectRatio > 0.0
      && (rec.maxDurationRunnable.Some? ==> rec.maxDurationRunnable.value > 0)
      && (rec.hasRecording ==> listener.Some?)
      && (rec.autoStopCallback ==> listener.Some?)
    }

    function Setting(): FlashSetting
      reads this
    {
      FlashSetting(controls.flashMode, controls.isTorchEnabled)
    }

    /** `getCameraState`: the camera, the recording flag, the flash string, the
     *  lens name, the zoom, the capabilities and the preview texture, or -1
     *  when there is none. */
    function GetCameraState(): (r: CameraState)
      reads this
      ensures r.isInitialized <==> uses.camera.Some?
      ensures r.isRecording == rec.isRecording
      ensures r.flashMode in {"off", "auto", "on", "torch"} && (r.flashMode == "torch" <==> controls.isTorchEnabled)
      ensures r.lens == "front" <==> uses.currentLens == Front
      ensures r.flashMode == FlashModeString(Setting()) && ParseLens(r.lens) == uses.currentLens
      ensures r.hasFlash == controls.hasFlash
      ensures r.hasFrontCamera == controls.hasFrontCamera && r.hasBackCamera == controls.hasBackCamera
      ensures r.isFocusPointSupported == controls.isFocusPointSupported
      ensures r.isExposurePointSupported == controls.isExposurePointSupported
      ensures r.zoomLevel == controls.currentZoom && r.minZoomLevel == controls.minZoom
      ensures r.maxZoomLevel == controls.maxZoom && r.aspectRatio == controls.aspectRatio
      ensures r.textureId == -1 <==> uses.textureEntry.None?
      ensures uses.textureEntry.Some? ==> r.textureId == uses.textureEntry.value
    {
      CameraState(uses.camera.Some?, rec.isRecording, FlashModeString(Setting()), LensName(uses.currentLens),
                  controls.currentZoom, controls.minZoom, controls.maxZoom, controls.aspectRatio,
                  controls.hasFlash, controls.hasFrontCamera, controls.hasBackCamera,
                  controls.isFocusPointSupported, controls.isExposurePointSupported,
                  if uses.textureEntry.Some? then uses.textureEntry.value else -1)
    }

    constructor (activityIsLifecycleOwner: bool)
      ensures Valid()
      ensures this.activityIsLifecycleOwner == activityIsLifecycleOwner
      ensures uses == UseCases(false, None, false, NoHandler, false, None, None, Back, FHD, false)
      ensures controls == Controls(ModeOff, false, 1.0, 1.0, 1.0, 16.0 / 9.0, 1920, 1080,
                                   false, false, false, false, false)
      ensures !isPaused && listener.None?
      ensures rec == RecorderState(false, 0, None, false, false, None, 0)
    {
      this.activityIsLifecycleOwner := activityIsLifecycleOwner;
      uses := UseCases(false, None, false, NoHandler, false, None, None, Back, FHD, false);
      controls := Controls(ModeOff, false, 1.0, 1.0, 1.0, 16.0 / 9.0, 1920, 1080, false, false, false, false, false);
      isPaused := false;
      rec := RecorderState(false, 0, None, false, false, None, 0);
      listener := None;
    }

    /** `initialize(lens:quality:)` up to the point where it waits for the
     *  camera provider: the lens, the quality and the availability scan of
     *  the camera list `cams`. */
    method Initialize(lens: string, quality: string, cams: seq<CameraEntry>)
      requires Valid()
      modifies this
      ensures Valid()
      ensures isPaused == old(isPaused) && rec == old(rec) && listener == old(listener)
      ensures uses == old(uses).(currentLens := ParseLens(lens), videoQuality := QualityFor(quality))
      ensures controls == old(controls).(hasFrontCamera := old(controls.hasFrontCamera) || FacingSeen(cams, FacingFront),
                                         hasBackCamera := old(controls.hasBackCamera) || FacingSeen(cams, FacingBack))
    {
      uses := uses.(currentLens := ParseLens(lens), videoQuality := QualityFor(quality));
      var front, back := CheckCameraAvailability(cams);
      controls := controls.(hasFrontCamera := controls.hasFrontCamera || front,
                            hasBackCamera := controls.hasBackCamera || back);
    }

    /** The listener `initialize` puts on the provider future. `providerError`
     *  is the message of the exception `get()` throws, if it does; the other
     *  parameters are those of `StartCamera`. */
    method OnProviderReady(providerError: Option<string>, cams: seq<CameraEntry>, newTexture: Option<nat>,
                           bound: Outcome<BoundCamera>)
      returns (completion: Option<Outcome<CameraState>>)
      requires Valid()
      modifies this
      ensures Valid()
      ensures isPaused == old(isPaused) && rec == old(rec) && listener == old(listener)
      ensures providerError.Some? ==>
                && completion == Some(Err("Failed to get camera provider: " + providerError.value))
                && uses == old(uses) && controls == old(controls)
      ensures providerError.None? ==>
                && uses.hasProvider
                && (!activityIsLifecycleOwner ==> uses == old(uses).(hasProvider := true) && controls == old(controls))
                && (activityIsLifecycleOwner && newTexture.None? ==>
                      uses == old(uses).(hasProvider := true, textureEntry := None) && controls == old(controls))
                && (activityIsLifecycleOwner && newTexture.Some? ==>
                      && uses == Rebuilt(old(uses).(hasProvider := true, textureEntry := newTexture),
                                         BestAspectRatio(LensFacing(old(uses.currentLens)), cams),
                                         StartHandler(newTexture.value, false), bound)
                      && controls == (if bound.Ok? then StartRefresh(old(controls), bound.value) else old(controls)))
                && completion == StartOutcome(activityIsLifecycleOwner, true, newTexture, bound)
    {
      if providerError.Some? {
        return Some(Err("Failed to get camera provider: " + providerError.value));
      }
      uses := uses.(hasProvider := true);
      completion := StartCamera(cams, newTexture, bound);
    }

    /** `startCamera`: the old texture is released and a new one created
     *  (`newTexture`, `None` when Flutter gives no id), the preview and video
     *  capture are rebuilt for the sensor's ratio, the use cases are bound
     *  (`bound`: the camera, or the message of the exception binding throws)
     *  and the capabilities are read from the camera. The success completion
     *  is left to the surface request. */
    method StartCamera(cams: seq<CameraEntry>, newTexture: Option<nat>, bound: Outcome<BoundCamera>)
      returns (completion: Option<Outcome<CameraState>>)
      requires Valid()
      modifies this
      ensures Valid()
      ensures isPaused == old(isPaused) && rec == old(rec) && listener == old(listener)
      ensures completion == StartOutcome(activityIsLifecycleOwner, old(uses.hasProvider), newTexture, bound)
      ensures !old(uses.hasProvider) || !activityIsLifecycleOwner ==> uses == old(uses) && controls == old(controls)
      ensures old(uses.hasProvider) && activityIsLifecycleOwner && newTexture.None? ==>
                uses == old(uses).(textureEntry := None) && controls == old(controls)
      ensures old(uses.hasProvider) && activityIsLifecycleOwner && newTexture.Some? ==>
                && uses == Rebuilt(old(uses).(textureEntry := newTexture),
                                   BestAspectRatio(LensFacing(old(uses.currentLens)), cams),
                                   StartHandler(newTexture.value, false), bound)
                && controls == (if bound.Ok? then StartRefresh(old(controls), bound.value) else old(controls))
    {
      completion := StartOutcome(activityIsLifecycleOwner, uses.hasProvider, newTexture, bound);
      if uses.hasProvider && activityIsLifecycleOwner {
        // unbind everything, release the old texture and create a new one
        uses := uses.(textureEntry := newTexture);
        if newTexture.Some? {
          var targetAspectRatio := GetBestAspectRatio(LensFacing(uses.currentLens), cams);
          // the preview with its surface provider, the video capture, then binding
          uses := Rebuilt(uses, targetAspectRatio, StartHandler(newTexture.value, false), bound);
          if bound.Ok? {
            controls := StartRefresh(controls, bound.value);
          }
        }
      }
    }

    /** CameraX asks the current preview for a surface of `width` x `height`;
     *  `surfaceValid` says the surface made for it is valid. The provider of
     *  `startCamera` answers the initialize call once, with the state and its
     *  own texture id, or with the surface failure; the one of `switchCamera`
     *  only records the resolution. */
    method OnSurfaceRequest(width: int, height: int, surfaceValid: bool)
      returns (completion: Option<Outcome<CameraState>>)
      requires Valid()
      requires width > 0 && height > 0
      modifies this
      ensures Valid()
      ensures isPaused == old(isPaused) && rec == old(rec) && listener == old(listener)
      ensures old(uses.surfaceHandler).NoHandler? ==>
                completion.None? && uses == old(uses) && controls == old(controls)
      ensures !old(uses.surfaceHandler).NoHandler? ==>
                controls == old(controls).(videoWidth := width, videoHeight := height,
                                           aspectRatio := width as real / height as real)
      ensures old(uses.surfaceHandler).SwitchHandler? ==> completion.None? && uses == old(uses)
      ensures old(uses.surfaceHandler).StartHandler? ==>
                var h := old(uses.surfaceHandler);
                && uses == old(uses).(surfaceHandler := h.(callbackCalled := true))
                && (h.callbackCalled ==> completion.None?)
                && (!h.callbackCalled && surfaceValid ==>
                      completion == Some(Ok(GetCameraState().(textureId := h.textureId))))
                && (!h.callbackCalled && !surfaceValid ==>
                      completion == Some(Err("Failed to create preview surface")))
    {
      if uses.surfaceHandler.NoHandler? {
        return None;
      }
      controls := controls.(videoWidth := width, videoHeight := height,
                            aspectRatio := width as real / height as real);
      completion := None;
      if uses.surfaceHandler.StartHandler? && !uses.surfaceHandler.callbackCalled {
        var textureId := uses.surfaceHandler.textureId;
        uses := uses.(surfaceHandler := StartHandler(textureId, true));
        if surfaceValid {
          completion := Some(Ok(GetCameraState().(textureId := textureId)));
        } else {
          completion := Some(Err("Failed to create preview surface"));
        }
      }
    }

    /** `switchCamera(lens:)`: the lens is set before anything can fail; the
     *  texture is kept; the zoom is reset to 1.0. */
    method SwitchCamera(lens: string, cams: seq<CameraEntry>, bound: Outcome<BoundCamera>)
      returns (r: Outcome<CameraState>)
      requires Valid()
      modifies this
      ensures Valid()
      ensures isPaused == old(isPaused) && rec == old(rec) && listener == old(listener)
      ensures uses.currentLens == ParseLens(lens) && uses.textureEntry == old(uses.textureEntry)
      ensures !old(uses.hasProvider) ==>
                r == Err(ProviderNotAvailable) && uses == old(uses).(currentLens := ParseLens(lens))
                && controls == old(controls)
      ensures old(uses.hasProvider) && !activityIsLifecycleOwner ==>
                r == Err("Activity must be a LifecycleOwner") && uses == old(uses).(currentLens := ParseLens(lens))
                && controls == old(controls)
      ensures old(uses.hasProvider) && activityIsLifecycleOwner ==>
                && uses == Rebuilt(old(uses).(currentLens := ParseLens(lens)),
                                   BestAspectRatio(LensFacing(ParseLens(lens)), cams), SwitchHandler, bound)
                && controls == (if bound.Ok? then SwitchRefresh(old(controls), bound.value) else old(controls))
                && r == (if bound.Err? then Err("Failed to switch camera: " + bound.message) else Ok(GetCameraState()))
                && (r.Ok? ==> r.value.zoomLevel == 1.0 && r.value.isInitialized)
    {
      uses := uses.(currentLens := ParseLens(lens));
      if !uses.hasProvider {
        return Err(ProviderNotAvailable);
      }
      if !activityIsLifecycleOwner {
        return Err("Activity must be a LifecycleOwner");
      }
      var targetAspectRatio := GetBestAspectRatio(LensFacing(uses.currentLens), cams);
      uses := uses.(targetAspectRatio := Some(targetAspectRatio), hasPreview := true,
                    surfaceHandler := SwitchHandler, hasVideoCapture := true);
      if bound.Err? {
        return Err("Failed to switch camera: " + bound.message);
      }
      uses := uses.(camera := Some(bound.value));
      controls := SwitchRefresh(controls, bound.value);
      r := Ok(GetCameraState());
    }

    /** `setFlashMode(mode:)`. `torchThrows` says `enableTorch` throws; every
     *  known mode calls it before touching the fields. What
     *  `getFlashModeString` then reports is `FlashRoundTrip`. */
    method SetFlashMode(mode: string, torchThrows: bool) returns (ok: bool)
      requires Valid()
      modifies this
      ensures Valid()
      ensures uses == old(uses) && isPaused == old(isPaused) && rec == old(rec) && listener == old(listener)
      ensures ok <==> old(uses.camera).Some? && (!torchThrows || ParseFlashRequest(mode) == RequestOther)
      ensures !ok ==> controls == old(controls)
      ensures ok ==>
                && Setting() == FlashUpdate(ParseFlashRequest(mode), old(Setting()))
                && controls == old(controls).(flashMode := controls.flashMode, isTorchEnabled := controls.isTorchEnabled)
    {
      if uses.camera.None? {
        return false;
      }
      var q := ParseFlashRequest(mode);
      if q != RequestOther && torchThrows {
        return false;
      }
      var setting := FlashUpdate(q, Setting());
      controls := controls.(flashMode := setting.flashMode, isTorchEnabled := setting.torchEnabled);
      ok := true;
    }

    /** `setFocusPoint(x, y)`: the metering action itself is not modelled. */
    method SetFocusPoint(x: real, y: real, meteringThrows: bool) returns (ok: bool)
      ensures ok <==> uses.camera.Some? && !meteringThrows
    {
      ok := uses.camera.Some? && !meteringThrows;
    }

    /** `setExposurePoint(x, y)`: the Kotlin method is identical to `setFocusPoint`
     *  (both start the same metering action), so its model is too. */
    method SetExposurePoint(x: real, y: real, meteringThrows: bool) returns (ok: bool)
      ensures ok <==> uses.camera.Some? && !meteringThrows
    {
      ok := uses.camera.Some? && !meteringThrows;
    }

    /** `setZoomLevel(level)`. `coerceIn` throws on an empty range;
     *  `zoomThrows` says `setZoomRatio` throws. */
    method SetZoomLevel(level: real, zoomThrows: bool) returns (ok: bool)
      requires Valid()
      modifies this
      ensures Valid()
      ensures uses == old(uses) && isPaused == old(isPaused) && rec == old(rec) && listener == old(listener)
      ensures ok <==> old(uses.camera).Some? && old(controls.minZoom) <= old(controls.maxZoom) && !zoomThrows
      ensures !ok ==> controls == old(controls)
      ensures ok ==>
                && Some(controls.currentZoom) == CoerceIn(level, old(controls.minZoom), old(controls.maxZoom))
                && controls == old(controls).(currentZoom := controls.currentZoom)
                && controls.minZoom <= controls.currentZoom <= controls.maxZoom
      ensures ok && controls.minZoom <= level <= controls.maxZoom ==> controls.currentZoom == level
    {
      if uses.camera.None? {
        return false;
      }
      var clampedLevel := CoerceIn(level, controls.minZoom, controls.maxZoom);
      if clampedLevel.None? || zoomThrows {
        return false;
      }
      controls := controls.(currentZoom := clampedLevel.value);
      ok := true;
    }

    /** `startRecording(maxDurationMs)`. `outputFile` is the file it names,
     *  `startError` the message of the exception preparing or starting the
     *  recording throws, if it does. Returns the callback's error when it is
     *  delivered now; `None` when the callback
     *  waits for the recorder's first recorded `Status` event. */
    method StartRecording(maxDurationMs: Option<int>, audioPermission: bool, outputFile: string, startError: Option<string>)
      returns (err: Option<string>)
      requires Valid()
      modifies this
      ensures Valid()
      ensures uses == old(uses) && controls == old(controls) && isPaused == old(isPaused)
      // the guards, in order, each leaving everything unchanged
      ensures !old(uses.hasVideoCapture) ==>
                err == Some(VideoCaptureNotInitialized) && rec == old(rec) && listener == old(listener)
      ensures old(uses.hasVideoCapture) && old(rec.isRecording) ==>
                err == Some(AlreadyRecording) && rec == old(rec) && listener == old(listener)
      ensures old(uses.hasVideoCapture) && !old(rec.isRecording) && !audioPermission ==>
                err == Some(NoAudioPermission) && rec == old(rec) && listener == old(listener)
      ensures old(uses.hasVideoCapture) && !old(rec.isRecording) && audioPermission ==>
                && (startError.Some? ==>
                      && err == Some("Failed to start recording: " + startError.value)
                      && rec == old(rec).(currentRecordingFile := Some(outputFile)) && listener == old(listener))
                && (startError.None? ==>
                      && err.None?
                      && rec == old(rec).(currentRecordingFile := Some(outputFile), hasRecording := true)
                      && listener == Some(Listener(maxDurationMs, false)))
      // an accepted start does not mark the controller as recording; the Start event does
      ensures rec.isRecording == old(rec.isRecording)
    {
      if !uses.hasVideoCapture {
        return Some(VideoCaptureNotInitialized);
      }
      if rec.isRecording {
        return Some(AlreadyRecording);
      }
      if !audioPermission {
        return Some(NoAudioPermission);
      }
      rec := rec.(currentRecordingFile := Some(outputFile));
      if startError.Some? {
        return Some("Failed to start recording: " + startError.value);
      }
      rec := rec.(hasRecording := true);
      listener := Some(Listener(maxDurationMs, false));
      err := None;
    }

    /** The current recording's listener receives `e`. */
    method OnRecordEvent(e: RecordEvent) returns (d: Delivery)
      requires Valid() && listener.Some?
      modifies this
      ensures Valid()
      ensures uses == old(uses) && controls == old(controls) && isPaused == old(isPaused)
      ensures var st := Step(old(listener).value, old(rec), e, old(controls.videoWidth), old(controls.videoHeight));
              listener == Some(st.listener) && rec == st.state && d == st.delivery
    {
      d := NoDelivery;
      var l := listener.value;
      match e {
        case Start =>
          rec := rec.(isRecording := true);
        case Status(recordedDurationNanos, nowMs) =>
          if !l.callbackCalled && recordedDurationNanos > 0 {
            listener := Some(l.(callbackCalled := true));
            rec := rec.(recordingStartTime := nowMs);
            if l.maxDurationMs.Some? && l.maxDurationMs.value > 0 {
              rec := rec.(maxDurationRunnable := l.maxDurationMs);
            }
            d := Delivery(true, None);
          }
        case Finalize(hasError, fileExists, nowMs) =>
          rec := rec.(isRecording := false, maxDurationRunnable := None);
          if rec.autoStopCallback {
            var file := rec.currentRecordingFile;
            var result: Outcome<RecordingResult>;
            if file.Some? && fileExists {
              var duration := nowMs - rec.recordingStartTime;
              result := Ok(RecordingResult(file.value, LongToInt(duration), controls.videoWidth, controls.videoHeight));
            } else {
              result := Err(FileNotFound);
            }
            d := Delivery(false, Some(result));
            rec := rec.(autoStopCallback := false, currentRecordingFile := None, hasRecording := false);
          }
      }
    }

    /** `autoStopRecording`, the body of the max-duration runnable: a no-op
     *  unless there is a recording and it is running; otherwise it installs
     *  the callback the Finalize event answers, then stops the recording. */
    method AutoStopRecording()
      requires Valid()
      modifies this
      ensures Valid()
      ensures uses == old(uses) && controls == old(controls) && isPaused == old(isPaused) && listener == old(listener)
      ensures !old(rec.hasRecording) || !old(rec.isRecording) ==> rec == old(rec)
      ensures old(rec.hasRecording) && old(rec.isRecording) ==> rec == old(rec).(autoStopCallback := true)
    {
      if !rec.hasRecording || !rec.isRecording {
        return;
      }
      rec := rec.(autoStopCallback := true);
    }

    /** `stopRecording`. `stopError` is the message of the exception `stop()`
     *  throws, if it does. On success the result is delivered by
     *  `StopDelayElapsed` once the delay has passed. */
    method StopRecording(stopError: Option<string>) returns (err: Option<string>)
      requires Valid()
      modifies this
      ensures Valid()
      ensures uses == old(uses) && controls == old(controls) && isPaused == old(isPaused) && listener == old(listener)
      ensures !old(rec.hasRecording) || !old(rec.isRecording) ==> err == Some(NotRecording) && rec == old(rec)
      ensures old(rec.hasRecording) && old(rec.isRecording) && stopError.Some? ==>
                err == Some("Failed to stop recording: " + stopError.value) && rec == old(rec)
      ensures err.None? <==> old(rec.hasRecording) && old(rec.isRecording) && stopError.None?
      ensures err.None? ==> rec == old(rec).(pendingStops := old(rec.pendingStops) + 1)
    {
      if !rec.hasRecording || !rec.isRecording {
        return Some(NotRecording);
      }
      if stopError.Some? {
        return Some("Failed to stop recording: " + stopError.value);
      }
      rec := rec.(pendingStops := rec.pendingStops + 1);
      err := None;
    }

    /** The delayed block of `stopRecording`: the result from the file as it
     *  is then, after which the file and the recording are dropped. */
    method StopDelayElapsed(fileExists: bool, nowMs: int) returns (r: Outcome<RecordingResult>)
      requires Valid() && rec.pendingStops > 0
      modifies this
      ensures Valid()
      ensures uses == old(uses) && controls == old(controls) && isPaused == old(isPaused) && listener == old(listener)
      ensures r == FinishedResult(old(rec.currentRecordingFile), fileExists, nowMs, old(rec.recordingStartTime),
                                  controls.videoWidth, controls.videoHeight)
      ensures rec == old(rec).(currentRecordingFile := None, hasRecording := false,
                               pendingStops := old(rec.pendingStops) - 1)
    {
      var file := rec.currentRecordingFile;
      if file.Some? && fileExists {
        var duration := nowMs - rec.recordingStartTime;
        r := Ok(RecordingResult(file.value, LongToInt(duration), controls.videoWidth, controls.videoHeight));
      } else {
        r := Err(FileNotFound);
      }
      rec := rec.(currentRecordingFile := None, hasRecording := false, pendingStops := rec.pendingStops - 1);
    }

    /** `pausePreview`: on Android only the flag is set. */
    method PausePreview()
      requires Valid()
      modifies this
      ensures Valid()
      ensures isPaused
      ensures uses == old(uses) && controls == old(controls) && rec == old(rec) && listener == old(listener)
    {
      isPaused := true;
    }

    /** `resumePreview`. */
    method ResumePreview() returns (r: Outcome<CameraState>)
      requires Valid()
      modifies this
      ensures Valid()
      ensures !isPaused
      ensures uses == old(uses) && controls == old(controls) && rec == old(rec) && listener == old(listener)
      ensures r.Ok? <==> uses.hasProvider && uses.camera.Some?
      ensures r.Ok? ==> r.value == GetCameraState() && r.value.isInitialized
      ensures r.Err? ==> r.message == "Camera not initialized"
    {
      isPaused := false;
      if uses.hasProvider && uses.camera.Some? {
        r := Ok(GetCameraState());
      } else {
        r := Err("Camera not initialized");
      }
    }

    /** `release`. The runnable, the auto-stop callback, the file and pending
     *  stop completions are left as they were. */
    method Release()
      requires Valid()
      modifies this
      ensures Valid()
      ensures rec == old(rec).(hasRecording := false, isRecording := false)
      ensures uses == old(uses).(hasProvider := false, camera := None, hasPreview := false, surfaceHandler := NoHandler,
                                 hasVideoCapture := false, textureEntry := None, targetAspectRatio := None,
                                 executorShutdown := true)
      ensures controls == old(controls) && isPaused == old(isPaused) && listener == old(listener)
      ensures var s := GetCameraState(); !s.isInitialized && !s.isRecording && s.textureId == -1
    {
      // recording?.stop(): its Finalize event may still reach the listener
      rec := rec.(hasRecording := false, isRecording := false);
      uses := uses.(hasProvider := false, camera := None, hasPreview := false, surfaceHandler := NoHandler,
                    hasVideoCapture := false);
      uses := uses.(textureEntry := None);
      uses := uses.(targetAspectRatio := None);
      if !uses.executorShutdown {
        uses := uses.(executorShutdown := true);
      }
    }
  }
}
