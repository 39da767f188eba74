/** Values shared by the iOS and Android camera controllers: optional values,
 *  command outcomes, the lens, the two zoom-clamping operators and the state
 *  snapshot both controllers return to the host application.
 */
module CameraCommon {

  datatype Option<T> = None | Some(value: T)

  /** The outcome of a command: a value, or the error string the controller reports. */
  datatype Outcome<T> = Ok(value: T) | Err(message: string)

  datatype Lens = Front | Back

  /** Both controllers select the front camera only for the exact string "front". */
  function ParseLens(s: string): Lens
  {
    if s == "front" then Front else Back
  }

  /** The lens as the snapshot names it. */
  function LensName(l: Lens): string
  {
    match l
    case Front => "front"
    case Back => "back"
  }

  /** Parsing is a left inverse of naming, and every string parses to the lens
   *  whose name it is, or to the back lens. */
  lemma LensRoundTrip(l: Lens, s: string)
    ensures ParseLens(LensName(l)) == l
    ensures ParseLens(s) == Front <==> s == LensName(Front)
    ensures LensName(ParseLens(s)) == s || ParseLens(s) == Back
  {
  }

  /** The video quality strings both platforms recognise. */
  const QualityNames: set<string> := {"sd", "hd", "fhd", "uhd", "highest", "lowest"}

  /** The cases of the switch on the mode string in both `setFlashMode`s. */
  datatype FlashRequest = RequestOff | RequestAuto | RequestOn | RequestTorch | RequestOther

  function ParseFlashRequest(mode: string): FlashRequest
  {
    if mode == "off" then RequestOff
    else if mode == "auto" then RequestAuto
    else if mode == "on" then RequestOn
    else if mode == "torch" then RequestTorch
    else RequestOther
  }

  /** The name each request is parsed from; every other string is `RequestOther`. */
  function RequestName(q: FlashRequest): string
  {
    match q
    case RequestOff => "off"
    case RequestAuto => "auto"
    case RequestOn => "on"
    case RequestTorch => "torch"
    case RequestOther => ""
  }

  lemma FlashRequestRoundTrip(q: FlashRequest, mode: string)
    ensures q != RequestOther ==> ParseFlashRequest(RequestName(q)) == q
    ensures ParseFlashRequest(mode) == RequestOther <==> mode !in {"off", "auto", "on", "torch"}
    ensures ParseFlashRequest(mode) != RequestOther ==> RequestName(ParseFlashRequest(mode)) == mode
  {
  }

  function Min(a: real, b: real): real { if a <= b then a else b }
  function Max(a: real, b: real): real { if a >= b then a else b }

  function Abs(x: real): real { if x < 0.0 then -x else x }

  /** The distance between two points on the real line. */
  function Dist(a: real, b: real): real { Abs(a - b) }

  /** Swift's `max(lo, min(v, hi))`, the iOS zoom clamp. On an empty range it
   *  yields `lo`. On a non-empty range it is the point of the range nearest to `v`. */
  function SwiftClamp(v: real, lo: real, hi: real): (r: real)
    ensures lo <= hi ==> lo <= r <= hi
    ensures lo <= v <= hi ==> r == v
    ensures lo > hi ==> r == lo
    ensures lo <= hi ==> forall x :: lo <= x <= hi ==> Dist(r, v) <= Dist(x, v)
  {
    Max(lo, Min(v, hi))
  }

  /** Kotlin's `v.coerceIn(lo, hi)`, the Android zoom clamp: it throws
   *  IllegalArgumentException (here `None`) when `hi < lo`. */
  function CoerceIn(v: real, lo: real, hi: real): (r: Option<real>)
    ensures r.None? <==> hi < lo
    ensures r.Some? ==> lo <= r.value <= hi
    ensures r.Some? && lo <= v <= hi ==> r.value == v
    ensures r.Some? ==> forall x :: lo <= x <= hi ==> Dist(r.value, v) <= Dist(x, v)
  {
    if hi < lo then None
    else if v < lo then Some(lo)
    else if hi < v then Some(hi)
    else Some(v)
  }

  /** On every non-empty range the two platforms clamp a zoom request alike. */
  lemma ClampsAgree(v: real, lo: real, hi: real)
    requires lo <= hi
    ensures CoerceIn(v, lo, hi) == Some(SwiftClamp(v, lo, hi))
  {
  }

  /** Clamping twice is clamping once. */
  lemma ClampIdempotent(v: real, lo: real, hi: real)
    requires lo <= hi
    ensures SwiftClamp(SwiftClamp(v, lo, hi), lo, hi) == SwiftClamp(v, lo, hi)
  {
  }

  /** The read-only snapshot `getCameraState` returns on both platforms. */
  datatype CameraState = CameraState(
    isInitialized: bool,
    isRecording: bool,
    flashMode: string,
    lens: string,
    zoomLevel: real,
    minZoomLevel: real,
    maxZoomLevel: real,
    aspectRatio: real,
    hasFlash: bool,
    hasFrontCamera: bool,
    hasBackCamera: bool,
    isFocusPointSupported: bool,
    isExposurePointSupported: bool,
    textureId: int)

  /** The payload of a finished recording. */
  datatype RecordingResult = RecordingResult(filePath: string, durationMs: int, width: int, height: int)
}
