/** The per-sample routing decision of the iOS capture delegate
 *  (`captureOutput(_:didOutput:from:)`), and the discipline it keeps on the
 *  calls made to the asset writer: one `startSession` at the first recorded
 *  video frame, every append after it.
 */
module IosFrameRouter {

  /** Which capture output delivered a sample. */
  datatype SampleSource = VideoOutput | AudioOutput | OtherOutput

  /** `AVAssetWriter.Status`, read by the delegate for every sample. */
  datatype WriterStatus = Unknown | Writing | Completed | Failed | Cancelled

  /** A call the controller makes on the asset writer of the current recording. */
  datatype WriterCall = StartSession(at: int) | AppendVideo(time: int) | AppendAudio(time: int)

  /** What the delegate does with one sample: overwrite the preview slot, open
   *  the writer session, append the frame to the video input, append the
   *  sample to the audio input. */
  datatype Route = Route(updatePreview: bool, startSession: bool, appendVideo: bool, appendAudio: bool)

  const Ignore: Route := Route(false, false, false, false)

  /** The decision for one sample. `inputReady` is `isReadyForMoreMediaData`
   *  of the writer input the sample would go to; `hasWriter` says that the
   *  writer, its inputs and the pixel-buffer adaptor are all present. */
  function RouteSample(isPaused: bool, source: SampleSource, hasImageBuffer: bool,
                       isRecording: bool, hasWriter: bool, sessionStarted: bool,
                       status: WriterStatus, inputReady: bool): (r: Route)
    // a paused controller drops every sample untouched
    ensures isPaused ==> r == Ignore
    // every unpaused video frame that carries an image reaches the preview slot
    ensures r.updatePreview <==> !isPaused && source == VideoOutput && hasImageBuffer
    // the session opens only on a recorded video frame, only once, only while writing
    ensures r.startSession <==>
              r.updatePreview && isRecording && hasWriter && !sessionStarted && status == Writing
    // a video frame is appended only into an open session
    ensures r.appendVideo ==> r.updatePreview && (sessionStarted || r.startSession)
    ensures r.appendVideo <==> r.updatePreview && isRecording && hasWriter && status == Writing && inputReady
    // audio is appended only once the session is open, never queued otherwise
    ensures r.appendAudio <==>
              !isPaused && source == AudioOutput && isRecording && hasWriter && sessionStarted
              && status == Writing && inputReady
    ensures r.appendAudio ==> !r.startSession && !r.updatePreview
  {
    if isPaused then Ignore
    else match source
      case VideoOutput =>
        if !hasImageBuffer then Ignore
        else
          var recording := isRecording && hasWriter;
          Route(true,
                recording && !sessionStarted && status == Writing,
                recording && status == Writing && inputReady,
                false)
      case AudioOutput =>
        Route(false, false, false,
              isRecording && hasWriter && sessionStarted && status == Writing && inputReady)
      case OtherOutput => Ignore
  }

  /** The writer calls a route adds, in the order the delegate makes them. */
  function RouteCalls(r: Route, timestamp: int): (calls: seq<WriterCall>)
    ensures |calls| == (if r.startSession then 1 else 0) + (if r.appendVideo then 1 else 0) + (if r.appendAudio then 1 else 0)
    ensures StartSession(timestamp) in calls <==> r.startSession
    ensures AppendVideo(timestamp) in calls <==> r.appendVideo
    ensures AppendAudio(timestamp) in calls <==> r.appendAudio
  {
    (if r.startSession then [StartSession(timestamp)] else [])
    + (if r.appendVideo then [AppendVideo(timestamp)] else [])
    + (if r.appendAudio then [AppendAudio(timestamp)] else [])
  }

  /** The writer log discipline: the session has been started exactly when
   *  the log is non-empty; the first call opens it and no later call does. */
  ghost predicate WriterLogOk(calls: seq<WriterCall>, sessionStarted: bool)
  {
    && (sessionStarted <==> calls != [])
    && (calls != [] ==> calls[0].StartSession?)
    && (forall i :: 0 < i < |calls| ==> !calls[i].StartSession?)
  }

  function CountStarts(calls: seq<WriterCall>): nat
  {
    if calls == [] then 0
    else (if calls[0].StartSession? then 1 else 0) + CountStarts(calls[1..])
  }

  lemma {:induction false} NoStartsCountZero(calls: seq<WriterCall>)
    requires forall i :: 0 <= i < |calls| ==> !calls[i].StartSession?
    ensures CountStarts(calls) == 0
  {
    if calls != [] {
      NoStartsCountZero(calls[1..]);
    }
  }

  /** A write session is started at most once per writer, and every audio
   *  sample in the log was appended after it. */
  lemma {:induction false} SessionStartedAtMostOnce(calls: seq<WriterCall>, sessionStarted: bool)
    requires WriterLogOk(calls, sessionStarted)
    ensures CountStarts(calls) == if sessionStarted then 1 else 0
    ensures forall i :: 0 <= i < |calls| && calls[i].AppendAudio? ==> 0 < i && calls[0].StartSession?
  {
    if calls != [] {
      assert forall i :: 0 <= i < |calls[1..]| ==> !calls[1..][i].StartSession? by {
        forall i | 0 <= i < |calls[1..]| ensures !calls[1..][i].StartSession? {
          assert calls[1..][i] == calls[i + 1];
        }
      }
      NoStartsCountZero(calls[1..]);
    }
  }

  /** Routing a sample keeps the writer log discipline, with the session
   *  flag advanced exactly when the route opens the session. */
  lemma RouteKeepsWriterLog(calls: seq<WriterCall>, isPaused: bool, source: SampleSource,
                            hasImageBuffer: bool, isRecording: bool, sessionStarted: bool,
                            status: WriterStatus, inputReady: bool, timestamp: int)
    requires WriterLogOk(calls, sessionStarted)
    ensures var r := RouteSample(isPaused, source, hasImageBuffer, isRecording, true,
                                 sessionStarted, status, inputReady);
            WriterLogOk(calls + RouteCalls(r, timestamp), sessionStarted || r.startSession)
  {
    var r := RouteSample(isPaused, source, hasImageBuffer, isRecording, true,
                         sessionStarted, status, inputReady);
    var added := RouteCalls(r, timestamp);
    var all := calls + added;
    if r.startSession {
      assert calls == [];
      assert all == added;
      assert added[0] == StartSession(timestamp);
      assert forall i :: 0 < i < |added| ==> added[i] == AppendVideo(timestamp);
    } else {
      assert forall i :: 0 <= i < |added| ==> !added[i].StartSession?;
      assert added != [] ==> sessionStarted;
      forall i | 0 < i < |all| ensures !all[i].StartSession? {
        if i >= |calls| { assert all[i] == added[i - |calls|]; }
      }
    }
  }
}
