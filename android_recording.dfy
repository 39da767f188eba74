/** The recording state machine of the Android controller
 *  (`android/.../CameraController.kt`): the fields the `VideoRecordEvent`
 *  listener of `startRecording` reads and writes, one step per recorder event,
 *  and what a sequence of events delivers.
 *
 *  Each recording gets its own listener, which captures the requested
 *  maximum duration and its own `callbackCalled` flag; the start callback is
 *  delivered from the first `Status` event that reports recorded frames, and
 *  that is also when the auto-stop runnable is posted.
 */
module AndroidRecording {
  import opened CameraCommon

  /** What one recording's listener captured: `maxDurationMs` and its `callbackCalled` flag. */
  datatype Listener = Listener(maxDurationMs: Option<int>, callbackCalled: bool)

  /** The controller fields of the recording state machine. */
  datatype RecorderState = RecorderState(
    isRecording: bool,
    recordingStartTime: int,              // wall clock in ms; never reset
    maxDurationRunnable: Option<int>,     // the posted auto-stop runnable's delay
    autoStopCallback: bool,               // autoStopRecording has installed its callback
    hasRecording: bool,                   // recording != null
    currentRecordingFile: Option<string>,
    pendingStops: nat)                    // stopRecording completions still waiting for their delay

  /** The events CameraX delivers to a recording's listener. */
  datatype RecordEvent =
    | Start
    | Status(recordedDurationNanos: int, nowMs: int)
    | Finalize(hasError: bool, fileExists: bool, nowMs: int)

  /** What the listener delivers in response to one event: the start callback,
   *  and the result handed to the auto-stop callback. */
  datatype Delivery = Delivery(startCallback: bool, autoStop: Option<Outcome<RecordingResult>>)

  const NoDelivery: Delivery := Delivery(false, None)

  const FileNotFound := "Recording file not found"

  /** Kotlin's `Long.toInt()`: the low 32 bits, as a two's-complement value. */
  function LongToInt(x: int): (r: int)
    ensures -0x8000_0000 <= r < 0x8000_0000
    ensures (r - x) % 0x1_0000_0000 == 0
    ensures -0x8000_0000 <= x < 0x8000_0000 ==> r == x
  {
    (x + 0x8000_0000) % 0x1_0000_0000 - 0x8000_0000
  }

  /** The result both the auto-stop path and the delayed `stopRecording`
   *  completion build: the file, the time since the recording started, and
   *  the last preview resolution. */
  function FinishedResult(file: Option<string>, fileExists: bool, nowMs: int, startMs: int,
                          videoWidth: int, videoHeight: int): (r: Outcome<RecordingResult>)
    ensures r.Ok? <==> file.Some? && fileExists
    ensures r.Err? ==> r.message == FileNotFound
    ensures r.Ok? ==> r.value == RecordingResult(file.value, LongToInt(nowMs - startMs), videoWidth, videoHeight)
  {
    if file.Some? && fileExists then
      Ok(RecordingResult(file.value, LongToInt(nowMs - startMs), videoWidth, videoHeight))
    else Err(FileNotFound)
  }

  /** The auto-stop runnable is posted only for a positive limit. */
  predicate ArmsRunnable(maxDurationMs: Option<int>)
  {
    maxDurationMs.Some? && maxDurationMs.value > 0
  }

  /** A `Status` event that reports recorded frames. */
  predicate Records(e: RecordEvent)
  {
    e.Status? && e.recordedDurationNanos > 0
  }

  datatype Stepped = Stepped(listener: Listener, state: RecorderState, delivery: Delivery)

  /** The listener's response to one event. `videoWidth`/`videoHeight` are the
   *  controller's current preview resolution. */
  function Step(l: Listener, s: RecorderState, e: RecordEvent, videoWidth: int, videoHeight: int): (r: Stepped)
    // Start only marks the recording as running
    ensures e.Start? ==> r == Stepped(l, s.(isRecording := true), NoDelivery)
    // the start callback fires exactly on the first status event with recorded frames
    ensures r.delivery.startCallback <==> Records(e) && !l.callbackCalled
    ensures r.listener.callbackCalled <==> l.callbackCalled || Records(e)
    ensures r.listener.maxDurationMs == l.maxDurationMs
    // and only then stamps the start time and posts the runnable, leaving every other field
    ensures r.delivery.startCallback ==>
              r.state == s.(recordingStartTime := e.nowMs,
                            maxDurationRunnable := if ArmsRunnable(l.maxDurationMs) then l.maxDurationMs
                                                   else s.maxDurationRunnable)
    ensures e.Status? && !r.delivery.startCallback ==> r.state == s
    // Finalize stops the recording and removes the runnable, and a pending
    // auto-stop callback is answered once, then cleared with the recording and the file
    ensures e.Finalize? ==> !r.state.isRecording && r.state.maxDurationRunnable.None?
    ensures e.Finalize? ==> (r.delivery.autoStop.Some? <==> s.autoStopCallback)
    ensures e.Finalize? && s.autoStopCallback ==>
              && r.delivery.autoStop == Some(FinishedResult(s.currentRecordingFile, e.fileExists, e.nowMs,
                                                           s.recordingStartTime, videoWidth, videoHeight))
              && r.state == s.(isRecording := false, maxDurationRunnable := None, autoStopCallback := false,
                               hasRecording := false, currentRecordingFile := None)
    ensures e.Finalize? ==> r.state.recordingStartTime == s.recordingStartTime && r.listener == l
    ensures e.Finalize? && !s.autoStopCallback ==>
              r.state == s.(isRecording := false, maxDurationRunnable := None)
    ensures !e.Finalize? ==> r.delivery.autoStop.None?
    ensures r.state.pendingStops == s.pendingStops
  {
    match e
    case Start => Stepped(l, s.(isRecording := true), NoDelivery)
    case Status(d, now) =>
      if !l.callbackCalled && d > 0 then
        var runnable := if ArmsRunnable(l.maxDurationMs) then l.maxDurationMs else s.maxDurationRunnable;
        Stepped(l.(callbackCalled := true), s.(recordingStartTime := now, maxDurationRunnable := runnable),
                Delivery(true, None))
      else Stepped(l, s, NoDelivery)
    case Finalize(_, fileExists, now) =>
      var stopped := s.(isRecording := false, maxDurationRunnable := None);
      if s.autoStopCallback then
        var result := FinishedResult(s.currentRecordingFile, fileExists, now, s.recordingStartTime, videoWidth, videoHeight);
        Stepped(l, stopped.(autoStopCallback := false, currentRecordingFile := None, hasRecording := false),
                Delivery(false, Some(result)))
      else Stepped(l, stopped, NoDelivery)
  }

  /** The end of a run of events, and how many start callbacks and auto-stop
   *  results it delivered. */
  datatype Run = Run(listener: Listener, state: RecorderState, starts: nat, autoStops: nat)

  function Replay(l: Listener, s: RecorderState, events: seq<RecordEvent>, videoWidth: int, videoHeight: int): Run
    decreases |events|
  {
    if events == [] then Run(l, s, 0, 0)
    else
      var st := Step(l, s, events[0], videoWidth, videoHeight);
      var rest := Replay(st.listener, st.state, events[1..], videoWidth, videoHeight);
      Run(rest.listener, rest.state,
          rest.starts + (if st.delivery.startCallback then 1 else 0),
          rest.autoStops + (if st.delivery.autoStop.Some? then 1 else 0))
  }

  predicate SomeRecords(events: seq<RecordEvent>)
  {
    exists i :: 0 <= i < |events| && Records(events[i])
  }

  predicate SomeFinalize(events: seq<RecordEvent>)
  {
    exists i :: 0 <= i < |events| && events[i].Finalize?
  }

  lemma SomeRecordsCons(events: seq<RecordEvent>)
    requires events != []
    ensures SomeRecords(events) <==> Records(events[0]) || SomeRecords(events[1..])
    ensures SomeFinalize(events) <==> events[0].Finalize? || SomeFinalize(events[1..])
  {
    if SomeRecords(events) && !Records(events[0]) {
      var i :| 0 <= i < |events| && Records(events[i]);
      assert Records(events[1..][i - 1]);
    }
    if SomeFinalize(events) && !events[0].Finalize? {
      var i :| 0 <= i < |events| && events[i].Finalize?;
      assert events[1..][i - 1].Finalize?;
    }
    if SomeRecords(events[1..]) {
      var i :| 0 <= i < |events[1..]| && Records(events[1..][i]);
      assert Records(events[i + 1]);
    }
    if SomeFinalize(events[1..]) {
      var i :| 0 <= i < |events[1..]| && events[1..][i].Finalize?;
      assert events[i + 1].Finalize?;
    }
  }

  /** Over any run of events the start callback fires at most once: exactly
   *  once if the listener had not yet fired and some status event reports
   *  recorded frames, never otherwise; and the listener's flag ends up set
   *  exactly when it was set or such an event came. */
  lemma {:induction false} StartCallbackAtMostOnce(l: Listener, s: RecorderState, events: seq<RecordEvent>,
                                                   videoWidth: int, videoHeight: int)
    ensures var run := Replay(l, s, events, videoWidth, videoHeight);
            && run.starts == (if !l.callbackCalled && SomeRecords(events) then 1 else 0)
            && (run.listener.callbackCalled <==> l.callbackCalled || SomeRecords(events))
            && run.listener.maxDurationMs == l.maxDurationMs
    decreases |events|
  {
    if events != [] {
      var st := Step(l, s, events[0], videoWidth, videoHeight);
      StartCallbackAtMostOnce(st.listener, st.state, events[1..], videoWidth, videoHeight);
      SomeRecordsCons(events);
    }
  }

  /** Without a new `autoStopRecording` in between, the auto-stop callback is
   *  answered at most once: exactly when one was installed and some recording
   *  finalizes. */
  lemma {:induction false} AutoStopAnsweredAtMostOnce(l: Listener, s: RecorderState, events: seq<RecordEvent>,
                                                      videoWidth: int, videoHeight: int)
    ensures var run := Replay(l, s, events, videoWidth, videoHeight);
            && run.autoStops == (if s.autoStopCallback && SomeFinalize(events) then 1 else 0)
            && (run.state.autoStopCallback <==> s.autoStopCallback && !SomeFinalize(events))
    decreases |events|
  {
    if events != [] {
      var st := Step(l, s, events[0], videoWidth, videoHeight);
      AutoStopAnsweredAtMostOnce(st.listener, st.state, events[1..], videoWidth, videoHeight);
      SomeRecordsCons(events);
    }
  }

  /** The auto-stop runnable is posted only by a status event that reports
   *  recorded frames on a listener that asked for a positive limit: a run
   *  that starts with no runnable ends with one only if such an event came,
   *  and a run that ends with a Finalize has none. */
  lemma {:induction false} RunnableOnlyFromRecordedStatus(l: Listener, s: RecorderState, events: seq<RecordEvent>,
                                                          videoWidth: int, videoHeight: int)
    requires s.maxDurationRunnable.None?
    ensures var run := Replay(l, s, events, videoWidth, videoHeight);
            run.state.maxDurationRunnable.Some? ==>
              !l.callbackCalled && SomeRecords(events) && ArmsRunnable(l.maxDurationMs)
              && run.state.maxDurationRunnable == l.maxDurationMs
    ensures events != [] && events[|events| - 1].Finalize? ==>
              Replay(l, s, events, videoWidth, videoHeight).state.maxDurationRunnable.None?
    decreases |events|
  {
    if events != [] {
      var st := Step(l, s, events[0], videoWidth, videoHeight);
      SomeRecordsCons(events);
      if st.state.maxDurationRunnable.None? {
        RunnableOnlyFromRecordedStatus(st.listener, st.state, events[1..], videoWidth, videoHeight);
      } else {
        // the first event armed the runnable, so the listener has now fired
        assert st.listener.callbackCalled;
        RunnableStaysOrClears(st.listener, st.state, events[1..], videoWidth, videoHeight);
      }
      if events[|events| - 1].Finalize? {
        LastFinalizeClears(l, s, events, videoWidth, videoHeight);
      }
    }
  }

  /** Once the listener has fired, later events never post a runnable: the
   *  one posted stays until a Finalize removes it. */
  lemma {:induction false} RunnableStaysOrClears(l: Listener, s: RecorderState, events: seq<RecordEvent>,
                                                 videoWidth: int, videoHeight: int)
    requires l.callbackCalled
    ensures var run := Replay(l, s, events, videoWidth, videoHeight);
            run.state.maxDurationRunnable.None? || run.state.maxDurationRunnable == s.maxDurationRunnable
    decreases |events|
  {
    if events != [] {
      var st := Step(l, s, events[0], videoWidth, videoHeight);
      RunnableStaysOrClears(st.listener, st.state, events[1..], videoWidth, videoHeight);
    }
  }

  /** A run whose last event is a Finalize ends with the recording stopped and no runnable. */
  lemma {:induction false} LastFinalizeClears(l: Listener, s: RecorderState, events: seq<RecordEvent>,
                                              videoWidth: int, videoHeight: int)
    requires events != [] && events[|events| - 1].Finalize?
    ensures var run := Replay(l, s, events, videoWidth, videoHeight);
            !run.state.isRecording && run.state.maxDurationRunnable.None?
    decreases |events|
  {
    var st := Step(l, s, events[0], videoWidth, videoHeight);
    if |events| > 1 {
      assert events[1..][|events[1..]| - 1] == events[|events| - 1];
      LastFinalizeClears(st.listener, st.state, events[1..], videoWidth, videoHeight);
    }
  }
}
