/**
 * Sessions of the controller: each method creates a controller at page load,
 * delivers a sequence of user actions and platform events to it, and reports
 * what the page then shows. Their postconditions are the lifecycle properties
 * of action.js, and the places where it behaves otherwise than a reader of
 * the button labels would expect.
 */
module Scenarios {
  import opened Wrappers
  import opened Duration
  import opened Blob
  import opened Media
  import opened Recorder

  /** What happens while a recording runs: a chunk arrives, or a second passes. */
  datatype Event = Data(chunk: Chunk) | Second

  /** The chunks the events deliver, in order. */
  function Delivered(es: seq<Event>): seq<Chunk> {
    if es == [] then []
    else Delivered(es[..|es| - 1]) + (if es[|es| - 1].Data? then [es[|es| - 1].chunk] else [])
  }

  /** The number of seconds that pass during the events. */
  function Seconds(es: seq<Event>): nat {
    if es == [] then 0 else Seconds(es[..|es| - 1]) + (if es[|es| - 1].Second? then 1 else 0)
  }

  /** Page load, then a granted screen share; the microphone request is pending. */
  method ScreenGranted(initial: Buttons, screen: seq<Track>) returns (c: Controller)
    ensures fresh(c) && c.Valid()
    ensures c.localStream == Some(AddAll([], OfKind(screen, Video))) && c.cameraStream == None
    ensures c.recorders == [] && c.intervals == 0 && c.running == {}
    ensures c.chunks == [] && c.artifacts == [] && c.alerts == [] && c.disabled == initial
    ensures c.displayRequests == 0 && c.micRequests == 1 && c.cameraRequests == 0
  {
    c := new Controller(initial, "", true);
    c.OnShareScreen();
    c.DisplayMediaSucceeded(screen);
  }

  /** Page load, then a granted screen share and a granted microphone. */
  method SharedScreen(initial: Buttons, screen: seq<Track>, mic: seq<Track>) returns (c: Controller)
    requires NoDuplicates(screen) && NoDuplicates(mic)
    ensures fresh(c) && c.Valid()
    ensures c.localStream == Some(OfKind(screen, Video) + OfKind(mic, Audio)) && c.cameraStream == None
    ensures c.recorders == [] && c.intervals == 0 && c.running == {}
    ensures c.chunks == [] && c.artifacts == [] && c.alerts == []
    ensures c.disabled == initial.(rec := false, reset := false, share := true, useCamera := false)
    ensures c.displayRequests == 0 && c.micRequests == 0 && c.cameraRequests == 0
  {
    c := ScreenGranted(initial, screen);
    c.MicSucceeded(mic);
    ScreenThenMic(screen, mic);
  }

  /** One screen recording has been started and is running; the camera was never used. */
  ghost predicate ScreenRecording(c: Controller)
    reads c
  {
    c.Valid() && c.recorders == [MediaRecorder(Screen, Recording)] && c.running == {0}
    && c.cameraStream == None && c.artifacts == []
  }

  /** The screen share delivers a video track that has not ended. */
  predicate LiveVideo(screen: seq<Track>)
    reads set t | t in screen
  {
    exists i :: 0 <= i < |screen| && screen[i].kind == Video && !screen[i].stopped
  }

  /** Page load, a granted screen share with a live video track and a granted microphone, then record. */
  method StartedScreen(initial: Buttons, screen: seq<Track>, mic: seq<Track>) returns (c: Controller)
    requires NoDuplicates(screen) && NoDuplicates(mic) && LiveVideo(screen)
    ensures fresh(c) && ScreenRecording(c)
    ensures c.localStream == Some(OfKind(screen, Video) + OfKind(mic, Audio))
    ensures c.chunks == [] && c.recordingTime == 0 && c.duration == Format(0)
  {
    c := SharedScreen(initial, screen, mic);
    var i :| 0 <= i < |screen| && screen[i].kind == Video && !screen[i].stopped;
    ActiveOfKind(screen, Video, i, OfKind(mic, Audio));
    c.OnBtnRecordClicked();
    FormatZero();
  }

  /** One event while the screen recording runs. */
  method Step(c: Controller, e: Event)
    requires ScreenRecording(c)
    modifies c`chunks, c`recordingTime, c`duration
    ensures ScreenRecording(c)
    ensures c.chunks == old(c.chunks) + (if e.Data? then [e.chunk] else [])
    ensures c.recordingTime == old(c.recordingTime) + (if e.Second? then 1 else 0)
    ensures c.duration == if e.Second? then Format(c.recordingTime) else old(c.duration)
  {
    match e {
      case Data(chunk) =>
        c.DataAvailable(0, chunk);
      case Second =>
        c.Tick(0);
    }
  }

  /** Chunks and seconds arriving while the screen recording runs. */
  method Deliver(c: Controller, events: seq<Event>)
    requires ScreenRecording(c) && c.chunks == [] && c.recordingTime == 0 && c.duration == Format(0)
    modifies c`chunks, c`recordingTime, c`duration
    ensures ScreenRecording(c)
    ensures c.chunks == Delivered(events)
    ensures c.recordingTime == Seconds(events) && c.duration == Format(Seconds(events))
  {
    var i := 0;
    while i < |events|
      invariant 0 <= i <= |events|
      invariant ScreenRecording(c)
      invariant c.chunks == Delivered(events[..i])
      invariant c.recordingTime == Seconds(events[..i]) && c.duration == Format(c.recordingTime)
    {
      assert events[..i + 1][..i] == events[..i];
      Step(c, events[i]);
      i := i + 1;
    }
    assert events[..i] == events;
  }

  /** Stop the screen recording and deliver its stop event: the buffered chunks become one blob. */
  method StopScreen(c: Controller)
    requires ScreenRecording(c)
    modifies c
    ensures c.Valid() && c.running == {} && c.chunks == [] && c.duration == old(c.duration)
    ensures c.artifacts == [Concat(old(c.chunks))] && c.recordingTime == old(c.recordingTime)
  {
    c.OnBtnStopClicked();
    c.RecorderStopped(0);
  }

  /**
   * Share the screen, record, let chunks and seconds arrive in any order,
   * stop, and let a second more pass. The screen stream holds the video
   * tracks then the audio tracks; the blob is the chunks in arrival order;
   * the label shows the elapsed seconds; the buffer is empty and the counter
   * no longer moves.
   */
  method RecordScreen(initial: Buttons, screen: seq<Track>, mic: seq<Track>, events: seq<Event>)
    returns (stream: seq<Track>, artifact: seq<byte>, shown: string, buffered: nat, timeAfterStop: nat)
    requires NoDuplicates(screen) && NoDuplicates(mic) && LiveVideo(screen)
    ensures stream == OfKind(screen, Video) + OfKind(mic, Audio)
    ensures artifact == Concat(Delivered(events))
    ensures |artifact| == TotalSize(Delivered(events))
    ensures shown == Format(Seconds(events))
    ensures buffered == 0
    ensures timeAfterStop == Seconds(events)
  {
    var c := StartedScreen(initial, screen, mic);
    stream := c.localStream.value;
    Deliver(c, events);
    ghost var delivered := c.chunks;
    ghost var seconds := c.recordingTime;
    StopScreen(c);
    artifact := c.artifacts[0];
    ConcatSize(delivered);
    buffered := |c.chunks|;
    c.Tick(0);
    assert c.recordingTime == seconds;
    timeAfterStop := c.recordingTime;
    shown := c.duration;
  }

  /**
   * Stop clicked a second time after the recording has finished: none of
   * the variables the stop handler writes changes, exactly one blob exists, and no recorder is left that could
   * deliver another stop event.
   */
  method StopTwice(initial: Buttons) returns (artifacts: nat, same: bool, stopPending: bool)
    ensures artifacts == 1 && same && !stopPending
  {
    var v := new Track(Video);
    var a := new Track(Audio);
    assert [v][0] == v;
    var c := StartedScreen(initial, [v], [a]);
    c.OnBtnStopClicked();
    c.RecorderStopped(0);
    assert c.recorders == [MediaRecorder(Screen, Stopped)];
    var recorders, hidden, buttons := c.recorders, c.overlayHidden, c.disabled;
    c.OnBtnStopClicked();
    same := c.recorders == recorders && c.overlayHidden == hidden && c.disabled == buttons;
    artifacts := |c.artifacts|;
    stopPending := exists r :: 0 <= r < |c.recorders| && c.recorders[r].state.Pending();
  }

  /**
   * Reset the screen share: every screen track is stopped and rec is
   * disabled. Calling the record handler all the same (its guard does not
   * look at the button) is refused with an alert, creating no recorder.
   */
  method ResetThenRecord(initial: Buttons)
    returns (allStopped: bool, recDisabled: bool, alerts: seq<string>, recorders: nat)
    ensures allStopped && recDisabled && alerts == [ShareFirst] && recorders == 0
  {
    var v := new Track(Video);
    var a := new Track(Audio);
    var c := SharedScreen(initial, [v], [a]);
    c.ResetScreenShare();
    recDisabled := c.disabled.rec;
    c.OnBtnRecordClicked();
    allStopped := v.stopped && a.stopped;
    alerts := c.alerts;
    recorders := |c.recorders|;
  }

  /**
   * The microphone is refused after the screen was granted: the screen
   * stream stays set with its video track only, the buttons are as they
   * were, and the video track is left running.
   */
  method MicRefused(initial: Buttons, err: string) returns (stream: Option<seq<Track>>, buttons: Buttons, videoRunning: bool)
    ensures stream.Some? && |stream.value| == 1 && stream.value[0].kind == Video
    ensures buttons == initial && videoRunning
  {
    var v := new Track(Video);
    var c := new Controller(initial, "", true);
    c.OnShareScreen();
    c.DisplayMediaSucceeded([v]);
    c.MicFailed(err);
    stream := c.localStream;
    buttons := c.disabled;
    videoRunning := !v.stopped;
  }

  /** Page load, then a granted camera. */
  method CameraOn(initial: Buttons) returns (c: Controller, cv: Track, ca: Track)
    ensures fresh(c) && fresh(cv) && fresh(ca) && c.Valid()
    ensures c.cameraStream == Some([cv, ca]) && !cv.stopped && !ca.stopped
    ensures c.recorders == [] && c.alerts == [] && c.intervals == 0 && c.running == {} && c.artifacts == []
  {
    cv := new Track(Video);
    ca := new Track(Audio);
    c := new Controller(initial, "", true);
    c.OnUseCamera();
    c.CameraSucceeded([cv, ca]);
  }

  /** Page load, a granted camera, then record the camera. */
  method CameraRecording(initial: Buttons) returns (c: Controller, cv: Track, ca: Track)
    ensures fresh(c) && fresh(cv) && fresh(ca) && c.Valid()
    ensures c.cameraStream == Some([cv, ca]) && !cv.stopped && !ca.stopped
    ensures c.recorders == [MediaRecorder(Camera, Recording)] && c.alerts == []
    ensures c.intervals == 1 && c.running == {0} && c.artifacts == []
  {
    c, cv, ca := CameraOn(initial);
    assert [cv, ca][0] == cv;
    c.OnBtnRecordCameraClicked();
  }

  /** A camera recording, stopped, with its stop event delivered. */
  method CameraStopped(initial: Buttons) returns (c: Controller, cv: Track, ca: Track)
    ensures fresh(c) && fresh(cv) && fresh(ca) && c.Valid()
    ensures c.cameraStream == Some([cv, ca]) && cv.stopped && ca.stopped
    ensures c.recorders == [MediaRecorder(Camera, Stopped)] && c.running == {} && c.intervals == 1
    ensures c.alerts == [] && |c.artifacts| == 1 && !c.disabled.recCamera
  {
    c, cv, ca := CameraRecording(initial);
    c.OnBtnStopClicked();
    assert cv in [cv, ca] && ca in [cv, ca];
    c.RecorderStopped(0);
  }

  /**
   * Stopping a camera recording stops the camera's tracks but leaves the
   * stream as the preview's source, so recCamera is enabled again and its
   * guard passes. The handler disables recCamera, resets the label, logs the
   * start and makes a new recorder the `mediaRecorder`, but the stream has
   * no live track, so `start()` throws: the recorder never records and no
   * timer starts. A later stop finds it inactive and builds no second blob.
   */
  method CameraRecordAfterStop(initial: Buttons)
    returns (tracksStopped: bool, recCameraEnabled: bool, alerts: seq<string>, recCameraDisabled: bool,
             shown: string, lastLog: string, second: MediaRecorder, pending: bool, running: set<nat>,
             artifacts: nat)
    ensures tracksStopped && recCameraEnabled && alerts == [] && recCameraDisabled
    ensures shown == ZeroLabel && lastLog == StartCameraMessage
    ensures second == MediaRecorder(Camera, NeverStarted) && !pending && running == {}
    ensures artifacts == 1
  {
    var c, cv, ca := CameraStopped(initial);
    tracksStopped := cv.stopped && ca.stopped;
    recCameraEnabled := !c.disabled.recCamera;
    assert !Active([cv, ca]);
    c.OnBtnRecordCameraClicked();
    assert c.recorders == [MediaRecorder(Camera, Stopped), MediaRecorder(Camera, NeverStarted)];
    alerts := c.alerts;
    recCameraDisabled := c.disabled.recCamera;
    shown := c.duration;
    lastLog := c.log[|c.log| - 1];
    second := c.recorders[1];
    c.OnBtnStopClicked();
    assert c.recorders == [MediaRecorder(Camera, Stopped), MediaRecorder(Camera, NeverStarted)];
    pending := exists r :: 0 <= r < |c.recorders| && c.recorders[r].state.Pending();
    running := c.running;
    artifacts := |c.artifacts|;
  }

  /** Page load, a granted screen share, then a granted camera. */
  method ScreenAndCamera(initial: Buttons) returns (c: Controller, cv: Track, ca: Track)
    ensures fresh(c) && fresh(cv) && fresh(ca) && c.Valid()
    ensures c.localStream.Some? && Active(c.localStream.value)
    ensures c.cameraStream == Some([cv, ca]) && !cv.stopped
    ensures c.recorders == [] && c.intervals == 0 && c.running == {} && c.chunks == [] && c.artifacts == []
    ensures !c.disabled.recCamera
  {
    var v := new Track(Video);
    var a := new Track(Audio);
    cv := new Track(Video);
    ca := new Track(Audio);
    c := SharedScreen(initial, [v], [a]);
    ActiveOfKind([v], Video, 0, OfKind([a], Audio));
    c.OnUseCamera();
    c.CameraSucceeded([cv, ca]);
  }

  /**
   * With the camera on, recCamera stays enabled while the screen records, so
   * a camera recording can start on top of it.
   */
  method BothRecording(initial: Buttons) returns (c: Controller, cv: Track, ca: Track, recCameraEnabled: bool)
    ensures fresh(c) && fresh(cv) && fresh(ca) && c.Valid() && recCameraEnabled
    ensures c.cameraStream == Some([cv, ca])
    ensures c.recorders == [MediaRecorder(Screen, Recording), MediaRecorder(Camera, Recording)]
    ensures c.running == {0, 1} && c.recordingTime == 0 && c.chunks == []
  {
    c, cv, ca := ScreenAndCamera(initial);
    c.OnBtnRecordClicked();
    recCameraEnabled := !c.disabled.recCamera;
    assert [cv, ca][0] == cv;
    c.OnBtnRecordCameraClicked();
  }

  /**
   * The second record start replaces the `mediaRecorder` and
   * `recordingInterval` handles: stop reaches only the camera recorder, the
   * screen recorder keeps recording into the emptied buffer, and the first
   * interval is never cleared, so the counter keeps moving after the
   * recording has been stopped.
   */
  method OverlappingRecordings(initial: Buttons, late: Chunk)
    returns (recCameraEnabled: bool, firstStillRecording: bool, running: set<nat>,
             timeBefore: nat, timeAfter: nat, buffer: seq<Chunk>)
    ensures recCameraEnabled && firstStillRecording
    ensures running == {0} && timeAfter == timeBefore + 1
    ensures buffer == [late]
  {
    var c, cv, ca;
    c, cv, ca, recCameraEnabled := BothRecording(initial);
    c.OnBtnStopClicked();
    assert c.recorders == [MediaRecorder(Screen, Recording), MediaRecorder(Camera, Stopping)];
    c.RecorderStopped(1);
    running := c.running;
    firstStillRecording := c.recorders[0].state == Recording;
    timeBefore := c.recordingTime;
    c.Tick(0);
    timeAfter := c.recordingTime;
    c.DataAvailable(0, late);
    buffer := c.chunks;
  }
}
