/**
 * The recording controller of action.js: the module-level variables
 * (`localStream`, `mediaRecorder`, `chunks`, `recordingInterval`,
 * `recordingTime`), the camera preview's stream, the six buttons' `disabled`
 * flags, and the handlers that update them. Platform promises and callbacks
 * (a capture request resolving, a recorder delivering data or stopping, an
 * interval firing) are methods the platform calls.
 */
module Recorder {
  import opened Wrappers
  import opened Duration
  import opened Blob
  import opened Media

  /** The `disabled` flag of each of the six buttons. */
  datatype Buttons = Buttons(share: bool, useCamera: bool, rec: bool, recCamera: bool, stop: bool, reset: bool)

  /** Which stream a recorder was created over. */
  datatype Source = Screen | Camera

  /**
   * A recorder's life: never started (its `start()` threw because the stream
   * had no live track, so it never records, delivers nothing and never
   * fires a stop event); recording; stop requested (it has gone inactive and
   * its last data and its stop event are still to be delivered); stopped.
   */
  datatype RecState = NeverStarted | Recording | Stopping | Stopped {
    /** Data and a stop event may still arrive from a recorder in this state. */
    predicate Pending() {
      Recording? || Stopping?
    }
  }

  /** One `new MediaRecorder(stream)`; its handlers push into `chunks` and run the stop handler. */
  datatype MediaRecorder = MediaRecorder(source: Source, state: RecState)

  const ShareFirst := "Please share your screen first."
  const CameraNotActive := "Camera not active."
  const DisplayError := "navigator.getDisplayMedia error: "
  const MicError := "Error accessing microphone: "
  const CameraError := "Error accessing camera: "
  /** What `null.addTrack(...)` throws; the engine's full message text is not modelled. */
  const NullStreamError := "TypeError"
  const ResetMessage := "Screen share reset."
  const StartScreenMessage := "Start recording screen..."
  const StartCameraMessage := "Start recording camera..."
  const StoppedMessage := "Recording stopped."
  /** The label a record start writes. */
  const ZeroLabel := "00:00"

  /** `recorder.stop()`: a recording recorder goes inactive and queues its last data and its stop event; otherwise nothing happens. */
  function RequestStop(rs: seq<MediaRecorder>, i: nat): (r: seq<MediaRecorder>)
    requires i < |rs|
    ensures |r| == |rs|
    ensures forall j :: 0 <= j < |rs| && j != i ==> r[j] == rs[j]
    ensures r[i].source == rs[i].source
    ensures r[i].state == if rs[i].state == Recording then Stopping else rs[i].state
  {
    if rs[i].state == Recording then rs[i := rs[i].(state := Stopping)] else rs
  }

  /** `clearInterval(id)`: the interval no longer fires; clearing `undefined` or a cleared interval does nothing. */
  function ClearInterval(running: set<nat>, id: Option<nat>): (r: set<nat>)
    ensures r <= running
    ensures forall n :: n in running && (id.None? || n != id.value) ==> n in r
    ensures id.Some? ==> id.value !in r
  {
    if id.Some? then running - {id.value} else running
  }

  function TrackSet(stream: Option<seq<Track>>): set<Track> {
    if stream.Some? then set t | t in stream.value else {}
  }

  class Controller {
    var localStream: Option<seq<Track>>
    /** `cameraPreviewElement.srcObject`. */
    var cameraStream: Option<seq<Track>>
    /** Every recorder created so far, oldest first. */
    var recorders: seq<MediaRecorder>
    /** The recorder the `mediaRecorder` variable refers to, as an index into `recorders`. */
    var mediaRecorder: Option<nat>
    var chunks: seq<Chunk>
    var recordingTime: nat
    /** The text of the duration element. */
    var duration: string
    /** Number of intervals started so far; interval ids are 0, 1, ... */
    var intervals: nat
    /** The intervals not yet cleared: each keeps firing once a second. */
    var running: set<nat>
    var recordingInterval: Option<nat>
    var disabled: Buttons
    /** Whether the camera overlay carries the `hidden` class. */
    var overlayHidden: bool
    /** Every blob the stop handler built, oldest first; the download link and preview show the last. */
    var artifacts: seq<seq<byte>>
    var log: seq<string>
    var alerts: seq<string>
    /** Capture requests issued and not yet answered by the platform. */
    var displayRequests: nat
    var micRequests: nat
    var cameraRequests: nat


    /**
     * Every record start creates one recorder, and one interval when the
     * recorder starts; the `mediaRecorder` and `recordingInterval` variables
     * hold the latest of each.
     */
    ghost predicate Valid()
      reads this`recorders, this`mediaRecorder, this`intervals, this`running, this`recordingInterval
    {
      intervals <= |recorders|
      && mediaRecorder == (if recorders == [] then None else Some(|recorders| - 1))
      && recordingInterval == (if intervals == 0 then None else Some(intervals - 1))
      && (forall id :: id in running ==> id < intervals)
    }

    function LocalTracks(): set<Track>
      reads this`localStream
    {
      TrackSet(localStream)
    }

    function CameraTracks(): set<Track>
      reads this`cameraStream
    {
      TrackSet(cameraStream)
    }

    /**
     * What a record handler does once its guard passes: the new button
     * flags, the counter and label back at 0 and "00:00", a log line, and a
     * new recorder over `source` that becomes `mediaRecorder`. When it
     * `started`, it is recording and a new interval becomes
     * `recordingInterval`; otherwise `start()` threw, the recorder never
     * started and no timer was started.
     */
    twostate predicate Began(source: Source, buttons: Buttons, message: string, started: bool)
      reads this
    {
      disabled == buttons && recordingTime == 0 && duration == ZeroLabel
      && log == old(log) + [message]
      && recorders == old(recorders) + [MediaRecorder(source, if started then Recording else NeverStarted)]
      && mediaRecorder == Some(|old(recorders)|)
      && (started ==>
            running == old(running) + {old(intervals)}
            && recordingInterval == Some(old(intervals))
            && intervals == old(intervals) + 1)
      && (!started ==>
            running == old(running) && recordingInterval == old(recordingInterval) && intervals == old(intervals))
    }

    /** Page load: the buttons, duration text and overlay start as the page's markup sets them. */
    constructor (initial: Buttons, text: string, hidden: bool)
      ensures Valid()
      ensures localStream == None && cameraStream == None
      ensures recorders == [] && mediaRecorder == None && chunks == []
      ensures recordingTime == 0 && duration == text
      ensures intervals == 0 && running == {} && recordingInterval == None
      ensures disabled == initial && overlayHidden == hidden
      ensures artifacts == [] && log == [] && alerts == []
      ensures displayRequests == 0 && micRequests == 0 && cameraRequests == 0
    {
      localStream, cameraStream := None, None;
      recorders, mediaRecorder, chunks := [], None, [];
      recordingTime, duration := 0, text;
      intervals, running, recordingInterval := 0, {}, None;
      disabled, overlayHidden := initial, hidden;
      artifacts, log, alerts := [], [], [];
      displayRequests, micRequests, cameraRequests := 0, 0, 0;
    }

    // -------------------------------------------------------------------------
    // Screen capture (action.js:38-68)

    /** `onShareScreen`: asks the platform for the display; nothing else changes until it answers. */
    method OnShareScreen()
      requires Valid()
      modifies this`displayRequests
      ensures Valid()
      ensures displayRequests == old(displayRequests) + 1
    {
      displayRequests := displayRequests + 1;
    }

    /**
     * The display request resolved: `localStream` becomes a new stream holding
     * the screen's video tracks, and the microphone is requested.
     */
    method DisplayMediaSucceeded(screen: seq<Track>)
      requires Valid() && displayRequests > 0
      modifies this`displayRequests, this`localStream, this`micRequests
      ensures Valid()
      ensures displayRequests == old(displayRequests) - 1
      ensures localStream == Some(AddAll([], OfKind(screen, Video)))
      ensures micRequests == old(micRequests) + 1
    {
      displayRequests := displayRequests - 1;
      var stream := AddTracks([], OfKind(screen, Video));
      localStream := Some(stream);
      micRequests := micRequests + 1;
    }

    /** The display request was refused: only a log line. */
    method DisplayMediaFailed(err: string)
      requires Valid() && displayRequests > 0
      modifies this`displayRequests, this`log
      ensures Valid()
      ensures displayRequests == old(displayRequests) - 1
      ensures log == old(log) + [DisplayError + err]
    {
      displayRequests := displayRequests - 1;
      log := log + [DisplayError + err];
    }

    /**
     * The microphone request resolved: its audio tracks are added to
     * `localStream` after the video tracks, then share is disabled and rec,
     * reset and useCamera are enabled. If `localStream` was cleared meanwhile
     * and there is an audio track to add, the add throws and only the
     * microphone error is logged.
     */
    method MicSucceeded(mic: seq<Track>)
      requires Valid() && micRequests > 0
      modifies this`micRequests, this`localStream, this`disabled, this`log
      ensures Valid()
      ensures micRequests == old(micRequests) - 1
      ensures old(localStream).None? && OfKind(mic, Audio) != [] ==>
        log == old(log) + [MicError + NullStreamError]
        && localStream == None && disabled == old(disabled)
      ensures old(localStream).Some? || OfKind(mic, Audio) == [] ==>
        log == old(log)
        && localStream == (if old(localStream).Some?
                           then Some(AddAll(old(localStream).value, OfKind(mic, Audio)))
                           else None)
        && disabled == old(disabled).(rec := false, reset := false, share := true, useCamera := false)
    {
      micRequests := micRequests - 1;
      var audio := OfKind(mic, Audio);
      if localStream.None? && audio != [] {
        log := log + [MicError + NullStreamError];
        return;
      }
      if localStream.Some? {
        var stream := AddTracks(localStream.value, audio);
        localStream := Some(stream);
      }
      disabled := disabled.(rec := false, reset := false, share := true, useCamera := false);
    }

    /** The microphone request was refused: `localStream` keeps the video tracks and no button changes. */
    method MicFailed(err: string)
      requires Valid() && micRequests > 0
      modifies this`micRequests, this`log
      ensures Valid()
      ensures micRequests == old(micRequests) - 1
      ensures log == old(log) + [MicError + err]
    {
      micRequests := micRequests - 1;
      log := log + [MicError + err];
    }

    /**
     * `resetScreenShare`: with no screen stream, nothing happens; otherwise
     * every track of the stream is stopped, the stream is dropped, share is
     * enabled and rec, reset, useCamera and recCamera are disabled.
     */
    method ResetScreenShare()
      requires Valid()
      modifies this`localStream, this`disabled, this`log, LocalTracks()
      ensures Valid()
      ensures old(localStream).None? ==> localStream == None && disabled == old(disabled) && log == old(log)
      ensures old(localStream).Some? ==>
        (forall t :: t in old(localStream).value ==> t.stopped)
        && localStream == None
        && disabled == old(disabled).(rec := true, reset := true, share := false, useCamera := true, recCamera := true)
        && log == old(log) + [ResetMessage]
    {
      if localStream.Some? {
        StopAll(localStream.value);
        localStream := None;
        disabled := disabled.(rec := true, reset := true, share := false, useCamera := true, recCamera := true);
        log := log + [ResetMessage];
      }
    }

    // -------------------------------------------------------------------------
    // Camera capture (action.js:70-87)

    /** `onUseCamera`: asks the platform for the camera and microphone. */
    method OnUseCamera()
      requires Valid()
      modifies this`cameraRequests
      ensures Valid()
      ensures cameraRequests == old(cameraRequests) + 1
    {
      cameraRequests := cameraRequests + 1;
    }

    /**
     * The camera request resolved: the stream becomes the camera preview's
     * source, the overlay is shown and recCamera is enabled. A previous camera
     * stream is replaced without being stopped.
     */
    method CameraSucceeded(stream: seq<Track>)
      requires Valid() && cameraRequests > 0
      modifies this`cameraRequests, this`cameraStream, this`overlayHidden, this`disabled
      ensures Valid()
      ensures cameraRequests == old(cameraRequests) - 1
      ensures cameraStream == Some(stream) && !overlayHidden
      ensures disabled == old(disabled).(recCamera := false)
    {
      cameraRequests := cameraRequests - 1;
      cameraStream := Some(stream);
      overlayHidden := false;
      disabled := disabled.(recCamera := false);
    }

    /** The camera request was refused: only a log line. */
    method CameraFailed(err: string)
      requires Valid() && cameraRequests > 0
      modifies this`cameraRequests, this`log
      ensures Valid()
      ensures cameraRequests == old(cameraRequests) - 1
      ensures log == old(log) + [CameraError + err]
    {
      cameraRequests := cameraRequests - 1;
      log := log + [CameraError + err];
    }

    /**
     * `stopCamera`: stops every track of the camera stream and hides the
     * overlay. The stream stays the preview's source.
     */
    method StopCamera()
      requires Valid()
      modifies this`overlayHidden, CameraTracks()
      ensures Valid()
      ensures old(cameraStream).Some? ==> forall t :: t in old(cameraStream).value ==> t.stopped
      ensures overlayHidden == (old(overlayHidden) || old(cameraStream).Some?)
    {
      if cameraStream.Some? {
        StopAll(cameraStream.value);
        overlayHidden := true;
      }
    }

    // -------------------------------------------------------------------------
    // Recording (action.js:89-158)

    /** `startTimer`: a new interval starts firing and becomes `recordingInterval`. */
    method StartTimer()
      modifies this`running, this`recordingInterval, this`intervals
      ensures running == old(running) + {old(intervals)}
      ensures recordingInterval == Some(old(intervals))
      ensures intervals == old(intervals) + 1
    {
      running := running + {intervals};
      recordingInterval := Some(intervals);
      intervals := intervals + 1;
    }

    /**
     * The body both record handlers share once their guard passes, recording
     * `stream`. `mediaRecorder.start()` throws NotSupportedError when the
     * stream is inactive (no live track): the handler then ends there, before
     * `startTimer()`.
     */
    method BeginRecording(source: Source, stream: seq<Track>, buttons: Buttons, message: string)
      requires Valid()
      modifies this`disabled, this`recordingTime, this`duration, this`log, this`recorders,
               this`mediaRecorder, this`running, this`recordingInterval, this`intervals
      ensures Valid()
      ensures Began(source, buttons, message, Active(stream))
    {
      disabled := buttons;
      recordingTime := 0;
      duration := ZeroLabel;
      log := log + [message];
      var started := Active(stream);
      recorders := recorders + [MediaRecorder(source, if started then Recording else NeverStarted)];
      mediaRecorder := Some(|recorders| - 1);
      if started {
        StartTimer();
      }
    }

    /**
     * `onBtnRecordClicked`: without a screen stream, an alert and nothing
     * else. Otherwise rec is disabled and stop enabled, the counter and label
     * restart at 0 and "00:00" and a recorder over the screen stream is
     * created; when the stream has a live track it starts and a timer is
     * started, otherwise its `start()` throws and the handler ends there.
     * The chunk buffer is left as it is.
     */
    method OnBtnRecordClicked()
      requires Valid()
      modifies this`alerts, this`disabled, this`recordingTime, this`duration, this`log, this`recorders,
               this`mediaRecorder, this`running, this`recordingInterval, this`intervals
      ensures Valid()
      ensures old(localStream).None? ==>
        alerts == old(alerts) + [ShareFirst]
        && unchanged(this`disabled, this`recordingTime, this`duration, this`log, this`recorders,
                     this`mediaRecorder, this`running, this`recordingInterval, this`intervals)
      ensures old(localStream).Some? ==>
        alerts == old(alerts)
        && Began(Screen, old(disabled).(rec := true, stop := false), StartScreenMessage, Active(old(localStream).value))
    {
      if localStream.None? {
        alerts := alerts + [ShareFirst];
        return;
      }
      BeginRecording(Screen, localStream.value, disabled.(rec := true, stop := false), StartScreenMessage);
    }

    /**
     * `onBtnRecordCameraClicked`: without a camera stream, an alert and
     * nothing else; otherwise as for the screen, over the camera stream, with
     * recCamera disabled.
     */
    method OnBtnRecordCameraClicked()
      requires Valid()
      modifies this`alerts, this`disabled, this`recordingTime, this`duration, this`log, this`recorders,
               this`mediaRecorder, this`running, this`recordingInterval, this`intervals
      ensures Valid()
      ensures old(cameraStream).None? ==>
        alerts == old(alerts) + [CameraNotActive]
        && unchanged(this`disabled, this`recordingTime, this`duration, this`log, this`recorders,
                     this`mediaRecorder, this`running, this`recordingInterval, this`intervals)
      ensures old(cameraStream).Some? ==>
        alerts == old(alerts)
        && Began(Camera, old(disabled).(recCamera := true, stop := false), StartCameraMessage, Active(old(cameraStream).value))
    {
      if cameraStream.None? {
        alerts := alerts + [CameraNotActive];
        return;
      }
      BeginRecording(Camera, cameraStream.value, disabled.(recCamera := true, stop := false), StartCameraMessage);
    }

    /** One firing of interval `id`: the counter goes up by one and the label shows it. A cleared interval never fires. */
    method Tick(id: nat)
      requires Valid()
      modifies this`recordingTime, this`duration
      ensures Valid()
      ensures id in running ==> recordingTime == old(recordingTime) + 1 && duration == Format(recordingTime)
      ensures id !in running ==> recordingTime == old(recordingTime) && duration == old(duration)
    {
      if id in running {
        recordingTime := recordingTime + 1;
        duration := Format(recordingTime);
      }
    }

    /** The data-available event of recorder `r`: its chunk goes to the end of the buffer. */
    method DataAvailable(r: nat, chunk: Chunk)
      requires Valid() && r < |recorders| && recorders[r].state.Pending()
      modifies this`chunks
      ensures Valid()
      ensures chunks == old(chunks) + [chunk]
    {
      chunks := chunks + [chunk];
    }

    /**
     * `onBtnStopClicked`: does nothing while no recorder was ever created.
     * Otherwise the latest recorder is asked to stop, the camera is stopped
     * (whichever source was recorded), and reset, rec and recCamera are
     * enabled. The stop button is not disabled again.
     */
    method OnBtnStopClicked()
      requires Valid()
      modifies this`recorders, this`overlayHidden, this`disabled, CameraTracks()
      ensures Valid()
      ensures old(mediaRecorder).None? ==>
        recorders == old(recorders) && overlayHidden == old(overlayHidden) && disabled == old(disabled)
        && forall t :: t in old(CameraTracks()) ==> t.stopped == old(t.stopped)
      ensures old(mediaRecorder).Some? ==>
        (old(cameraStream).Some? ==> forall t :: t in old(cameraStream).value ==> t.stopped)
        && recorders == RequestStop(old(recorders), old(mediaRecorder).value)
        && overlayHidden == (old(overlayHidden) || old(cameraStream).Some?)
        && disabled == old(disabled).(reset := false, rec := false, recCamera := false)
    {
      if mediaRecorder.Some? {
        recorders := RequestStop(recorders, mediaRecorder.value);
        StopCamera();
        disabled := disabled.(reset := false, rec := false, recCamera := false);
      }
    }

    /**
     * `handleStop`: the blob is the buffer's chunks in order; the buffer is
     * emptied and the interval `recordingInterval` names is cleared.
     */
    method HandleStop()
      requires Valid()
      modifies this`chunks, this`artifacts, this`log, this`running
      ensures Valid()
      ensures artifacts == old(artifacts) + [Concat(old(chunks))]
      ensures chunks == []
      ensures log == old(log) + [StoppedMessage]
      ensures running == ClearInterval(old(running), recordingInterval)
    {
      var blob := Concat(chunks);
      chunks := [];
      artifacts := artifacts + [blob];
      log := log + [StoppedMessage];
      running := ClearInterval(running, recordingInterval);
    }

    /**
     * The stop event of recorder `r` (after a stop request, or when its
     * tracks end): the recorder is stopped and the stop handler runs.
     */
    method RecorderStopped(r: nat)
      requires Valid() && r < |recorders| && recorders[r].state.Pending()
      modifies this`recorders, this`chunks, this`artifacts, this`log, this`running
      ensures Valid()
      ensures recorders == old(recorders)[r := old(recorders)[r].(state := Stopped)]
      ensures artifacts == old(artifacts) + [Concat(old(chunks))]
      ensures chunks == []
      ensures log == old(log) + [StoppedMessage]
      ensures running == ClearInterval(old(running), recordingInterval)
    {
      recorders := recorders[r := recorders[r].(state := Stopped)];
      HandleStop();
    }
  }
}
