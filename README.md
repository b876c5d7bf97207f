# Screen recorder controller, modelled in Dafny

`action.js` is the page script of a browser screen recorder. Its six buttons
share the screen plus microphone, turn on the camera, record either stream,
stop, and reset the share. Behind them sits a small state machine over
module-level variables:

- the screen stream `localStream`;
- the camera stream, held as `cameraPreviewElement.srcObject`;
- the recorder handle `mediaRecorder` and the chunk buffer `chunks`;
- the interval handle `recordingInterval`, the counter `recordingTime` and the
  duration label;
- the buttons' `disabled` flags.

This project models that state machine and proves what its handlers do.

- `wrappers.dfy`: `Option`.
- `duration.dfy` (module `Duration`): the `MM:SS` label the timer writes,
  `String(floor(t / 60)).padStart(2, '0') + ":" + String(t % 60).padStart(2, '0')`.
  It proves what the two fields hold and gives an inverse, `Parse`, proved in
  both directions.
- `blob.dfy` (module `Blob`): the recorded artifact, as the concatenation of the
  delivered chunks, with its size and the position of each chunk.
- `media.dfy` (module `Media`): capture tracks (a class with a `stopped` flag)
  and the stream operations the handlers use:
  - `getVideoTracks` / `getAudioTracks` as a filter by kind;
  - the `forEach(addTrack)` loop, with `addTrack` ignoring a track the stream
    already holds;
  - the `forEach(track.stop())` loop.
- `recorder.dfy` (module `Recorder`): class `Controller`.
  - It has one field per variable above, plus the created recorders, the
    started and not yet cleared intervals, the built blobs, the log lines, the
    alerts, and counters of capture requests not yet answered.
  - Every handler is a method whose `modifies` clause names exactly the fields
    it writes. Its `ensures` give their new values, and its class invariant
    `Valid` ties `mediaRecorder` and `recordingInterval` to the latest recorder
    and interval.
  - Platform callbacks are methods the platform calls:
    - a capture request succeeding or failing;
    - a recorder delivering a chunk or its stop event;
    - an interval firing.
- `scenarios.dfy` (module `Scenarios`): whole sessions from page load. Each
  drives a controller through user actions and platform events and states
  what the page ends up showing.

The page's markup, which is not part of this model, fixes the buttons' initial
`disabled` flags, the label's initial text and whether the camera overlay is
hidden. They are parameters of the constructor. Calls into the browser become
parameters or event methods:
- the capture requests resolve through `DisplayMediaSucceeded(screen)`,
  `MicSucceeded(mic)` and `CameraSucceeded(stream)`, or fail through
  `DisplayMediaFailed`, `MicFailed` and `CameraFailed`;
- a recorder's output arrives through `DataAvailable(r, chunk)` and
  `RecorderStopped(r)`;
- time passes through `Tick(id)`, one firing of interval `id`.

An event method can only be called for a request or recorder that is actually
pending. A cleared interval never fires: `Tick` of a cleared id changes
nothing. A recorder whose `start()` threw never delivers anything.

The click handlers do not require their button to be enabled. A disabled
button cannot be clicked, so the model admits more call sequences than the
page does. This over-approximation is sound: every property proved for a
handler holds for every click the page can deliver.

### Behaviour worth knowing

Each item below is what `action.js` does. It is stated in a contract and, in
most cases, shown by a scenario.

- A record start does not empty the chunk buffer; only the stop handler does
  (`OnBtnRecordClicked`).
- The recorder is started without a time slice (action.js:104). Chunks arrive
  whenever the platform delivers them, so any number of `DataAvailable` events
  is allowed, not a fixed cadence.
- The stop click re-enables rec, recCamera and reset at once, before the
  recorder has stopped. It never disables the stop button again
  (`OnBtnStopClicked`).
- Stop stops the camera's tracks and hides the overlay whichever source was
  recorded (action.js:84-86). The camera stream stays the preview's source, so
  recCamera is enabled again and a later camera click passes its guard
  (action.js:111). That click disables recCamera, enables stop, resets the
  counter and label, logs the start and makes a new recorder the
  `mediaRecorder` (action.js:116-122). The stream has no live track left, so
  `start()` throws (action.js:125). The recorder never records, no timer
  starts, and a later stop builds no blob (`CameraRecordAfterStop`).
- A refused microphone leaves `localStream` set, holding the screen's video
  tracks, which keep running; no button changes (`MicRefused`).
- With the camera on, recCamera stays enabled during a screen recording.
  Starting a camera recording on top of it replaces both `mediaRecorder` and
  `recordingInterval`. Stop then reaches only the camera recorder. The screen
  recorder keeps delivering into the emptied buffer, and the first interval is
  never cleared, so the counter keeps counting (`OverlappingRecordings`).
- A second stop click after the recording finished changes nothing, and no
  second blob is built (`StopTwice`).

## Model

| member | source | states |
|---|---|---|
| Duration.DecimalString | action.js:154-155 | `String(n)` for a non-negative integer; `DecimalStringCanonical` and `DecimalOfCanonical` characterise it |
| Duration.PadStart | action.js:154-155 | `padStart(width, fill)`; `PadStartPads` and `PadValue` characterise it |
| Duration.Format | action.js:154-156 | the label `MM:SS` the interval writes; `FormatFields`, `ParseFormat`, `FormatParse`, `FormatZero` and `FormatExamples` characterise it |
| Duration.DecimalStringCanonical | action.js:154-155 | `String(n)` of a non-negative integer is a canonical decimal string (digits only, no leading zero unless it is "0") denoting n; it is one character exactly when n < 10 |
| Duration.PadStartPads | action.js:154-155 | `padStart(width, fill)` returns a string of length max(width, \|s\|) that ends with s and is fill characters before it; it never truncates |
| Duration.PadValue | action.js:154-155 | padding a digit string with '0' keeps it a digit string with the same value |
| Duration.DecimalOfCanonical | action.js:154-155 | `String` inverts reading a canonical digit string: the decimal form of its value is the string itself |
| Duration.PadTwoOfField | action.js:154-155 | every field of at least two digits with no superfluous leading zero is the padded decimal form of its own value |
| Duration.FormatFields | action.js:154-156 | the label has at least 5 characters and ':' third from the end; before it, digits denoting floor(t/60), two characters when that is below 10 and otherwise as many as its decimal form (never truncated); after it, exactly two digits denoting t mod 60 |
| Duration.ParseFormat | action.js:154-156 | reading the label of t back gives t: the label loses nothing |
| Duration.FormatParse | action.js:154-156 | every string that reads back as t is exactly the label of t: each count has one label, and the labels are exactly the readable strings |
| Duration.FormatZero | action.js:98 | the "00:00" a record start writes is the label of 0 seconds |
| Duration.FormatExamples | action.js:154-156 | 125 seconds read "02:05"; 6000 seconds read "100:00", the minutes field growing past two digits |
| Blob.Concat | action.js:141 | `new Blob(chunks)`: the bytes of the chunks in order; `ConcatSplit`, `ConcatAppend`, `ConcatSize` and `ConcatAt` characterise it |
| Blob.ConcatSplit | action.js:141 | the blob of two runs of chunks is the blob of the first followed by the blob of the second |
| Blob.ConcatAppend | action.js:102 | a chunk delivered last lands at the end of the blob |
| Blob.ConcatSize | action.js:141 | the blob's length is the sum of the chunk sizes |
| Blob.ConcatAt | action.js:141 | chunk k sits in the blob right after the bytes of the chunks delivered before it and right before the rest; the bytes at its offset are exactly the chunk |
| Media.Track.constructor | action.js:42 | a capture track of the given kind, not yet ended; `stop()` ends it for good |
| Media.OfKind | action.js:42 | `getVideoTracks()` / `getAudioTracks()`: the stream's tracks of one kind in stream order; `OfKindMembers` and `OfKindNoDuplicates` characterise it |
| Media.Active | action.js:125 | a stream is active while some track has not ended; `start()` on an inactive stream throws; `ActiveOfKind` characterises it |
| Media.ActiveOfKind | action.js:41-44 | a live track of the requested kind keeps the filtered tracks, and any stream they begin, active |
| Media.AddTrack | action.js:44 | `addTrack(t)` appends t unless the stream already holds it; `AddAllContents`, `AddAllKeepsPrefix` and `AddAllNoDuplicates` characterise it |
| Media.AddAll | action.js:42-44 | the stream after `forEach(addTrack)`; `AddTracks`, `AddAllContents`, `AddAllKeepsPrefix`, `AddAllNoDuplicates` and `AddAllDistinct` characterise it |
| Media.OfKindMembers | action.js:42 | `getVideoTracks()`/`getAudioTracks()` return only tracks of the stream, all of the requested kind, and every track of that kind; no more tracks than the stream has |
| Media.OfKindNoDuplicates | action.js:42 | filtering by kind keeps distinct tracks distinct |
| Media.AddTracks | action.js:42 | the `forEach(addTrack)` loop leaves the stream's track list equal to `AddAll` of the tracks, added one at a time in order |
| Media.AddAllContents | action.js:44 | after the adds, a track is in the stream exactly when it was there before or was added |
| Media.AddAllKeepsPrefix | action.js:44 | the adds never reorder or drop the tracks the stream already had |
| Media.AddAllNoDuplicates | action.js:44 | a stream never lists a track twice |
| Media.AddAllDistinct | action.js:44 | adding distinct new tracks appends them in order |
| Media.ScreenThenMic | action.js:41-44 | the new screen stream holds the screen's video tracks, then the microphone's audio tracks, each in its own order |
| Media.StopAll | action.js:58 | the `forEach(track.stop())` loop leaves every track of the list stopped |
| Recorder.RequestStop | action.js:132 | `mediaRecorder.stop()` moves a recording recorder to stopping and leaves every other recorder as it was; a recorder not recording is untouched |
| Recorder.ClearInterval | action.js:148 | `clearInterval` removes the given interval from the running ones, keeps every other one, and does nothing for `undefined` |
| Recorder.Controller.constructor | action.js:3-7 | page load: no streams, no recorder, empty buffer, counter 0, no interval; buttons, label and overlay as the markup sets them |
| Recorder.Controller.OnShareScreen | action.js:38-39 | the share click only issues a display request |
| Recorder.Controller.DisplayMediaSucceeded | action.js:40-43 | a granted display makes `localStream` a new stream of the screen's video tracks and issues the microphone request; nothing else changes |
| Recorder.Controller.DisplayMediaFailed | action.js:53 | a refused display adds one log line and changes nothing else |
| Recorder.Controller.MicSucceeded | action.js:43-51 | a granted microphone appends its audio tracks to `localStream` and sets share disabled and rec, reset and useCamera enabled; if `localStream` was reset meanwhile and there is an audio track, the add throws and only the microphone error is logged |
| Recorder.Controller.MicFailed | action.js:51 | a refused microphone adds one log line; `localStream` keeps the video tracks and no button changes |
| Recorder.Controller.ResetScreenShare | action.js:56-67 | without a screen stream nothing changes; otherwise every track of it is stopped, it is dropped, share is enabled and rec, reset, useCamera and recCamera disabled, and a log line added |
| Recorder.Controller.OnUseCamera | action.js:70-71 | the camera click only issues a camera request |
| Recorder.Controller.CameraSucceeded | action.js:72-77 | a granted camera becomes the preview's stream, the overlay is shown and recCamera enabled; nothing else changes |
| Recorder.Controller.CameraFailed | action.js:78 | a refused camera adds one log line and changes nothing else |
| Recorder.Controller.StopCamera | action.js:81-87 | with a camera stream, every one of its tracks is stopped and the overlay hidden; the stream stays the preview's source |
| Recorder.Controller.StartTimer | action.js:151-152 | a new interval starts running and becomes `recordingInterval` |
| Recorder.Controller.BeginRecording | action.js:95-106 | the given button flags, counter 0, label "00:00", a log line and a new recorder that becomes `mediaRecorder`; over an active stream it records and a new running interval becomes `recordingInterval`; over an inactive one `start()` throws, the recorder never starts and no interval is started; buffer untouched; `Valid` kept |
| Recorder.Controller.OnBtnRecordClicked | action.js:89-107 | without a screen stream: one alert, and buttons, counter, label, buffer, recorders and intervals unchanged; otherwise a screen recorder is created with rec disabled and stop enabled, and it records and starts the timer exactly when the stream is active |
| Recorder.Controller.OnBtnRecordCameraClicked | action.js:109-128 | without a camera stream: one alert and nothing else changes; otherwise a camera recorder is created with recCamera disabled and stop enabled, and it records and starts the timer exactly when the stream is active (after a stop its tracks have ended, so it does not) |
| Recorder.Controller.Tick | action.js:152-156 | a running interval's firing adds exactly one to the counter and sets the label to the counter's label; a cleared interval changes nothing |
| Recorder.Controller.DataAvailable | action.js:102 | a chunk from a recorder that started and has not stopped goes to the end of the buffer; nothing else changes |
| Recorder.Controller.OnBtnStopClicked | action.js:130-137 | with no recorder ever created nothing changes; otherwise the latest recorder is asked to stop, every camera track is stopped and the overlay hidden whatever was recorded, and reset, rec and recCamera are enabled |
| Recorder.Controller.HandleStop | action.js:140-149 | the blob is the buffer's chunks in order; the buffer becomes empty; a log line; the interval `recordingInterval` names stops running |
| Recorder.Controller.RecorderStopped | action.js:103 | the stop event of a recorder that started and has not stopped marks it stopped and runs the stop handler |
| Scenarios.ScreenGranted | action.js:38-43 | after a granted screen: the stream holds the screen's video tracks, the microphone request is pending, and the buttons are as at load |
| Scenarios.SharedScreen | action.js:38-50 | after a granted screen and microphone: the stream is the video tracks then the audio tracks, and share is disabled with rec, reset and useCamera enabled |
| Scenarios.StartedScreen | action.js:89-106 | with a live screen video track, recording starts over the shared screen: one recorder recording, one interval running, empty buffer, counter 0, label "00:00" |
| Scenarios.Step | action.js:152-156 | during a screen recording, a chunk is appended or a second is counted and shown |
| Scenarios.Deliver | action.js:102 | during a screen recording, any interleaving of chunks and seconds leaves the buffer equal to the chunks in arrival order and the counter and label at the number of seconds |
| Scenarios.StopScreen | action.js:130-149 | stopping the screen recording and delivering its stop event turns the buffer into one blob, empties it and stops the interval; counter and label stay |
| Scenarios.RecordScreen | action.js:38-149 | share with a live screen video track, record, any events, stop: the blob is the chunks concatenated in arrival order, with the sum of their sizes as its length; the label shows the elapsed seconds; the buffer is empty; and the counter no longer moves |
| Scenarios.StopTwice | action.js:130-149 | a second stop after the recording finished changes nothing; one blob exists; no recorder can deliver another stop |
| Scenarios.ResetThenRecord | action.js:56-93 | after a reset every screen track is stopped and rec is disabled; calling the record handler all the same is refused with an alert without creating a recorder |
| Scenarios.MicRefused | action.js:40-53 | a refused microphone leaves a one-track video stream, the buttons as at load, and the video track running |
| Scenarios.CameraOn | action.js:70-77 | a granted camera: its tracks live, no recorder, no interval, no alert |
| Scenarios.CameraRecording | action.js:70-128 | a granted camera, then record the camera: one camera recorder recording, one interval running, no alert |
| Scenarios.CameraStopped | action.js:81-149 | stopping the camera recording ends both camera tracks, leaves the stream set and recCamera enabled, clears the interval and builds one blob |
| Scenarios.CameraRecordAfterStop | action.js:81-137 | after a camera recording has stopped, its tracks have ended but recCamera is enabled; the next camera click raises no alert, disables recCamera, shows "00:00" and logs the start, but its recorder never starts and no interval runs; a further stop leaves one blob and nothing pending |
| Scenarios.ScreenAndCamera | action.js:38-77 | a granted screen and microphone, then a granted camera: recCamera enabled, no recorder yet |
| Scenarios.BothRecording | action.js:89-128 | recCamera stays enabled during a screen recording, so a camera recording starts on top of it: two recorders recording, two intervals running |
| Scenarios.OverlappingRecordings | action.js:89-157 | stop then reaches only the camera recorder; the screen recorder keeps recording into the emptied buffer, and its interval keeps counting |

## Left out

- Capture, recording and blob APIs (`getDisplayMedia`, `getUserMedia`,
  `MediaRecorder` internals, `new Blob`, `URL.createObjectURL`): only their
  outcomes are modelled. The media type tag of the blob, `downloadLink` and the
  preview's `src` (action.js:141-146) are left out. The model keeps the list of
  built blobs, whose last element is what the link and the preview show.
- `play()` calls, `previewElement.srcObject` (the screen preview),
  `previewElement.controls`, and CSS classes other than the camera overlay's
  `hidden`: display only, with no effect on the state.
- `toggleTheme` (action.js:160-162): a CSS toggle unrelated to recording.
- `log` (action.js:164-167) is modelled as a list of messages. The HTML
  rendering and `console.log` are output only. `alert` is a list of alert
  messages.
- The constraint objects (action.js:9-21): configuration passed to the
  platform.
- Promise scheduling and the one-second cadence of `setInterval`: time is the
  sequence of `Tick` calls, and the order of callbacks is whatever order the
  event methods are called in.
- The screen capture's own audio tracks are neither added to `localStream`
  nor stopped. The model drops them likewise and says nothing about their
  state.
- Recorder.Controller.MicSucceeded: when `localStream` is null, the thrown
  error is logged as the fixed text "TypeError"; the engine's full message
  text is not modelled.
- Tracks that end on their own (the browser's "stop sharing" control, an
  unplugged device) and the recorder's reaction to that: only `stop()` from
  the page ends a track here. `RecorderStopped` may come at any time after a
  stop request and is not forced.
- The `start()` exception is not modelled as a thrown value reaching the
  console: the handler just ends where it is thrown.
- `recordingTime` is a JavaScript number. `String` writes it in exponent
  notation from 1e21 on, and precision is lost beyond 2^53. The model uses an
  unbounded `nat` and plain decimal digits; at one tick per second neither
  bound is reached.
