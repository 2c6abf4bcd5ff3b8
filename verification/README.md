# EchoSeal client core in Dafny

EchoSeal seals a spoken message in a QR image. In the browser the user records
audio and sets a password, and the backend returns the image. To read a message
back, the user uploads the image and gives the password. This project models the
decision logic of the React frontend that drives those two flows. Device,
network, cryptography and QR work are left outside the model.

The model covers:

- **AudioUtils**: `calculateSignalStrength`, the mean deviation of byte samples
  from 128, and `getSignalLevel`, which applies the 10/20 thresholds. Both use
  exact rational arithmetic.
- **SignalIndicator**: the indicator's level and its colour.
- **ClassNames**: `classNames`, which filters out falsy arguments and joins the
  rest with single spaces.
- **Clock**: the recorder's `MM:SS` `formatTime`.
- **SealFlow**: the recording and sealing page (`features/sender/Sender.tsx`).
  It is an immutable state record with one pure function per handler. Each
  asynchronous resumption is an event of its own, separate from the click
  that caused it. A start click only asks for the microphone, and the
  recording begins when `getUserMedia` settles. A submit only sends the
  request, and a later reply completes it. Recorder chunks, interval ticks and
  each recorder's `onstop` are events too, so calls that overlap can be
  modelled.
- **UnsealFlow**: the upload and unsealing page
  (`features/receiver/Receiver.tsx`). It covers the MIME check on drop,
  `processFile`, the preview reader, the delayed modal, password validation,
  reply handling and the reset paths.
- **SenderMock** and **ReceiverMock**: the stand-in status machines `useSender`
  and `useReceiver`, together with the buttons that guard them.
- **AudioMonitor**: the `useAudio` lifecycle. The device is reduced to two
  flags: the stream's tracks are live, and the audio context is open. A
  stream or context that `start` overwrites while it is still live is counted
  as lost, because `stop` reaches only what the refs hold. Every scheduled
  animation frame records the `isActive` value its closure captured.

Conventions used throughout:

- JavaScript `null` or an absent field is `Option.None`.
- The `0/0` NaN of an empty buffer is `None`.
- String truthiness means a non-empty string.
- `trim()` uses the ECMAScript white-space and line-terminator set.
- The microphone, `fetch`, `FileReader`, timers and `requestAnimationFrame` are
  replaced by outcome parameters or events.

## Model

| member | source | states |
|---|---|---|
| Common.TrimEmptyIffBlank | frontend/src/features/sender/Sender.tsx:70 | `password.trim()` is empty exactly when every character of the password is JavaScript white space |
| AudioUtils.Deviation | frontend/src/lib/audioUtils.ts:5 | each sample's term \|x-128\| is at most 128, and it is zero only for the midpoint 128 |
| AudioUtils.DeviationSumBound | frontend/src/lib/audioUtils.ts:4-6 | the loop's sum never exceeds 128 times the buffer length |
| AudioUtils.DeviationSumZeroIffSilent | frontend/src/lib/audioUtils.ts:3-6 | the sum is zero exactly when every sample is 128 |
| AudioUtils.CalculateSignalStrength | frontend/src/lib/audioUtils.ts:1-9 | an empty buffer has no strength (NaN). Otherwise strength times length equals the deviation sum, and the strength lies in [0, 128] |
| AudioUtils.SignalStrengthLoop | frontend/src/lib/audioUtils.ts:1-9 | the imperative accumulation loop computes the same value as the functional definition |
| AudioUtils.SilentBufferHasZeroStrength | frontend/src/lib/audioUtils.ts:3-8 | a non-empty buffer has strength 0 exactly when every sample is 128 |
| AudioUtils.GetSignalLevel | frontend/src/lib/audioUtils.ts:11-15 | "high" iff strength > 20, "medium" iff 10 < strength <= 20, "low" iff strength <= 10 |
| AudioUtils.GetSignalLevelMonotone | frontend/src/lib/audioUtils.ts:11-15 | a stronger signal never gets a lower level, ranking low < medium < high |
| SignalIndicator.Level | frontend/src/features/audio/SignalIndicator.tsx:6-11 | "High" iff strength > 20, "Medium" iff 10 < strength <= 20, "Low" otherwise |
| SignalIndicator.BoundaryLevels | frontend/src/features/audio/SignalIndicator.tsx:6-11 | the boundary strengths fall on the lower side: 20 is Medium and 10 is Low |
| SignalIndicator.Color | frontend/src/features/audio/SignalIndicator.tsx:13-18 | emerald exactly for "High", yellow exactly for "Medium", and red for every other level name |
| SignalIndicator.ColorOneToOne | frontend/src/features/audio/SignalIndicator.tsx:13-18 | High, Medium and Low get emerald, yellow and red, and no two levels share a colour |
| SignalIndicator.ColorOfStrength | frontend/src/features/audio/SignalIndicator.tsx:6-18 | the bars are emerald iff strength > 20, yellow iff 10 < strength <= 20, and red otherwise |
| SignalIndicator.AgreesWithGetSignalLevel | frontend/src/features/audio/SignalIndicator.tsx:6-11 | for every strength, the indicator's level is `getSignalLevel`'s level with a capital initial |
| ClassNames.Filter | frontend/src/lib/utils.ts:2 | `filter(Boolean)` keeps no more strings than it was given, and every kept string is non-empty |
| ClassNames.ClassNames | frontend/src/lib/utils.ts:1-3 | the result is "" exactly when no argument is a non-empty string |
| ClassNames.FilterIsOrderedSelection | frontend/src/lib/utils.ts:2 | the kept strings are exactly the non-empty string arguments, in their original relative order |
| ClassNames.FilterAppend | frontend/src/lib/utils.ts:2 | filtering distributes over concatenation of the argument list |
| ClassNames.JoinEmptyIffNoParts | frontend/src/lib/utils.ts:2 | `join(" ")` over non-empty parts is empty exactly when there are no parts |
| ClassNames.FilterEmptyIffNothingKept | frontend/src/lib/utils.ts:2 | `filter(Boolean)` keeps nothing exactly when no argument is a non-empty string, which includes the case of no arguments |
| ClassNames.SplitJoin | frontend/src/lib/utils.ts:2 | splitting the joined string at the separator recovers the parts when none contains the separator |
| ClassNames.ClassNamesSplitsBack | frontend/src/lib/utils.ts:1-3 | for space-free arguments, the output split at spaces is exactly the kept arguments |
| ClassNames.ClassNamesIdempotent | frontend/src/lib/utils.ts:1-3 | passing the output back as the only argument returns it unchanged |
| Clock.TwoDigitsReadBack | frontend/src/features/sender/Sender.tsx:119 | `toString().padStart(2, '0')` of a number below 100 is two digits that read back as that number |
| Clock.FormatTimeRoundTrip | frontend/src/features/sender/Sender.tsx:116-120 | reading the fields around the last colon gives floor(s/60) and s mod 60. So minutes*60 + seconds = s, and the seconds field is below 60 |
| Clock.FormatTime | frontend/src/features/sender/Sender.tsx:116-120 | every clock is minute digits, a colon and two second digits. Below 6000 seconds it is exactly five characters with the colon in the middle |
| Clock.FormatTimeZero | frontend/src/features/sender/Sender.tsx:116-120 | zero seconds shows "00:00" |
| SealFlow.StartRecording | frontend/src/features/sender/Sender.tsx:25-57 | granted: a new capturing recorder is appended and becomes current. The new interval becomes the handle and joins the firing intervals. Recording restarts from 0 s with an empty chunk list and the stream held, while earlier recorders and intervals stay as they were. Denied: only the error toast changes |
| SealFlow.Tick | frontend/src/features/sender/Sender.tsx:51-53 | a live interval advances the clock by exactly one second; a cleared one changes nothing |
| SealFlow.DataAvailable | frontend/src/features/sender/Sender.tsx:32-34 | a chunk from a capturing or stopping recorder is appended at the end of the shared list. A chunk from any other recorder changes nothing |
| SealFlow.StopRecording | frontend/src/features/sender/Sender.tsx:59-67 | recording goes false, the current interval stops firing and the handle is nulled. A capturing current recorder is asked to stop. Earlier recorders, chunks and payload are untouched |
| SealFlow.RecorderStopped | frontend/src/features/sender/Sender.tsx:36-44 | a stopping recorder's `onstop` packs the shared chunks as audio/wav, opens the modal, releases the stream and marks that recorder inactive. Timers and the recording flag are untouched, and any other recorder's `onstop` changes nothing |
| SealFlow.PasswordChanged | frontend/src/features/sender/Sender.tsx:250 | the input's value becomes the password and nothing else changes |
| SealFlow.CancelModal | frontend/src/features/sender/Sender.tsx:237-261 | the modal closes and the password is cleared, but the pending recording survives |
| SealFlow.SubmitPassword | frontend/src/features/sender/Sender.tsx:69-85 | a blank password warns, a missing payload errors, and in both cases nothing is sent and nothing else changes. A request is sent iff both checks pass; it carries the payload as voice.wav with the password |
| SealFlow.FailureText | frontend/src/features/sender/Sender.tsx:100-101 | a non-empty `error` field is shown as it is; otherwise "Failed to create seal" |
| SealFlow.CompleteSubmit | frontend/src/features/sender/Sender.tsx:87-109 | every outcome ends with processing off, password empty and payload dropped. Ok stores the image with the success toast; non-ok and exception show their error text. Timers, recorders and the microphone are untouched |
| SealFlow.HandlePasswordSubmit | frontend/src/features/sender/Sender.tsx:69-110 | without a request the payload and password are kept and a warning or error is shown. With a request the submission ends idle with the payload consumed |
| SealFlow.RecordButton | frontend/src/features/sender/Sender.tsx:153-155 | the button does nothing while processing; otherwise it stops a recording or starts one |
| SealFlow.Send | frontend/src/features/sender/Sender.tsx:69-85 | a request that passes validation closes the modal, raises processing and adds one awaited reply. Otherwise no reply is awaited and the modal stays as it was. Timers, recorders and the microphone are untouched either way |
| SealFlow.Step | frontend/src/features/sender/Sender.tsx:25-270 | a record click does nothing while processing. Otherwise it stops a recording or adds one pending microphone request, even behind an open modal, whose backdrop stops only pointer clicks. The modal's controls do nothing while it is closed. A grant or reply with no call waiting for it changes nothing |
| SealFlow.StopKeepsConsistent | frontend/src/features/sender/Sender.tsx:59-67 | stopping a consistent recording leaves the page consistent |
| SealFlow.FinishKeepsConsistent | frontend/src/features/sender/Sender.tsx:36-44 | any recorder's `onstop` keeps the page consistent |
| SealFlow.StepKeepsConsistent | frontend/src/features/sender/Sender.tsx:25-110 | every event keeps the view consistent: recording iff a handle is held, that handle's interval still fires, and the current recorder is capturing |
| SealFlow.RunKeepsConsistent | frontend/src/features/sender/Sender.tsx:25-110 | no sequence of events makes the recording indicator disagree with the handle, the interval or the current recorder |
| SealFlow.StepKeepsOrphan | frontend/src/features/sender/Sender.tsx:59-66 | a recorder replaced while capturing is still capturing, and still not current, after any event |
| SealFlow.OrphanNeverStops | frontend/src/features/sender/Sender.tsx:25-67 | after any sequence of events, a replaced capturing recorder is still capturing: nothing stops it |
| SealFlow.OrphanIntervalFiresForever | frontend/src/features/sender/Sender.tsx:51-66 | an interval the handle no longer holds keeps firing through any events that do not hand out its id again |
| SealFlow.DoubleStartLeaks | frontend/src/features/sender/Sender.tsx:25-66 | two clicks before the microphone answers, two grants, then a stop. The page shows not recording, yet the first recorder is still capturing and its interval still firing |
| SealFlow.GuardedStep | frontend/src/features/sender/Sender.tsx:153-155 | the intended button ignores a start click while a microphone request is pending or the current recorder still runs. Every other event behaves as on the page |
| SealFlow.InitialNoLeak | frontend/src/features/sender/Sender.tsx:9-21 | the page starts with no interval, no recorder, no microphone held and no request pending |
| SealFlow.StopKeepsNoLeak | frontend/src/features/sender/Sender.tsx:59-67 | stopping clears the only interval and leaves only the current recorder finalising |
| SealFlow.GrantKeepsNoLeak | frontend/src/features/sender/Sender.tsx:25-57 | with the guard, a grant lands on a page with nothing running, and the new recorder and interval are the only ones |
| SealFlow.FinishKeepsNoLeak | frontend/src/features/sender/Sender.tsx:36-44 | `onstop` releases the microphone of the current recorder, and no other recorder is running |
| SealFlow.SubmitKeepsNoLeak | frontend/src/features/sender/Sender.tsx:69-85 | submitting touches neither timers, recorders nor the microphone |
| SealFlow.ReplyKeepsNoLeak | frontend/src/features/sender/Sender.tsx:87-109 | a reply touches neither timers, recorders nor the microphone |
| SealFlow.GuardedStepKeepsNoLeak | frontend/src/features/sender/Sender.tsx:25-270 | with the guarded button, every event keeps the no-leak invariant |
| SealFlow.GuardedRunKeepsNoLeak | frontend/src/features/sender/Sender.tsx:25-270 | with the guarded button, no sequence of events leaks a recorder, an interval or the microphone. The only firing interval is the handle's, and only the current recorder may run |
| SealFlow.DeliverAppends | frontend/src/features/sender/Sender.tsx:32-34 | chunks delivered while their recorder runs are appended in arrival order, and nothing else changes |
| SealFlow.RecordingPayload | frontend/src/features/sender/Sender.tsx:25-67 | from a leak-free page with no recorder running: grant, chunks, stop, final chunks and `onstop` give a payload of every chunk in arrival order as audio/wav. The modal is open, one inactive recorder is added, and the microphone and interval are released |
| UnsealFlow.IsImage | frontend/src/features/receiver/Receiver.tsx:33 | a file counts as an image exactly when its MIME type is `image/` followed by some subtype |
| UnsealFlow.ProcessFile | frontend/src/features/receiver/Receiver.tsx:49-69 | message and password are cleared, the file is pending, and a preview read starts |
| UnsealFlow.Drop | frontend/src/features/receiver/Receiver.tsx:28-38 | only a present file whose MIME type starts with image/ is processed. Anything else only raises the invalid-file toast |
| UnsealFlow.FileSelected | frontend/src/features/receiver/Receiver.tsx:40-47 | a chosen file is processed whatever its type; no file changes nothing |
| UnsealFlow.ReaderLoaded | frontend/src/features/receiver/Receiver.tsx:56-64 | a finished read shows its file as preview and schedules the modal; the pending file is untouched |
| UnsealFlow.ModalTimerFired | frontend/src/features/receiver/Receiver.tsx:61-63 | the delayed timer opens the modal, keeping preview and pending file |
| UnsealFlow.PasswordChanged | frontend/src/features/receiver/Receiver.tsx:274 | the input's value becomes the password and nothing else changes |
| UnsealFlow.SubmitPassword | frontend/src/features/receiver/Receiver.tsx:71-87 | a blank password warns and a missing file errors, with nothing sent. Otherwise the pending file and password are sent with the modal closed and loading on |
| UnsealFlow.FailureText | frontend/src/features/receiver/Receiver.tsx:107 | a non-empty `error` field is shown as it is; otherwise "Failed to decrypt" |
| UnsealFlow.CompleteSubmit | frontend/src/features/receiver/Receiver.tsx:89-126 | loading ends and the password is cleared on every path. A message is shown and spoken; a failure or exception shows its text and drops preview and pending file |
| UnsealFlow.HandlePasswordSubmit | frontend/src/features/receiver/Receiver.tsx:71-127 | a request is sent iff the password is non-blank and a file is pending. A sent request ends not loading with an empty password |
| UnsealFlow.SpeechEnded | frontend/src/features/receiver/Receiver.tsx:104 | the end of speech only lowers the speaking flag |
| UnsealFlow.ResetState | frontend/src/features/receiver/Receiver.tsx:138-146 | preview, message, password and pending file are all cleared |
| UnsealFlow.CloseModal | frontend/src/features/receiver/Receiver.tsx:260-264 | closing the modal clears password and preview but keeps the pending file |
| UnsealFlow.CancelModal | frontend/src/features/receiver/Receiver.tsx:282-287 | Cancel also drops the pending file |
| UnsealFlow.UploadZoneVisible | frontend/src/features/receiver/Receiver.tsx:158 | the upload zone is shown exactly when there is no preview and the message is empty |
| UnsealFlow.UploadZoneClick | frontend/src/features/receiver/Receiver.tsx:158-168 | the dialog opens iff the zone is shown (no preview, no message), no modal is open and nothing is loading |
| UnsealFlow.DropToReply | frontend/src/features/receiver/Receiver.tsx:28-127 | drop, read, modal and submit of an image: a decoded reply is shown with the zone hidden; any other reply drops the file and shows the zone again |
| UnsealFlow.NonImageDropKeepsPending | frontend/src/features/receiver/Receiver.tsx:28-80 | a non-image drop leaves the pending file as it was. A submit right after sends that earlier file with the typed password iff one is pending and the password is not blank, so with no file pending nothing is sent |
| SenderMock.Transmit | frontend/src/features/sender/useSender.ts:14-19 | a blank message returns at once with nothing changed; otherwise the status becomes transmitting with no error and a call is in flight |
| SenderMock.CallSettled | frontend/src/features/sender/useSender.ts:22-33 | success sets the status to success and schedules a return to idle; failure sets the error "Transmission failed" |
| SenderMock.ResetTimerFired | frontend/src/features/sender/useSender.ts:27-29 | the timer sets idle, whatever the status is by then |
| SenderMock.SetMessage | frontend/src/features/sender/SenderControls.tsx:22 | the textarea's value is passed to `setMessage` unchanged |
| SenderMock.IsLoading | frontend/src/features/sender/SenderControls.tsx:16 | the controls are not loading exactly when the status is idle, success or error |
| SenderMock.TransmitButton | frontend/src/features/sender/SenderControls.tsx:16-55 | disabled iff transmitting; the busy caption iff transmitting, the idle caption otherwise |
| SenderMock.Step | frontend/src/features/sender/SenderControls.tsx:16-55 | a transmit click while transmitting is ignored, as the button is disabled. Typing sets the message to the input's value, and no other event changes the message |
| SenderMock.OnlyTypingChangesMessage | frontend/src/features/sender/useSender.ts:14-34 | with no typing in a run, the message is unchanged: `transmit` and its continuations never modify it |
| SenderMock.RunPreservesInv | frontend/src/features/sender/useSender.ts:14-34 | a "transmitting" status always has a backend call outstanding |
| SenderMock.StaleResetAllowsOverlap | frontend/src/features/sender/useSender.ts:24-29 | one success's reset timer can set idle during the next transmission, which enables the button and allows two overlapping calls |
| ReceiverMock.FakeDecode | frontend/src/features/receiver/useReceiver.ts:59-62 | the stand-in decoder always yields the same fixed sentence |
| ReceiverMock.StartListening | frontend/src/features/receiver/useReceiver.ts:16-20 | error and decoded message are cleared, the status is listening, and a run is suspended at its first delay |
| ReceiverMock.Resume | frontend/src/features/receiver/useReceiver.ts:20-33 | a run advances listening, then signal detected, then decoding, then received, setting the message only before received. None of these steps checks the status |
| ReceiverMock.Throw | frontend/src/features/receiver/useReceiver.ts:34-37 | a thrown run sets the status to error with "Decoding failed" |
| ReceiverMock.StopListening | frontend/src/features/receiver/useReceiver.ts:40-44 | status idle, message and error cleared, suspended runs untouched |
| ReceiverMock.IsListening | frontend/src/features/receiver/ReceiverControls.tsx:14-17 | the controls are not listening exactly when the status is idle, received or error |
| ReceiverMock.OfferedAction | frontend/src/features/receiver/ReceiverControls.tsx:14-53 | exactly one button is rendered: stop iff listening, signal detected or decoding, and start iff idle, received or error |
| ReceiverMock.Click | frontend/src/features/receiver/ReceiverControls.tsx:21-40 | the click calls `stopListening` while listening and `startListening` otherwise |
| ReceiverMock.UndisturbedRun | frontend/src/features/receiver/useReceiver.ts:16-33 | an undisturbed run visits listening, signal detected, decoding and received, and the message appears only at the end |
| ReceiverMock.StopDoesNotCancel | frontend/src/features/receiver/useReceiver.ts:22-44 | after a stop, a suspended run's next step overwrites the idle status |
| ReceiverMock.RunPreservesInv | frontend/src/features/receiver/useReceiver.ts:16-44 | however presses, resumptions and throws interleave, "received" always comes with the decoder's message and "error" with "Decoding failed" |
| AudioMonitor.Average | frontend/src/features/audio/useAudio.ts:62-71 | a frame's average is the same value `calculateSignalStrength` gives for the buffer, and it lies in [0, 128] |
| AudioMonitor.Update | frontend/src/features/audio/useAudio.ts:59-74 | with a false captured flag, no sample and no reschedule. With a true one, the strength is the buffer's signal strength and one frame is scheduled |
| AudioMonitor.MonitorSignal | frontend/src/features/audio/useAudio.ts:53-77 | without an analyser or a buffer nothing happens; otherwise one `update` runs at once |
| AudioMonitor.Start | frontend/src/features/audio/useAudio.ts:13-43 | a rejection changes nothing. Otherwise the stream slot holds the new live stream, and a live stream it replaces is counted as lost. A throwing `AudioContext` leaves context, analyser and buffer as they were. Once the context is created it is open, and an open context it replaces is counted as lost. A throw in the wiring sets the analyser only if it was stored, without going active. Full wiring sets active and samples at once only if the captured flag is true |
| AudioMonitor.Stop | frontend/src/features/audio/useAudio.ts:45-51 | the tracks and context the refs hold are stopped and closed, the monitor goes inactive with strength 0, and scheduled frames and lost streams and contexts are untouched |
| AudioMonitor.Frame | frontend/src/features/audio/useAudio.ts:59-73 | a frame with a false captured flag drops out; one with a true flag samples and reschedules, whatever the current state |
| AudioMonitor.RestartLosesDevice | frontend/src/features/audio/useAudio.ts:13-51 | a second start on a live monitor, then stop: the refs' stream and context are stopped and closed, but the first stream and context are lost while live |
| AudioMonitor.CapturedFlagDiscrepancy | frontend/src/features/audio/useAudio.ts:59-60 | as written: a first start goes active but never samples, and a frame from a start captured while active samples after stop |
| AudioMonitor.LiveUpdate | frontend/src/features/audio/useAudio.ts:59-74 | the intended guard samples and reschedules iff the monitor is currently active |
| AudioMonitor.LiveStart | frontend/src/features/audio/useAudio.ts:13-43 | with the intended guard, a fully wired start samples the first buffer at once |
| AudioMonitor.LiveFrame | frontend/src/features/audio/useAudio.ts:59-73 | with the intended guard, a frame after stop drops out without sampling |
| AudioMonitor.LiveFramesAfterStopNeverSample | frontend/src/features/audio/useAudio.ts:45-74 | with the intended guard, after stop no sequence of frames changes the strength, and each frame leaves the queue |
| AudioMonitor.LiveStopEndsSampling | frontend/src/features/audio/useAudio.ts:45-73 | with the intended guard, stop followed by any pending frame leaves strength 0 and one frame fewer |

## Left out

- Floating point: strengths are exact rationals, so rounding of `sum / length` in double precision is not modelled.
- The DOM and browser services have no model:
  - drag-over and drag-leave styling;
  - the file input's `value` reset;
  - speech synthesis beyond the speaking flag;
  - clipboard copy;
  - object URLs, where the image bytes stand for the URL.
- The toast component's auto-dismiss timer is not modelled: a toast is the last one set.
- SealFlow.StartRecording: a `getUserMedia` that succeeds followed by a throwing `MediaRecorder` constructor is folded into the denied outcome, although the stream stays held in that case.
- SenderMock and ReceiverMock: the stand-in backend and decoder never reject. The failure events model the `catch` branches the code provides.
- UnsealFlow.FileSelected: the MIME check happens only on drop, and a file picked through the dialog is processed whatever its type, as the code does.
- AudioMonitor: the analyser's sample source is a parameter. The source node and `sourceRef` are not modelled, nor is `AudioVisualizer`'s drawing.
- Backend (FastAPI endpoints, encryption, QR detection), command-line tools, `api.ts` fetch wrappers and presentational components: foreign libraries, I/O or markup with no decision logic.
- The older prototypes `components/Sender.tsx` and `components/Receiver.tsx` are superseded by the `features/` versions and are not part of this model.

## Findings

| source | as written | input that shows it | evidently intended | confidence | as-written member | corrected member |
|---|---|---|---|---|---|---|
| frontend/src/features/audio/useAudio.ts:59-60 | `update` tests the `isActive` its closure captured when `start` was created, not the state `start` has just set | a `start` created in a render where `isActive` is false: the monitor goes active but the strength never leaves 0. A `start` created while active: a frame still pending at `stop` samples the stopped stream | `update` tests the current activity, so it samples and reschedules while active and does neither after `stop` | high; not executed | AudioMonitor.CapturedFlagDiscrepancy | AudioMonitor.LiveFramesAfterStopNeverSample |
| frontend/src/features/sender/Sender.tsx:25-66 | the record button is disabled only while `processing`, so a start can begin while an earlier `getUserMedia` is still pending; each grant overwrites `mediaRecorder.current` and `timerRef.current`, and `stopRecording` reaches only the last ones | two clicks before the microphone answers, both grants, then a stop: the first recorder keeps capturing with the microphone live, and its interval keeps firing while the page shows not recording | a start is refused while a microphone request is pending or the previous recorder has not stopped, so the only interval is the current one and only the current recorder runs | medium; not executed | SealFlow.DoubleStartLeaks | SealFlow.GuardedRunKeepsNoLeak |
