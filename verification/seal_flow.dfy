/**
 * The seal view of `features/sender/Sender.tsx`: record a voice message,
 * ask for a password in a modal, post both to the sealing service, and show
 * the returned image.
 *
 * React state and refs become one immutable record. Every handler becomes a
 * function from the record to the next record. Every asynchronous resumption
 * is an event of its own whose outcome is an input: the microphone grant, a
 * recorder chunk, a recorder's `onstop`, an interval tick and the service's
 * reply. Nothing in the source checks the state again after an `await`, and
 * neither does the model.
 */
module SealFlow {
  import opened Common

  /** A `setInterval` handle; browsers hand out positive ones, so `if (timerRef.current)` tests presence. */
  type TimerId = n: nat | n > 0 witness 1

  /** One `Blob` the recorder delivers through `ondataavailable`. */
  type Chunk = seq<Byte>

  const AudioMime := "audio/wav"
  const AudioFileName := "voice.wav"
  const MicDenied := "Microphone access denied!"
  const EmptyPassword := "Password cannot be empty"
  const NoRecording := "No audio recording found"
  const SealCreated := "Seal created successfully!"
  const SealFailed := "Failed to create seal"
  const ConnectionFailed := "Connection failed. Is the backend running?"

  /** `new Blob(chunks, { type })`. */
  datatype AudioBlob = AudioBlob(chunks: seq<Chunk>, mimeType: string)

  /** The phase of one `MediaRecorder`. `Stopping`: `stop()` was called and `onstop` has not run yet. */
  datatype RecorderPhase = Capturing | Stopping | Inactive {
    /**
     * A recorder in these phases still delivers chunks, and the tracks of
     * the stream it records stay live: only its `onstop` stops them.
     */
    predicate Running() {
      Capturing? || Stopping?
    }
  }

  datatype SealState = SealState(
    recording: bool,
    processing: bool,
    qrImage: Option<seq<Byte>>,     // the image behind the object URL in `qrImage`
    showPasswordModal: bool,
    password: string,
    recordingTime: nat,
    streamHeld: bool,               // the `stream` state is not null
    recorders: seq<RecorderPhase>,  // every recorder created, oldest first; the last is `mediaRecorder.current`
    chunks: seq<Chunk>,             // `audioChunks.current`, shared by every recorder
    timerRef: Option<TimerId>,      // `timerRef.current`
    intervals: set<TimerId>,        // intervals that are still firing
    acquiring: nat,                 // `startRecording` calls still awaiting `getUserMedia`
    inFlight: nat,                  // `handlePasswordSubmit` calls still awaiting the service
    pending: Option<AudioBlob>,     // `pendingAudioBlob.current`
    toast: Option<Toast>)

  const Initial := SealState(false, false, None, false, "", 0, false, [], [], None, {}, 0, 0, None, None)

  /** The phase of `mediaRecorder.current`; with no recorder yet, `Inactive` (`?.stop()` does nothing on either). */
  function Current(s: SealState): RecorderPhase {
    if |s.recorders| == 0 then Inactive else s.recorders[|s.recorders| - 1]
  }

  /** How `getUserMedia` settles; a grant carries the handle of the interval the handler then starts. */
  datatype MicOutcome = Granted(timer: TimerId) | Denied

  /** The multipart body posted to `/create-seal`. */
  datatype SealRequest = SealRequest(audio: AudioBlob, fileName: string, password: string)

  /**
   * How the request settles: an ok response with image bytes, a non-ok
   * response whose JSON body may carry a string `error` field, or a thrown
   * exception (network failure, unreadable body).
   */
  datatype SealResponse = Ok(image: seq<Byte>) | NotOk(errorField: Option<string>) | Exception

  /**
   * `startRecording`, resumed after `getUserMedia` settles, whatever the
   * view has done meanwhile. A grant creates a new recorder, which becomes
   * `mediaRecorder.current`, and a new interval, which becomes
   * `timerRef.current`; the ones they replace are left as they were.
   */
  function StartRecording(s: SealState, outcome: MicOutcome): (r: SealState)
    ensures outcome.Granted? ==>
      && r.recording && r.recordingTime == 0 && r.chunks == []
      && r.recorders == s.recorders + [Capturing] && Current(r) == Capturing && r.streamHeld
      && r.timerRef == Some(outcome.timer) && r.intervals == s.intervals + {outcome.timer}
      && r.pending == s.pending && r.password == s.password && r.toast == s.toast
      && r.showPasswordModal == s.showPasswordModal && r.acquiring == s.acquiring
    ensures outcome.Denied? ==> r == s.(toast := Some(Toast(MicDenied, Error)))
  {
    match outcome
    case Denied => s.(toast := Some(Toast(MicDenied, Error)))
    case Granted(id) =>
      s.(streamHeld := true, recorders := s.recorders + [Capturing], chunks := [],
         recording := true, recordingTime := 0,
         timerRef := Some(id), intervals := s.intervals + {id})
  }

  /** One firing of an interval: only a live interval advances the clock, by exactly one second. */
  function Tick(s: SealState, id: TimerId): (r: SealState)
    ensures id in s.intervals ==> r.recordingTime == s.recordingTime + 1
    ensures id !in s.intervals ==> r == s
    ensures r.(recordingTime := s.recordingTime) == s
  {
    if id in s.intervals then s.(recordingTime := s.recordingTime + 1) else s
  }

  /** `ondataavailable` of recorder `k`: a recorder that is capturing or finalising appends its chunk to the shared list. */
  function DataAvailable(s: SealState, k: nat, data: Chunk): (r: SealState)
    ensures k < |s.recorders| && s.recorders[k].Running() ==> r.chunks == s.chunks + [data]
    ensures !(k < |s.recorders| && s.recorders[k].Running()) ==> r == s
    ensures r.(chunks := s.chunks) == s
  {
    if k < |s.recorders| && s.recorders[k].Running() then s.(chunks := s.chunks + [data]) else s
  }

  /** `stopRecording`: stop the current recorder, leave the recording phase, clear the current interval. */
  function StopRecording(s: SealState): (r: SealState)
    ensures !r.recording && r.timerRef.None?
    ensures s.timerRef.Some? ==> r.intervals == s.intervals - {s.timerRef.value}
    ensures s.timerRef.None? ==> r.intervals == s.intervals
    ensures |r.recorders| == |s.recorders|
    ensures forall k :: 0 <= k < |s.recorders| - 1 ==> r.recorders[k] == s.recorders[k]
    ensures Current(s) == Capturing ==> Current(r) == Stopping
    ensures Current(s) != Capturing ==> r.recorders == s.recorders
    ensures r.recordingTime == s.recordingTime && r.chunks == s.chunks && r.pending == s.pending
    ensures r.streamHeld == s.streamHeld && r.processing == s.processing && r.acquiring == s.acquiring
    ensures r.showPasswordModal == s.showPasswordModal
  {
    var n := |s.recorders|;
    var asked := if n > 0 && s.recorders[n - 1] == Capturing then s.recorders[n - 1 := Stopping] else s.recorders;
    var r := s.(recorders := asked, recording := false);
    if r.timerRef.Some? then r.(intervals := r.intervals - {r.timerRef.value}, timerRef := None) else r
  }

  /**
   * `onstop` of recorder `k`: pack the shared chunks, open the password
   * modal, stop that recorder's tracks and null the `stream` state.
   */
  function RecorderStopped(s: SealState, k: nat): (r: SealState)
    ensures k < |s.recorders| && s.recorders[k] == Stopping ==>
      && r.pending == Some(AudioBlob(s.chunks, AudioMime))
      && r.showPasswordModal && !r.streamHeld && r.recorders == s.recorders[k := Inactive]
      && r.recording == s.recording && r.password == s.password && r.intervals == s.intervals
      && r.timerRef == s.timerRef && r.acquiring == s.acquiring
    ensures !(k < |s.recorders| && s.recorders[k] == Stopping) ==> r == s
  {
    if k < |s.recorders| && s.recorders[k] == Stopping then
      s.(pending := Some(AudioBlob(s.chunks, AudioMime)), showPasswordModal := true,
         streamHeld := false, recorders := s.recorders[k := Inactive])
    else s
  }

  /** The password input's `onChange`. */
  function PasswordChanged(s: SealState, p: string): (r: SealState)
    ensures r.password == p && r.(password := s.password) == s
  {
    s.(password := p)
  }

  /** The modal's Cancel button and its `onClose`: close it and forget the password, keep the recording. */
  function CancelModal(s: SealState): (r: SealState)
    ensures !r.showPasswordModal && r.password == ""
    ensures r.pending == s.pending && r.recording == s.recording && r.processing == s.processing
    ensures r.qrImage == s.qrImage && r.intervals == s.intervals && r.toast == s.toast
    ensures r.timerRef == s.timerRef && r.recorders == s.recorders && r.streamHeld == s.streamHeld && r.acquiring == s.acquiring
  {
    s.(showPasswordModal := false, password := "")
  }

  /**
   * The first, synchronous half of `handlePasswordSubmit`: validate, then
   * close the modal, raise `processing` and build the request.
   */
  function SubmitPassword(s: SealState): (r: (SealState, Option<SealRequest>))
    ensures IsBlank(s.password) ==> r == (s.(toast := Some(Toast(EmptyPassword, Warning))), None)
    ensures !IsBlank(s.password) && s.pending.None? ==> r == (s.(toast := Some(Toast(NoRecording, Error))), None)
    ensures r.1.Some? <==> !IsBlank(s.password) && s.pending.Some?
    ensures r.1.Some? ==>
      && r.1.value == SealRequest(s.pending.value, AudioFileName, s.password)
      && r.0 == s.(showPasswordModal := false, processing := true)
  {
    TrimEmptyIffBlank(s.password);
    if Trim(s.password) == "" then (s.(toast := Some(Toast(EmptyPassword, Warning))), None)
    else if s.pending.None? then (s.(toast := Some(Toast(NoRecording, Error))), None)
    else (s.(showPasswordModal := false, processing := true),
          Some(SealRequest(s.pending.value, AudioFileName, s.password)))
  }

  /** `error.error || 'Failed to create seal'`. */
  function FailureText(errorField: Option<string>): (t: string)
    ensures errorField.Some? && Truthy(errorField.value) ==> t == errorField.value
    ensures errorField.None? || errorField.value == "" ==> t == SealFailed
  {
    if errorField.Some? && Truthy(errorField.value) then errorField.value else SealFailed
  }

  /** The second half of `handlePasswordSubmit`: the outcome's `try` branch, then `finally`. */
  function CompleteSubmit(s: SealState, outcome: SealResponse): (r: SealState)
    ensures !r.processing && r.password == "" && r.pending.None?
    ensures outcome.Ok? ==> r.qrImage == Some(outcome.image) && r.toast == Some(Toast(SealCreated, Success))
    ensures outcome.NotOk? ==> r.qrImage == s.qrImage && r.toast == Some(Toast(FailureText(outcome.errorField), Error))
    ensures outcome.Exception? ==> r.qrImage == s.qrImage && r.toast == Some(Toast(ConnectionFailed, Error))
    ensures r.recording == s.recording && r.showPasswordModal == s.showPasswordModal && r.intervals == s.intervals
    ensures r.recorders == s.recorders && r.streamHeld == s.streamHeld && r.acquiring == s.acquiring
    ensures r.timerRef == s.timerRef && r.chunks == s.chunks && r.recordingTime == s.recordingTime
  {
    var settled := match outcome
      case Ok(image) => s.(qrImage := Some(image), toast := Some(Toast(SealCreated, Success)))
      case NotOk(e) => s.(toast := Some(Toast(FailureText(e), Error)))
      case Exception => s.(toast := Some(Toast(ConnectionFailed, Error)));
    settled.(processing := false, password := "", pending := None)
  }

  /** `handlePasswordSubmit` run to completion against a given service outcome. */
  function HandlePasswordSubmit(s: SealState, outcome: SealResponse): (r: (SealState, Option<SealRequest>))
    ensures r.1.None? ==> r.0.pending == s.pending && r.0.password == s.password && r.0.processing == s.processing
    ensures r.1.None? ==> r.0.toast.Some? && r.0.toast.value.kind in {Warning, Error}
    ensures r.1.Some? ==> !r.0.processing && r.0.password == "" && r.0.pending.None? && !r.0.showPasswordModal
    ensures r.1.Some? <==> !IsBlank(s.password) && s.pending.Some?
  {
    var (submitted, request) := SubmitPassword(s);
    if request.None? then (submitted, None) else (CompleteSubmit(submitted, outcome), request)
  }

  /**
   * The modal's submit button: `handlePasswordSubmit` up to its `await`. A
   * request that passes validation is one more awaiting the service; either
   * way, timers, recorders and the microphone are left alone.
   */
  function Send(s: SealState): (r: SealState)
    ensures !IsBlank(s.password) && s.pending.Some? ==> r.inFlight == s.inFlight + 1 && r.processing && !r.showPasswordModal
    ensures IsBlank(s.password) || s.pending.None? ==> r.inFlight == s.inFlight && r.showPasswordModal == s.showPasswordModal
    ensures r.recording == s.recording && r.timerRef == s.timerRef && r.intervals == s.intervals
    ensures r.recorders == s.recorders && r.streamHeld == s.streamHeld && r.acquiring == s.acquiring
  {
    var (t, request) := SubmitPassword(s);
    if request.Some? then t.(inFlight := t.inFlight + 1) else t
  }

  /** What the record button does when clicked. */
  datatype RecordAction = StartAction | StopAction

  /** `onClick={recording ? stopRecording : startRecording}` with `disabled={processing}`. */
  function RecordButton(s: SealState): (a: Option<RecordAction>)
    ensures a.None? <==> s.processing
    ensures a == Some(StopAction) <==> !s.processing && s.recording
    ensures a == Some(StartAction) <==> !s.processing && !s.recording
  {
    if s.processing then None else if s.recording then Some(StopAction) else Some(StartAction)
  }

  /** Everything that can happen to the view; `recorder` is a position in `recorders`. */
  datatype Event =
    | ClickRecord
    | MicSettled(mic: MicOutcome)
    | IntervalFired(id: TimerId)
    | ChunkDelivered(recorder: nat, data: Chunk)
    | RecorderFinished(recorder: nat)
    | TypePassword(p: string)
    | Submit
    | Replied(reply: SealResponse)
    | Cancel

  /**
   * One event as the page lets it happen: the modal's controls exist only
   * while it is open, and a resumption needs a call that is waiting for it.
   * The record button is disabled only while `processing`; the modal's
   * backdrop stops pointer clicks but not the keyboard, so the button can
   * still be pressed behind an open modal. A click that starts a recording
   * only asks for the microphone; the recording begins when the grant
   * arrives.
   */
  function Step(s: SealState, e: Event): (r: SealState)
    ensures e.ClickRecord? && s.processing ==> r == s
    ensures e.ClickRecord? && !s.processing && s.recording ==> r == StopRecording(s)
    ensures e.ClickRecord? && !s.processing && !s.recording ==> r == s.(acquiring := s.acquiring + 1)
    ensures !s.showPasswordModal && (e.TypePassword? || e.Submit? || e.Cancel?) ==> r == s
    ensures e.MicSettled? && s.acquiring == 0 ==> r == s
    ensures e.Replied? && s.inFlight == 0 ==> r == s
  {
    match e
    case ClickRecord =>
      (match RecordButton(s)
       case None => s
       case Some(StopAction) => StopRecording(s)
       case Some(StartAction) => s.(acquiring := s.acquiring + 1))
    case MicSettled(mic) =>
      if s.acquiring == 0 then s else StartRecording(s.(acquiring := s.acquiring - 1), mic)
    case IntervalFired(id) => Tick(s, id)
    case ChunkDelivered(k, data) => DataAvailable(s, k, data)
    case RecorderFinished(k) => RecorderStopped(s, k)
    case TypePassword(p) => if s.showPasswordModal then PasswordChanged(s, p) else s
    case Submit => if s.showPasswordModal then Send(s) else s
    case Replied(reply) =>
      if s.inFlight == 0 then s else CompleteSubmit(s.(inFlight := s.inFlight - 1), reply)
    case Cancel => if s.showPasswordModal then CancelModal(s) else s
  }

  function Run(s: SealState, events: seq<Event>): SealState
    decreases |events|
  {
    if |events| == 0 then s else Run(Step(s, events[0]), events[1..])
  }

  /**
   * What the view shows agrees with what it holds: "recording" exactly
   * while `timerRef` holds an interval that is still firing and the current
   * recorder is capturing.
   */
  predicate Consistent(s: SealState) {
    && (s.recording <==> s.timerRef.Some?)
    && (s.timerRef.Some? ==> s.timerRef.value in s.intervals)
    && (s.recording <==> Current(s) == Capturing)
  }

  /** `s` and `r` agree on everything that shows or holds a timer, a recorder or the microphone. */
  predicate SameResources(s: SealState, r: SealState) {
    && r.recording == s.recording && r.timerRef == s.timerRef && r.intervals == s.intervals
    && r.recorders == s.recorders && r.streamHeld == s.streamHeld && r.acquiring == s.acquiring
  }

  /** A step that leaves the recording flag, timers and recorders alone keeps the view consistent. */
  lemma SameResourcesConsistent(s: SealState, r: SealState)
    requires Consistent(s)
    requires r.recording == s.recording && r.timerRef == s.timerRef && r.intervals == s.intervals
    requires r.recorders == s.recorders
    ensures Consistent(r)
  {
    assert Current(r) == Current(s);
  }

  lemma StopKeepsConsistent(s: SealState)
    requires Consistent(s) && s.recording
    ensures Consistent(StopRecording(s))
  {
  }

  lemma FinishKeepsConsistent(s: SealState, k: nat)
    requires Consistent(s)
    ensures Consistent(RecorderStopped(s, k))
  {
    if k < |s.recorders| && s.recorders[k] == Stopping {
      var r := RecorderStopped(s, k);
      assert |r.recorders| == |s.recorders|;
      if k == |s.recorders| - 1 {
        assert Current(r) == Inactive && Current(s) == Stopping;
      } else {
        assert Current(r) == Current(s);
      }
    }
  }

  /** Every event of the page as written keeps the view consistent with what it holds. */
  lemma StepKeepsConsistent(s: SealState, e: Event)
    requires Consistent(s)
    ensures Consistent(Step(s, e))
  {
    match e
    case ClickRecord => ClickKeepsConsistent(s);
    case MicSettled(mic) =>
      if s.acquiring > 0 {
        var t := s.(acquiring := s.acquiring - 1);
        assert Step(s, e) == StartRecording(t, mic);
        SameResourcesConsistent(s, t);
      }
    case IntervalFired(id) => SameResourcesConsistent(s, Tick(s, id));
    case ChunkDelivered(k, data) => SameResourcesConsistent(s, DataAvailable(s, k, data));
    case RecorderFinished(k) => FinishKeepsConsistent(s, k);
    case TypePassword(p) => SameResourcesConsistent(s, Step(s, e));
    case Submit => SubmitKeepsConsistent(s);
    case Replied(reply) => ReplyKeepsConsistent(s, reply);
    case Cancel => SameResourcesConsistent(s, Step(s, e));
  }

  lemma ClickKeepsConsistent(s: SealState)
    requires Consistent(s)
    ensures Consistent(Step(s, ClickRecord))
  {
    if s.processing {
    } else if s.recording {
      StopKeepsConsistent(s);
    } else {
      SameResourcesConsistent(s, s.(acquiring := s.acquiring + 1));
    }
  }

  lemma SubmitKeepsConsistent(s: SealState)
    requires Consistent(s)
    ensures Consistent(Step(s, Submit))
  {
    if s.showPasswordModal {
      assert Step(s, Submit) == Send(s);
      SameResourcesConsistent(s, Send(s));
    }
  }

  lemma ReplyKeepsConsistent(s: SealState, reply: SealResponse)
    requires Consistent(s)
    ensures Consistent(Step(s, Replied(reply)))
  {
    if s.inFlight > 0 {
      var r := CompleteSubmit(s.(inFlight := s.inFlight - 1), reply);
      assert Step(s, Replied(reply)) == r;
      SameResourcesConsistent(s, r);
    }
  }

  lemma {:induction false} RunKeepsConsistent(s: SealState, events: seq<Event>)
    requires Consistent(s)
    ensures Consistent(Run(s, events))
    decreases |events|
  {
    if |events| > 0 {
      StepKeepsConsistent(s, events[0]);
      RunKeepsConsistent(Step(s, events[0]), events[1..]);
    }
  }

  /**
   * A recorder that was replaced while capturing is never stopped again:
   * `stopRecording` reaches only `mediaRecorder.current`, and nothing else
   * stops a recorder. Whatever happens afterwards, it keeps capturing and
   * its microphone tracks stay live.
   */
  lemma StepKeepsOrphan(s: SealState, e: Event, k: nat)
    requires k < |s.recorders| - 1 && s.recorders[k] == Capturing
    ensures var r := Step(s, e); k < |r.recorders| - 1 && r.recorders[k] == Capturing
  {
  }

  lemma {:induction false} OrphanNeverStops(s: SealState, events: seq<Event>, k: nat)
    requires k < |s.recorders| - 1 && s.recorders[k] == Capturing
    ensures var r := Run(s, events); k < |r.recorders| - 1 && r.recorders[k] == Capturing
    decreases |events|
  {
    if |events| > 0 {
      StepKeepsOrphan(s, events[0], k);
      OrphanNeverStops(Step(s, events[0]), events[1..], k);
    }
  }

  /**
   * An interval that `timerRef` no longer holds is never cleared: it keeps
   * firing as long as no later grant hands out the same handle.
   */
  lemma {:induction false} OrphanIntervalFiresForever(s: SealState, events: seq<Event>, id: TimerId)
    requires id in s.intervals && s.timerRef != Some(id)
    requires forall i :: 0 <= i < |events| ==> events[i] != MicSettled(Granted(id))
    ensures id in Run(s, events).intervals
    decreases |events|
  {
    if |events| > 0 {
      var next := Step(s, events[0]);
      assert id in next.intervals && next.timerRef != Some(id);
      OrphanIntervalFiresForever(next, events[1..], id);
    }
  }

  /**
   * No resource escapes: the only firing interval is the one `timerRef`
   * holds, only the current recorder may hold the microphone and the
   * `stream` state shows exactly that, and a microphone request is under way
   * only alone, with no recorder running.
   */
  predicate NoLeak(s: SealState) {
    && Consistent(s)
    && s.intervals == (if s.timerRef.Some? then {s.timerRef.value} else {})
    && (forall k :: 0 <= k < |s.recorders| - 1 ==> !s.recorders[k].Running())
    && (s.streamHeld <==> Current(s).Running())
    && (s.acquiring > 0 ==> s.acquiring == 1 && !Current(s).Running())
  }

  /**
   * Two clicks before the microphone answers start two acquisitions, and
   * both grants start a recording. Stop then reaches only the second: the
   * first recorder keeps capturing and the first interval keeps firing.
   */
  lemma DoubleStartLeaks()
    ensures var clicked := Step(Step(Initial, ClickRecord), ClickRecord);
      var first := Step(clicked, MicSettled(Granted(1)));
      var second := Step(first, MicSettled(Granted(2)));
      var stopped := Step(second, ClickRecord);
      && clicked.acquiring == 2 && !clicked.recording
      && stopped.recorders == [Capturing, Stopping] && !stopped.recording
      && 1 in stopped.intervals && stopped.timerRef.None?
      && Consistent(stopped) && !NoLeak(stopped)
  {
    var once := Step(Initial, ClickRecord);
    assert once == Initial.(acquiring := 1);
    var clicked := Step(once, ClickRecord);
    assert clicked == Initial.(acquiring := 2);
    var first := Step(clicked, MicSettled(Granted(1)));
    assert first.recorders == [Capturing] && first.intervals == {1} && first.timerRef == Some(1);
    var second := Step(first, MicSettled(Granted(2)));
    assert second.recorders == [Capturing, Capturing] && second.intervals == {1, 2} && second.timerRef == Some(2);
    assert second.recording && !second.processing;
    var stopped := Step(second, ClickRecord);
    assert stopped == StopRecording(second);
    assert stopped.recorders == [Capturing, Stopping];
    assert !(0 < |stopped.recorders| - 1 ==> !stopped.recorders[0].Running());
  }

  /**
   * The record button as evidently intended: besides `processing`, it also
   * refuses to start while the microphone is being requested or the
   * previous recorder has not finished stopping.
   */
  function GuardedStep(s: SealState, e: Event): (r: SealState)
    ensures e.ClickRecord? && !s.recording && (s.acquiring > 0 || Current(s).Running()) ==> r == s
    ensures !(e.ClickRecord? && !s.recording && (s.acquiring > 0 || Current(s).Running())) ==> r == Step(s, e)
  {
    if e.ClickRecord? && !s.recording && (s.acquiring > 0 || Current(s).Running()) then s else Step(s, e)
  }

  function GuardedRun(s: SealState, events: seq<Event>): SealState
    decreases |events|
  {
    if |events| == 0 then s else GuardedRun(GuardedStep(s, events[0]), events[1..])
  }

  lemma InitialNoLeak()
    ensures NoLeak(Initial)
  {
  }

  lemma StopKeepsNoLeak(s: SealState)
    requires NoLeak(s) && s.recording
    ensures NoLeak(StopRecording(s))
  {
    var r := StopRecording(s);
    assert Current(r) == Stopping && r.intervals == {};
  }

  /** Under the guard a grant lands on a page with nothing running, and the new recorder is the only one. */
  lemma GrantKeepsNoLeak(s: SealState, mic: MicOutcome)
    requires NoLeak(s) && s.acquiring == 1
    ensures NoLeak(StartRecording(s.(acquiring := 0), mic))
  {
    var t := s.(acquiring := 0);
    if mic.Granted? {
      var r := StartRecording(t, mic);
      assert s.intervals == {} && !Current(s).Running();
      assert forall k :: 0 <= k < |r.recorders| - 1 ==> r.recorders[k] == s.recorders[k];
    }
  }

  lemma FinishKeepsNoLeak(s: SealState, k: nat)
    requires NoLeak(s)
    ensures NoLeak(RecorderStopped(s, k))
  {
    FinishKeepsConsistent(s, k);
    if k < |s.recorders| && s.recorders[k] == Stopping {
      assert k == |s.recorders| - 1;
      var r := RecorderStopped(s, k);
      assert Current(r) == Inactive;
      assert forall j :: 0 <= j < |r.recorders| - 1 ==> r.recorders[j] == s.recorders[j];
    }
  }

  /** A step that leaves timers, recorders and the microphone alone leaks nothing. */
  lemma SameResourcesNoLeak(s: SealState, r: SealState)
    requires NoLeak(s) && SameResources(s, r)
    ensures NoLeak(r)
  {
    SameResourcesConsistent(s, r);
    assert Current(r) == Current(s);
  }

  lemma SubmitKeepsNoLeak(s: SealState)
    requires NoLeak(s) && s.showPasswordModal
    ensures NoLeak(Step(s, Submit))
  {
    assert Step(s, Submit) == Send(s);
    SameResourcesNoLeak(s, Send(s));
  }

  lemma ReplyKeepsNoLeak(s: SealState, reply: SealResponse)
    requires NoLeak(s) && s.inFlight > 0
    ensures NoLeak(Step(s, Replied(reply)))
  {
    var r := CompleteSubmit(s.(inFlight := s.inFlight - 1), reply);
    assert Step(s, Replied(reply)) == r;
    SameResourcesNoLeak(s, r);
  }

  lemma GuardedStepKeepsNoLeak(s: SealState, e: Event)
    requires NoLeak(s)
    ensures NoLeak(GuardedStep(s, e))
  {
    var r := GuardedStep(s, e);
    match e
    case ClickRecord =>
      if !s.processing && s.recording {
        StopKeepsNoLeak(s);
      }
    case MicSettled(mic) =>
      if s.acquiring > 0 {
        GrantKeepsNoLeak(s, mic);
      }
    case RecorderFinished(k) => FinishKeepsNoLeak(s, k);
    case Submit =>
      if s.showPasswordModal {
        SubmitKeepsNoLeak(s);
      }
    case Replied(reply) =>
      if s.inFlight > 0 {
        ReplyKeepsNoLeak(s, reply);
      }
    case IntervalFired(id) => SameResourcesNoLeak(s, r);
    case ChunkDelivered(k, data) => SameResourcesNoLeak(s, r);
    case TypePassword(p) => SameResourcesNoLeak(s, r);
    case Cancel => SameResourcesNoLeak(s, r);
  }

  /**
   * With the guarded button, no sequence of events leaks an interval or the
   * microphone: the only interval is the current one and the only recorder
   * that may hold the microphone is the current one.
   */
  lemma {:induction false} GuardedRunKeepsNoLeak(s: SealState, events: seq<Event>)
    requires NoLeak(s)
    ensures NoLeak(GuardedRun(s, events))
    decreases |events|
  {
    if |events| > 0 {
      GuardedStepKeepsNoLeak(s, events[0]);
      GuardedRunKeepsNoLeak(GuardedStep(s, events[0]), events[1..]);
    }
  }

  /** Delivers chunks from recorder `k`, one after another. */
  function Deliver(s: SealState, k: nat, ds: seq<Chunk>): SealState
    decreases |ds|
  {
    if |ds| == 0 then s else Deliver(DataAvailable(s, k, ds[0]), k, ds[1..])
  }

  /** While recorder `k` runs, its chunks are appended in arrival order and nothing else changes. */
  lemma {:induction false} DeliverAppends(s: SealState, k: nat, ds: seq<Chunk>)
    requires k < |s.recorders| && s.recorders[k].Running()
    ensures Deliver(s, k, ds) == s.(chunks := s.chunks + ds)
    decreases |ds|
  {
    if |ds| > 0 {
      DeliverAppends(DataAvailable(s, k, ds[0]), k, ds[1..]);
      assert s.chunks + [ds[0]] + ds[1..] == s.chunks + ds;
    }
  }

  /**
   * A whole recording from a page with nothing running: a grant, chunks
   * while capturing, a stop, the final chunks, and the recorder's `onstop`.
   * The payload is every chunk in arrival order tagged `audio/wav`, the
   * password modal is open, and the microphone and the interval are
   * released.
   */
  lemma RecordingPayload(s: SealState, id: TimerId, before: seq<Chunk>, after: seq<Chunk>)
    requires NoLeak(s) && !Current(s).Running()
    ensures var k := |s.recorders|;
      var started := StartRecording(s, Granted(id));
      var r := RecorderStopped(Deliver(StopRecording(Deliver(started, k, before)), k, after), k);
      && r.pending == Some(AudioBlob(before + after, AudioMime))
      && r.showPasswordModal && !r.streamHeld && !r.recording
      && r.recorders == s.recorders + [Inactive]
      && r.intervals == {} && r.timerRef.None?
  {
    var k := |s.recorders|;
    var started := StartRecording(s, Granted(id));
    assert started.recorders[k] == Capturing && started.chunks == [] && started.intervals == {id};
    DeliverAppends(started, k, before);
    var captured := Deliver(started, k, before);
    assert captured.chunks == before && captured.timerRef == Some(id) && captured.recorders == started.recorders;
    var stopped := StopRecording(captured);
    assert stopped.recorders == s.recorders + [Stopping] && stopped.intervals == {} && stopped.chunks == before;
    DeliverAppends(stopped, k, after);
    var finished := Deliver(stopped, k, after);
    assert finished.chunks == before + after && finished.recorders == s.recorders + [Stopping];
    assert finished.intervals == {} && finished.timerRef.None? && !finished.recording;
    assert finished.recorders[k := Inactive] == s.recorders + [Inactive];
  }
}
