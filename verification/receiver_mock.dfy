/**
 * The simulated listener: the status machine of `useReceiver`
 * (`features/receiver/useReceiver.ts`) and the single button of
 * `features/receiver/ReceiverControls.tsx`. Each `startListening` call is an
 * asynchronous run that waits three times (two delays, then the stand-in
 * decoder); a run's resumptions are events, and `stopListening` does not
 * cancel them.
 */
module ReceiverMock {
  import opened Common

  /** `ReceiverStatusType`. */
  datatype ReceiverStatus = Idle | Listening | SignalDetected | Decoding | Received | Failed

  const DecodingFailed := "Decoding failed"

  /** `fakeDecode`'s fixed result. */
  const FakeMessage := "This is a decoded secure message."

  /** What a run of `startListening` is waiting for. */
  datatype Stage = AwaitSignal | AwaitDecoder | AwaitMessage

  datatype ReceiverState = ReceiverState(
    status: ReceiverStatus,
    decodedMessage: Option<string>,
    error: Option<string>,
    runs: seq<Stage>)       // `startListening` calls still suspended at an `await`

  const Initial := ReceiverState(Idle, None, None, [])

  /** `fakeDecode`: whatever was heard, the same message. */
  function FakeDecode(): (m: string)
    ensures m == FakeMessage
  {
    FakeMessage
  }

  /** `startListening` up to its first `await`. */
  function StartListening(s: ReceiverState): (r: ReceiverState)
    ensures r.status == Listening && r.error.None? && r.decodedMessage.None?
    ensures r.runs == s.runs + [AwaitSignal]
  {
    ReceiverState(Listening, None, None, s.runs + [AwaitSignal])
  }

  function Remove(runs: seq<Stage>, i: nat): (r: seq<Stage>)
    requires i < |runs|
    ensures |r| == |runs| - 1
    ensures forall j :: 0 <= j < i ==> r[j] == runs[j]
    ensures forall j :: i <= j < |r| ==> r[j] == runs[j + 1]
  {
    runs[..i] + runs[i + 1..]
  }

  /** Run `i` resumes after its `await` and runs to its next `await` or to its end; no step checks the status. */
  function Resume(s: ReceiverState, i: nat): (r: ReceiverState)
    ensures i >= |s.runs| ==> r == s
    ensures i < |s.runs| && s.runs[i] == AwaitSignal ==>
      r == s.(status := SignalDetected, runs := s.runs[i := AwaitDecoder])
    ensures i < |s.runs| && s.runs[i] == AwaitDecoder ==>
      r == s.(status := Decoding, runs := s.runs[i := AwaitMessage])
    ensures i < |s.runs| && s.runs[i] == AwaitMessage ==>
      r.status == Received && r.decodedMessage == Some(FakeMessage) && r.error == s.error
    ensures i < |s.runs| ==> r.status != Idle
  {
    if i >= |s.runs| then s
    else match s.runs[i]
      case AwaitSignal => s.(status := SignalDetected, runs := s.runs[i := AwaitDecoder])
      case AwaitDecoder => s.(status := Decoding, runs := s.runs[i := AwaitMessage])
      case AwaitMessage => s.(decodedMessage := Some(FakeDecode()), status := Received, runs := Remove(s.runs, i))
  }

  /** Run `i` throws at its `await`: the `catch` branch. */
  function Throw(s: ReceiverState, i: nat): (r: ReceiverState)
    ensures i < |s.runs| ==> r.status == Failed && r.error == Some(DecodingFailed) && |r.runs| == |s.runs| - 1
    ensures i < |s.runs| ==> r.decodedMessage == s.decodedMessage
    ensures i >= |s.runs| ==> r == s
  {
    if i < |s.runs| then s.(status := Failed, error := Some(DecodingFailed), runs := Remove(s.runs, i)) else s
  }

  /** `stopListening`: back to idle with nothing decoded and no error; suspended runs carry on. */
  function StopListening(s: ReceiverState): (r: ReceiverState)
    ensures r.status == Idle && r.decodedMessage.None? && r.error.None?
    ensures r.runs == s.runs
  {
    s.(status := Idle, decodedMessage := None, error := None)
  }

  /** `isListening` of `ReceiverControls`. */
  predicate IsListening(status: ReceiverStatus)
    ensures !IsListening(status) <==> status in {Idle, Received, Failed}
  {
    status == Listening || status == SignalDetected || status == Decoding
  }

  /** The one button `ReceiverControls` renders, named by the action it calls. */
  datatype ControlAction = CallStartListening | CallStopListening

  function OfferedAction(status: ReceiverStatus): (a: ControlAction)
    ensures a == CallStopListening <==> status in {Listening, SignalDetected, Decoding}
    ensures a == CallStartListening <==> status in {Idle, Received, Failed}
  {
    if IsListening(status) then CallStopListening else CallStartListening
  }

  /** Clicking the button calls the action it offers. */
  function Click(s: ReceiverState): (r: ReceiverState)
    ensures IsListening(s.status) ==> r == StopListening(s)
    ensures !IsListening(s.status) ==> r == StartListening(s)
  {
    match OfferedAction(s.status)
    case CallStopListening => StopListening(s)
    case CallStartListening => StartListening(s)
  }

  /** Everything that can happen: a press of the one button, or a run resuming or throwing at its `await`. */
  datatype Event = Press | Resumed(run: nat) | Thrown(run: nat)

  function Step(s: ReceiverState, e: Event): ReceiverState {
    match e
    case Press => Click(s)
    case Resumed(i) => Resume(s, i)
    case Thrown(i) => Throw(s, i)
  }

  function Run(s: ReceiverState, events: seq<Event>): ReceiverState
    decreases |events|
  {
    if |events| == 0 then s else Run(Step(s, events[0]), events[1..])
  }

  /**
   * What the status panel may rely on: "received" always comes with the
   * decoder's message, and "error" always with the failure text.
   */
  predicate Inv(s: ReceiverState) {
    && (s.status == Received ==> s.decodedMessage == Some(FakeMessage))
    && (s.status == Failed ==> s.error == Some(DecodingFailed))
  }

  /** However presses, resumptions and throws interleave, the status panel's reliance holds. */
  lemma {:induction false} RunPreservesInv(s: ReceiverState, events: seq<Event>)
    requires Inv(s)
    ensures Inv(Run(s, events))
    decreases |events|
  {
    if |events| > 0 {
      RunPreservesInv(Step(s, events[0]), events[1..]);
    }
  }

  /**
   * A run left undisturbed goes listening, signal detected, decoding,
   * received; the message is set only at the last step.
   */
  lemma UndisturbedRun(s: ReceiverState)
    ensures var i := |s.runs|;
      var listening := StartListening(s);
      var detected := Resume(listening, i);
      var decoding := Resume(detected, i);
      var received := Resume(decoding, i);
      && listening.status == Listening && detected.status == SignalDetected
      && decoding.status == Decoding && received.status == Received
      && decoding.decodedMessage.None? && received.decodedMessage == Some(FakeMessage)
      && received.runs == s.runs && received.error.None?
  {
    var i := |s.runs|;
    var listening := StartListening(s);
    var detected := Resume(listening, i);
    assert detected.runs == s.runs + [AwaitDecoder];
    var decoding := Resume(detected, i);
    assert decoding.runs == s.runs + [AwaitMessage];
    assert Remove(decoding.runs, i) == s.runs;
  }

  /** Stopping does not cancel a suspended run: its next resumption overwrites the idle status. */
  lemma StopDoesNotCancel(s: ReceiverState, i: nat)
    requires i < |s.runs|
    ensures StopListening(s).status == Idle
    ensures Resume(StopListening(s), i).status in {SignalDetected, Decoding, Received}
  {
  }
}
