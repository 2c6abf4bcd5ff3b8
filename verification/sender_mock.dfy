/**
 * The text-message sender: the status machine of `useSender`
 * (`features/sender/useSender.ts`) and the controls that drive it
 * (`features/sender/SenderControls.tsx`). The backend call is a stand-in
 * that resolves after a delay; here its settling is an event with an
 * outcome, and so is the timer that returns a success to idle.
 */
module SenderMock {
  import opened Common

  /** `SenderStatusType`: "idle" | "transmitting" | "success" | "error". */
  datatype SenderStatus = Idle | Transmitting | Succeeded | Failed

  const TransmissionFailed := "Transmission failed"
  const IdleLabel := "Encrypt & Transmit"
  const BusyLabel := "Encrypting & Transmitting..."

  datatype SenderState = SenderState(
    message: string,
    status: SenderStatus,
    error: Option<string>,
    callsInFlight: nat,     // backend calls awaited by a `transmit`
    resetsPending: nat)     // 2 s timers that will set the status back to idle

  const Initial := SenderState("", Idle, None, 0, 0)

  /** `transmit` up to its `await`: a blank message returns at once. */
  function Transmit(s: SenderState): (r: SenderState)
    ensures IsBlank(s.message) ==> r == s
    ensures !IsBlank(s.message) ==>
      && r.status == Transmitting && r.error.None?
      && r.callsInFlight == s.callsInFlight + 1 && r.resetsPending == s.resetsPending
    ensures r.message == s.message
  {
    TrimEmptyIffBlank(s.message);
    if !Truthy(Trim(s.message)) then s
    else s.(status := Transmitting, error := None, callsInFlight := s.callsInFlight + 1)
  }

  /** `transmit` after its `await`: success schedules the return to idle, failure records the error. */
  function CallSettled(s: SenderState, ok: bool): (r: SenderState)
    ensures s.callsInFlight == 0 ==> r == s
    ensures s.callsInFlight > 0 ==> r.callsInFlight == s.callsInFlight - 1
    ensures s.callsInFlight > 0 && ok ==>
      r.status == Succeeded && r.resetsPending == s.resetsPending + 1 && r.error == s.error
    ensures s.callsInFlight > 0 && !ok ==>
      r.status == Failed && r.error == Some(TransmissionFailed) && r.resetsPending == s.resetsPending
    ensures r.message == s.message
  {
    if s.callsInFlight == 0 then s
    else if ok then s.(status := Succeeded, callsInFlight := s.callsInFlight - 1, resetsPending := s.resetsPending + 1)
    else s.(status := Failed, error := Some(TransmissionFailed), callsInFlight := s.callsInFlight - 1)
  }

  /** The `setTimeout` after a success: it sets idle whatever the status is by then. */
  function ResetTimerFired(s: SenderState): (r: SenderState)
    ensures s.resetsPending > 0 ==> r.status == Idle && r.resetsPending == s.resetsPending - 1
    ensures s.resetsPending > 0 ==> r.callsInFlight == s.callsInFlight && r.error == s.error
    ensures s.resetsPending == 0 ==> r == s
    ensures r.message == s.message
  {
    if s.resetsPending > 0 then s.(status := Idle, resetsPending := s.resetsPending - 1) else s
  }

  /** The textarea's `onChange`: the new value goes to `setMessage` unchanged. */
  function SetMessage(s: SenderState, value: string): (r: SenderState)
    ensures r.message == value && r.(message := s.message) == s
  {
    s.(message := value)
  }

  /** `isLoading` of `SenderControls`. */
  predicate IsLoading(status: SenderStatus)
    ensures !IsLoading(status) <==> status in {Idle, Succeeded, Failed}
  {
    status == Transmitting
  }

  /** The transmit button as rendered. */
  datatype ButtonView = ButtonView(disabled: bool, caption: string)

  function TransmitButton(status: SenderStatus): (b: ButtonView)
    ensures b.disabled <==> status == Transmitting
    ensures b.caption == BusyLabel <==> status == Transmitting
    ensures b.caption == IdleLabel <==> status != Transmitting
  {
    var loading := IsLoading(status);
    ButtonView(loading, if loading then BusyLabel else IdleLabel)
  }

  datatype Event = Type(value: string) | ClickTransmit | Settle(ok: bool) | ResetFires

  /** One event as the controls let it happen: a disabled button ignores clicks. */
  function Step(s: SenderState, e: Event): (r: SenderState)
    ensures e.ClickTransmit? && s.status == Transmitting ==> r == s
    ensures e.Type? ==> r.message == e.value
    ensures !e.Type? ==> r.message == s.message
  {
    match e
    case Type(value) => SetMessage(s, value)
    case ClickTransmit => if TransmitButton(s.status).disabled then s else Transmit(s)
    case Settle(ok) => CallSettled(s, ok)
    case ResetFires => ResetTimerFired(s)
  }

  function Run(s: SenderState, events: seq<Event>): SenderState
    decreases |events|
  {
    if |events| == 0 then s else Run(Step(s, events[0]), events[1..])
  }

  function CountTyping(events: seq<Event>): nat {
    if |events| == 0 then 0 else (if events[0].Type? then 1 else 0) + CountTyping(events[1..])
  }

  /** Only typing changes the message: a run without typing leaves it as it was. */
  lemma {:induction false} OnlyTypingChangesMessage(s: SenderState, events: seq<Event>)
    requires CountTyping(events) == 0
    ensures Run(s, events).message == s.message
    decreases |events|
  {
    if |events| > 0 {
      OnlyTypingChangesMessage(Step(s, events[0]), events[1..]);
    }
  }

  /** While the status shows "transmitting", a backend call is outstanding. */
  predicate Inv(s: SenderState) {
    s.status == Transmitting ==> s.callsInFlight > 0
  }

  lemma {:induction false} RunPreservesInv(s: SenderState, events: seq<Event>)
    requires Inv(s)
    ensures Inv(Run(s, events))
    decreases |events|
  {
    if |events| > 0 {
      RunPreservesInv(Step(s, events[0]), events[1..]);
    }
  }

  /**
   * The return-to-idle timer of one success can fire during the next
   * transmission: the status reads idle, the button is enabled again, and a
   * second click starts an overlapping call.
   */
  lemma StaleResetAllowsOverlap()
    ensures var typed := Step(Initial, Type("hi"));
      var first := Step(typed, ClickTransmit);
      var succeeded := Step(first, Settle(true));
      var second := Step(succeeded, ClickTransmit);
      var reset := Step(second, ResetFires);
      var third := Step(reset, ClickTransmit);
      && second.status == Transmitting && reset.status == Idle
      && reset.callsInFlight == 1 && !TransmitButton(reset.status).disabled
      && third.status == Transmitting && third.callsInFlight == 2
  {
    var typed := Step(Initial, Type("hi"));
    assert typed == SenderState("hi", Idle, None, 0, 0);
    assert !IsBlank(typed.message) by {
      assert !IsJsWhitespace(typed.message[0]);
    }
    var first := Step(typed, ClickTransmit);
    assert first == SenderState("hi", Transmitting, None, 1, 0);
    var succeeded := Step(first, Settle(true));
    assert succeeded == SenderState("hi", Succeeded, None, 0, 1);
    var second := Step(succeeded, ClickTransmit);
    assert second == SenderState("hi", Transmitting, None, 1, 1);
    var reset := Step(second, ResetFires);
    assert reset == SenderState("hi", Idle, None, 1, 0);
    assert Step(reset, ClickTransmit) == SenderState("hi", Transmitting, None, 2, 0);
  }
}
