/**
 * The microphone monitor of `features/audio/useAudio.ts`: `start` acquires
 * the microphone, wires an analyser and begins per-frame sampling of the
 * signal strength; `stop` releases the device.
 *
 * The device is abstracted to two flags (the stream's tracks are live, the
 * audio context is open). `start` overwrites `streamRef` and
 * `audioContextRef` whatever they hold, and `stop` reaches only what they
 * hold, so a stream or context replaced while still live is counted as lost:
 * nothing can release it any more. Each `requestAnimationFrame` callback still to run
 * is an entry of `frames`, holding the `isActive` value its closure captured:
 * `update` tests that captured value, which is the state of the render that
 * created `start`, not the state `start` has just set.
 */
module AudioMonitor {
  import opened Common
  import AudioUtils

  const FftSize: nat := 2048

  /** `analyser.frequencyBinCount`, the length of the sample buffer. */
  const BinCount: nat := FftSize / 2

  /** The buffer after `getByteTimeDomainData`: one byte per bin. */
  type Window = w: seq<Byte> | |w| == BinCount witness seq(BinCount, _ => 128 as Byte)

  datatype AudioState = AudioState(
    stream: Option<bool>,     // `streamRef.current`; the flag: its tracks are live
    context: Option<bool>,    // `audioContextRef.current`; the flag: it is open
    analyser: bool,           // `analyserRef.current` is set
    buffer: bool,             // `dataArrayRef.current` is set
    isActive: bool,
    signalStrength: real,
    frames: seq<bool>,        // scheduled `update` callbacks, by the `isActive` each captured
    lostStreams: nat,         // streams dropped from `streamRef` while their tracks were live
    lostContexts: nat)        // contexts dropped from `audioContextRef` while still open

  const Initial := AudioState(None, None, false, false, false, 0.0, [], 0, 0)

  /** `streamRef.current = stream`: a live stream it replaces is lost. */
  function Acquire(s: AudioState): AudioState {
    s.(stream := Some(true), lostStreams := if s.stream == Some(true) then s.lostStreams + 1 else s.lostStreams)
  }

  /** `audioContextRef.current = audioContext`: an open context it replaces is lost. */
  function OpenContext(s: AudioState): AudioState {
    s.(context := Some(true), lostContexts := if s.context == Some(true) then s.lostContexts + 1 else s.lostContexts)
  }

  /** `start` past every throwing call: refs set, active. */
  function Wire(s: AudioState): AudioState {
    OpenContext(Acquire(s)).(analyser := true, buffer := true, isActive := true)
  }

  /**
   * How `start`'s `try` block ends:
   * - `getUserMedia` rejects;
   * - the stream is acquired but `new AudioContext()` throws;
   * - the context is created and stored, but `createAnalyser`,
   *   `createMediaStreamSource` or `connect` throws; `analyserSet` tells
   *   whether the analyser had been stored by then;
   * - everything is wired, and the analyser's first buffer is `first`.
   */
  datatype StartOutcome = Rejected | ContextFailed | WiringFailed(analyserSet: bool) | Wired(first: Window)

  /** The sampling loop's average: `sum / dataArray.length`. */
  function Average(w: Window): (avg: real)
    ensures AudioUtils.CalculateSignalStrength(w) == Some(avg)
    ensures 0.0 <= avg <= 128.0
  {
    AudioUtils.DeviationSum(w) as real / |w| as real
  }

  /** `update`, run with the `isActive` its closure captured. */
  function Update(s: AudioState, captured: bool, w: Window): (r: AudioState)
    ensures !captured ==> r == s
    ensures captured ==>
      && AudioUtils.CalculateSignalStrength(w) == Some(r.signalStrength)
      && r.frames == s.frames + [captured]
      && r.(signalStrength := s.signalStrength, frames := s.frames) == s
  {
    if !captured then s else s.(signalStrength := Average(w), frames := s.frames + [captured])
  }

  /** `monitorSignal`: nothing without an analyser and a buffer, else one `update` at once. */
  function MonitorSignal(s: AudioState, captured: bool, w: Window): (r: AudioState)
    ensures !s.analyser || !s.buffer ==> r == s
    ensures s.analyser && s.buffer ==> r == Update(s, captured, w)
  {
    if !s.analyser || !s.buffer then s else Update(s, captured, w)
  }

  /** `start`, given the `isActive` of the render that created it. */
  function Start(s: AudioState, captured: bool, outcome: StartOutcome): (r: AudioState)
    ensures outcome.Rejected? ==> r == s
    ensures !outcome.Rejected? ==> r.stream == Some(true)
    ensures !outcome.Rejected? && s.stream == Some(true) ==> r.lostStreams == s.lostStreams + 1
    ensures outcome.Rejected? || s.stream != Some(true) ==> r.lostStreams == s.lostStreams
    ensures outcome.ContextFailed? ==> r.context == s.context && r.analyser == s.analyser && r.buffer == s.buffer
    ensures outcome.Rejected? || outcome.ContextFailed? ==> r.lostContexts == s.lostContexts
    ensures outcome.WiringFailed? ==>
      r.context == Some(true) && r.analyser == (s.analyser || outcome.analyserSet) && r.buffer == s.buffer
    ensures (outcome.WiringFailed? || outcome.Wired?) && s.context == Some(true) ==> r.lostContexts == s.lostContexts + 1
    ensures (outcome.WiringFailed? || outcome.Wired?) && s.context != Some(true) ==> r.lostContexts == s.lostContexts
    ensures outcome.Wired? ==>
      && r.isActive && r.stream == Some(true) && r.context == Some(true) && r.analyser && r.buffer
    ensures outcome.Wired? && !captured ==> r.signalStrength == s.signalStrength && r.frames == s.frames
    ensures outcome.Wired? && captured ==>
      Some(r.signalStrength) == AudioUtils.CalculateSignalStrength(outcome.first) && |r.frames| == |s.frames| + 1
    ensures !outcome.Wired? ==> r.isActive == s.isActive && r.signalStrength == s.signalStrength && r.frames == s.frames
  {
    match outcome
    case Rejected => s
    case ContextFailed => Acquire(s)
    case WiringFailed(analyserSet) => OpenContext(Acquire(s)).(analyser := s.analyser || analyserSet)
    case Wired(w) => MonitorSignal(Wire(s), captured, w)
  }

  /**
   * `stop`: stop the tracks and close the context the refs hold, go
   * inactive, zero the strength. Lost streams and contexts stay as they are.
   */
  function Stop(s: AudioState): (r: AudioState)
    ensures r.stream.Some? <==> s.stream.Some?
    ensures r.stream.Some? ==> !r.stream.value
    ensures r.context.Some? <==> s.context.Some?
    ensures r.context.Some? ==> !r.context.value
    ensures !r.isActive && r.signalStrength == 0.0
    ensures r.frames == s.frames
    ensures r.lostStreams == s.lostStreams && r.lostContexts == s.lostContexts
  {
    s.(stream := if s.stream.Some? then Some(false) else None,
       context := if s.context.Some? then Some(false) else None,
       isActive := false,
       signalStrength := 0.0)
  }

  function RemoveFrame(frames: seq<bool>, i: nat): (r: seq<bool>)
    requires i < |frames|
    ensures |r| == |frames| - 1
  {
    frames[..i] + frames[i + 1..]
  }

  /** Animation frame `i` runs its `update` with the flag its closure captured. */
  function Frame(s: AudioState, i: nat, w: Window): (r: AudioState)
    ensures i >= |s.frames| ==> r == s
    ensures i < |s.frames| && !s.frames[i] ==> r == s.(frames := RemoveFrame(s.frames, i))
    ensures i < |s.frames| && s.frames[i] ==>
      Some(r.signalStrength) == AudioUtils.CalculateSignalStrength(w) && |r.frames| == |s.frames|
  {
    if i >= |s.frames| then s else Update(s.(frames := RemoveFrame(s.frames, i)), s.frames[i], w)
  }

  /**
   * The discrepancy of `update`'s guard. A first `start` comes from a render
   * where `isActive` is false: the monitor goes active yet never samples and
   * never schedules a frame. A `start` created while `isActive` was true
   * leaves frames that still sample after `stop`, reading a stopped stream.
   */
  lemma CapturedFlagDiscrepancy(w: Window, later: Window)
    requires AudioUtils.DeviationSum(later) > 0
    ensures var first := Start(Initial, false, Wired(w));
      first.isActive && first.frames == [] && first.signalStrength == 0.0
    ensures var stopped := Stop(Start(Initial, true, Wired(w)));
      && !stopped.isActive && |stopped.frames| == 1
      && !Frame(stopped, 0, later).isActive && Frame(stopped, 0, later).signalStrength > 0.0
  {
    var stopped := Stop(Start(Initial, true, Wired(w)));
    assert stopped.frames == [true];
    var avg := Frame(stopped, 0, later).signalStrength;
    assert avg * |later| as real == AudioUtils.DeviationSum(later) as real;
  }

  /**
   * A second `start` on a live monitor replaces the stream and the context;
   * `stop` then releases only the new pair, and the first microphone stream
   * and audio context stay open for good.
   */
  lemma RestartLosesDevice(w: Window, w2: Window, captured: bool)
    ensures var first := Start(Initial, false, Wired(w));
      var stopped := Stop(Start(first, captured, Wired(w2)));
      && first.stream == Some(true) && first.context == Some(true)
      && stopped.stream == Some(false) && stopped.context == Some(false) && !stopped.isActive
      && stopped.lostStreams == 1 && stopped.lostContexts == 1
  {
  }

  /** `update` as evidently intended: it tests the current `isActive`, not a captured copy. */
  function LiveUpdate(s: AudioState, w: Window): (r: AudioState)
    ensures !s.isActive ==> r == s
    ensures s.isActive ==>
      Some(r.signalStrength) == AudioUtils.CalculateSignalStrength(w) && r.frames == s.frames + [true]
  {
    if !s.isActive then s else s.(signalStrength := Average(w), frames := s.frames + [true])
  }

  /** `start` with the intended `update`: a wired start samples at once. */
  function LiveStart(s: AudioState, outcome: StartOutcome): (r: AudioState)
    ensures outcome.Wired? ==>
      && r.isActive && r.stream == Some(true) && r.context == Some(true)
      && Some(r.signalStrength) == AudioUtils.CalculateSignalStrength(outcome.first)
      && |r.frames| == |s.frames| + 1
    ensures !outcome.Wired? ==> r == Start(s, false, outcome)
  {
    match outcome
    case Wired(w) =>
      LiveUpdate(Wire(s), w)
    case _ => Start(s, false, outcome)
  }

  /** An animation frame with the intended `update`. */
  function LiveFrame(s: AudioState, i: nat, w: Window): (r: AudioState)
    ensures i >= |s.frames| ==> r == s
    ensures i < |s.frames| && !s.isActive ==> r == s.(frames := RemoveFrame(s.frames, i))
    ensures i < |s.frames| && s.isActive ==> |r.frames| == |s.frames|
  {
    if i >= |s.frames| then s else LiveUpdate(s.(frames := RemoveFrame(s.frames, i)), w)
  }

  /** Runs the frames at positions `picks`, each with its own buffer. */
  function LiveFrames(s: AudioState, picks: seq<nat>, ws: seq<Window>): AudioState
    requires |picks| == |ws|
    decreases |picks|
  {
    if |picks| == 0 then s else LiveFrames(LiveFrame(s, picks[0], ws[0]), picks[1..], ws[1..])
  }

  /**
   * With the intended `update`, once stopped no pending frame samples or
   * reschedules: whatever frames run, the strength stays where `stop` put it
   * and each run frame leaves the queue for good.
   */
  lemma {:induction false} LiveFramesAfterStopNeverSample(s: AudioState, picks: seq<nat>, ws: seq<Window>)
    requires !s.isActive && |picks| == |ws|
    ensures var r := LiveFrames(s, picks, ws);
      && r.signalStrength == s.signalStrength && !r.isActive
      && |r.frames| <= |s.frames|
      && ((forall k :: 0 <= k < |picks| ==> picks[k] < |s.frames| - k) ==> |r.frames| == |s.frames| - |picks|)
    decreases |picks|
  {
    if |picks| > 0 {
      var next := LiveFrame(s, picks[0], ws[0]);
      LiveFramesAfterStopNeverSample(next, picks[1..], ws[1..]);
      if forall k :: 0 <= k < |picks| ==> picks[k] < |s.frames| - k {
        assert |next.frames| == |s.frames| - 1;
        assert forall k :: 0 <= k < |picks| - 1 ==> picks[1..][k] < |next.frames| - k by {
          forall k | 0 <= k < |picks| - 1
            ensures picks[1..][k] < |next.frames| - k
          {
            assert picks[1..][k] == picks[k + 1];
          }
        }
      }
    }
  }

  /** After `stop`, with the intended `update`, a pending frame neither samples nor stays scheduled. */
  lemma LiveStopEndsSampling(s: AudioState, i: nat, w: Window)
    requires i < |s.frames|
    ensures var r := LiveFrame(Stop(s), i, w);
      r.signalStrength == 0.0 && !r.isActive && |r.frames| == |s.frames| - 1
  {
  }
}
