/**
 * Sequences of channel calls and delegate callbacks delivered to the audio
 * handler, one after another.
 */
module AudioTraces {
  import opened Channel
  import opened AudioHandler

  datatype Event =
    | MethodCall(name: string, arguments: Option<Dict>, env: AudioEnv)
    | RecorderDidFinish      // audioRecorderDidFinishRecording
    | RecorderEncodeError    // audioRecorderEncodeErrorDidOccur
    | PlayerDidFinish        // audioPlayerDidFinishPlaying
    | PlayerDecodeError      // audioPlayerDecodeErrorDidOccur

  /** One event: a channel call as `handleMethodCall` serves it, or a delegate callback clearing its flag. */
  function Apply(a: Audio, e: Event): (r: Audio)
    ensures (e.RecorderDidFinish? || e.RecorderEncodeError?) ==> r == a.(isRecording := false)
    ensures (e.PlayerDidFinish? || e.PlayerDecodeError?) ==> r == a.(isPlaying := false)
  {
    match e
    case MethodCall(name, arguments, env) => Dispatch(a, name, arguments, env).state
    case RecorderDidFinish => a.(isRecording := false)
    case RecorderEncodeError => a.(isRecording := false)
    case PlayerDidFinish => a.(isPlaying := false)
    case PlayerDecodeError => a.(isPlaying := false)
  }

  function Run(a: Audio, events: seq<Event>): Audio
    decreases |events|
  {
    if |events| == 0 then a else Run(Apply(a, events[0]), events[1..])
  }

  lemma {:induction false} RunAppend(a: Audio, events: seq<Event>, e: Event)
    ensures Run(a, events + [e]) == Apply(Run(a, events), e)
    decreases |events|
  {
    if |events| == 0 {
      assert events + [e] == [e];
    } else {
      assert (events + [e])[1..] == events[1..] + [e];
      RunAppend(Apply(a, events[0]), events[1..], e);
    }
  }

  // ---------------------------------------------------------------------------
  // Bypass flags
  // ---------------------------------------------------------------------------

  /** How an event sets effect `k`'s bypass flag: an accepted set clears it, an accepted remove sets it. */
  function Touch(e: Event, k: EffectKind): Option<bool> {
    if e.MethodCall? && EffectTarget(e.arguments) == Some(k) then
      if e.name == "setAudioEffect" then Some(false)
      else if e.name == "removeAudioEffect" then Some(true)
      else None
    else None
  }

  /** The bypass value of the last event that sets effect `k`'s flag, if any does. */
  function LastTouch(events: seq<Event>, k: EffectKind): Option<bool>
    decreases |events|
  {
    if |events| == 0 then None
    else
      match Touch(events[|events| - 1], k)
      case Some(b) => Some(b)
      case None => LastTouch(events[..|events| - 1], k)
  }

  lemma ApplyBypass(a: Audio, e: Event, k: EffectKind)
    ensures Bypass(Apply(a, e), k) == Touch(e, k).GetOr(Bypass(a, k))
  {
    if e.MethodCall? {
      var r := Dispatch(a, e.name, e.arguments, e.env);
      if e.name != "setAudioEffect" && e.name != "removeAudioEffect" {
        assert Effects(r.state) == Effects(a);
      }
    }
  }

  /**
   * After any events, effect `k` is bypassed exactly when the last accepted
   * set or remove naming it was a remove; with no such call the flag is
   * what it was. Rejected effect calls, other methods and the delegate
   * callbacks never move it.
   */
  lemma {:induction false} BypassIsLastTouch(a: Audio, events: seq<Event>, k: EffectKind)
    ensures Bypass(Run(a, events), k) == LastTouch(events, k).GetOr(Bypass(a, k))
    decreases |events|
  {
    if |events| > 0 {
      var init, last := events[..|events| - 1], events[|events| - 1];
      assert events == init + [last];
      RunAppend(a, init, last);
      ApplyBypass(Run(a, init), last, k);
      BypassIsLastTouch(a, init, k);
    }
  }

  // ---------------------------------------------------------------------------
  // Effect parameters
  // ---------------------------------------------------------------------------

  /** The effect whose parameter an argument key of `setAudioEffect` sets. */
  function ParamOwner(key: string): Option<EffectKind> {
    if key == "wetDryMix" then Some(Reverb)
    else if key == "delayTime" || key == "feedback" then Some(Delay)
    else if key == "preGain" then Some(Distortion)
    else None
  }

  function Param(a: Audio, key: string): Option<real> {
    if key == "wetDryMix" then a.reverb.wetDryMix
    else if key == "delayTime" then a.delay.delayTime
    else if key == "feedback" then a.delay.feedback
    else if key == "preGain" then a.distortion.preGain
    else None
  }

  /** The value an event writes to the parameter `key`: only a set call on its effect that supplies it. */
  function Supplies(e: Event, key: string): Option<real> {
    if e.MethodCall? && e.name == "setAudioEffect" && ParamOwner(key).Some? && EffectTarget(e.arguments) == ParamOwner(key) then
      DecimalArg(e.arguments.value, key)
    else None
  }

  function LastSupplied(events: seq<Event>, key: string): Option<real>
    decreases |events|
  {
    if |events| == 0 then None
    else
      match Supplies(events[|events| - 1], key)
      case Some(x) => Some(x)
      case None => LastSupplied(events[..|events| - 1], key)
  }

  lemma ApplyParam(a: Audio, e: Event, key: string)
    ensures Param(Apply(a, e), key) == Supplies(e, key).Or(Param(a, key))
  {
    if e.MethodCall? {
      var r := Dispatch(a, e.name, e.arguments, e.env);
      if e.name != "setAudioEffect" && e.name != "removeAudioEffect" {
        assert Effects(r.state) == Effects(a);
      }
    }
  }

  /**
   * After any events, each effect parameter holds the value of the last
   * accepted `setAudioEffect` call on its effect that supplied it, or its
   * earlier value when no call did: removing an effect keeps its parameters.
   */
  lemma {:induction false} ParamIsLastSupplied(a: Audio, events: seq<Event>, key: string)
    ensures Param(Run(a, events), key) == LastSupplied(events, key).Or(Param(a, key))
    decreases |events|
  {
    if |events| > 0 {
      var init, last := events[..|events| - 1], events[|events| - 1];
      assert events == init + [last];
      RunAppend(a, init, last);
      ApplyParam(Run(a, init), last, key);
      ParamIsLastSupplied(a, init, key);
    }
  }

  // ---------------------------------------------------------------------------
  // Recording
  // ---------------------------------------------------------------------------

  /** The handler only records with a recorder to ask for the path. */
  ghost predicate RecorderKept(a: Audio) {
    a.isRecording ==> a.recorder.Some?
  }

  lemma ApplyKeepsRecorder(a: Audio, e: Event)
    requires RecorderKept(a)
    ensures RecorderKept(Apply(a, e))
    ensures a.recorder.Some? ==> Apply(a, e).recorder.Some?
  {
  }

  lemma {:induction false} RunKeepsRecorder(a: Audio, events: seq<Event>)
    requires RecorderKept(a)
    ensures RecorderKept(Run(a, events))
    decreases |events|
  {
    if |events| > 0 {
      ApplyKeepsRecorder(a, events[0]);
      RunKeepsRecorder(Apply(a, events[0]), events[1..]);
    }
  }

  /**
   * From the initial state, `stopAudioRecording` never takes its
   * "Failed to get recording path" branch: it either reports that no
   * recording is active or succeeds with the recorder's path.
   */
  lemma StopRecordingNeverLosesPath(events: seq<Event>)
    ensures var r := StopRecording(Run(Initial, events)).reply;
      r == Failure("RECORDING_ERROR", "No active recording") || r.Success?
  {
    RunKeepsRecorder(Initial, events);
  }

  /** Start then stop from a state that is not recording: the reply names the file just recorded. */
  lemma StartThenStopRecording(events: seq<Event>, arguments: Option<Dict>, env: AudioEnv)
    requires !Run(Initial, events).isRecording && env.recorderError.None?
    ensures var started := StartRecording(Run(Initial, events), arguments, env);
      var stopped := StopRecording(started.state);
      && started.state.isRecording
      && !stopped.state.isRecording
      && stopped.reply == Success(map["success" := Bool(true), "recordingPath" := Text(env.recordingPath), "status" := Text("stopped")])
  {
  }
}
