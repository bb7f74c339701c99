/**
 * The platform-channel handler for audio (`AudioManager`): the recording and
 * playback flags, the recorder and player it keeps, and the three effect
 * units whose bypass flags and parameters the channel methods write.
 *
 * The AVFoundation objects are opaque: the engine graph, the audio session,
 * and what a recorder, a player or an effect does with sound are not
 * modelled. What the platform decides for a call (whether a recorder or
 * player can be created, the file paths, meter readings, a player's
 * duration, the random waveform samples) is a parameter. Floating-point
 * values are carried as `real` and never computed with.
 */
module AudioHandler {
  import opened Channel

  /** The recorder `startAudioRecording` created: its file and the duration limit it records for, if any. */
  datatype Recorder = Recorder(path: string, maxDuration: Option<real>)

  /** The player `playAudio` created; a None volume or rate is the player's own default. */
  datatype Player = Player(path: string, volume: Option<real>, rate: Option<real>)

  /** The effect units; a None parameter still has the value AVFoundation gave it. */
  datatype ReverbUnit = ReverbUnit(bypass: bool, wetDryMix: Option<real>)
  datatype DelayUnit = DelayUnit(bypass: bool, delayTime: Option<real>, feedback: Option<real>)
  datatype DistortionUnit = DistortionUnit(bypass: bool, preGain: Option<real>)

  /** What an `AudioManager` holds. */
  datatype Audio = Audio(
    isRecording: bool,
    isPlaying: bool,
    recorder: Option<Recorder>,
    player: Option<Player>,
    reverb: ReverbUnit,
    delay: DelayUnit,
    distortion: DistortionUnit)

  /** The state `init` leaves: no recorder or player, and effect units as AVFoundation creates them (not bypassed). */
  const Initial: Audio := Audio(false, false, None, None,
                                ReverbUnit(false, None), DelayUnit(false, None, None), DistortionUnit(false, None))

  datatype Step = Step(state: Audio, reply: Reply)

  /** What the platform decides during a call. */
  datatype AudioEnv = AudioEnv(
    recordingPath: string,          // getAudioRecordingURL().path
    recorderError: Option<string>,  // the error AVAudioRecorder(url:settings:) throws, if it does
    playerError: Option<string>,    // the error AVAudioPlayer(contentsOf:) throws, if it does
    playerDuration: real,
    averagePower: real,
    peakPower: real,
    mixOutputPath: string,          // getAudioMixOutputURL().path
    draw: nat -> real)              // the i-th value Float.random(in: 0...1) returns

  /** The flags, recorder and player: what the effect methods never touch. */
  function Transport(a: Audio): (bool, bool, Option<Recorder>, Option<Player>) {
    (a.isRecording, a.isPlaying, a.recorder, a.player)
  }

  /** The three effect units: what only the effect methods touch. */
  function Effects(a: Audio): (ReverbUnit, DelayUnit, DistortionUnit) {
    (a.reverb, a.delay, a.distortion)
  }

  // ---------------------------------------------------------------------------
  // Recording
  // ---------------------------------------------------------------------------

  /**
   * `startAudioRecording`: RECORDING_ERROR with no change while recording; a
   * recorder that cannot be created answers RECORDING_ERROR and leaves
   * everything, the old recorder included, as it was; otherwise the new
   * recorder records (for `maxDuration` when supplied) and the flag is set.
   */
  function StartRecording(a: Audio, arguments: Option<Dict>, env: AudioEnv): (r: Step)
    ensures a.isRecording ==> r == Step(a, Failure("RECORDING_ERROR", "Recording already in progress"))
    ensures !a.isRecording && env.recorderError.Some? ==> r == Step(a, Failure("RECORDING_ERROR", env.recorderError.value))
    ensures r.reply.Success? <==> !a.isRecording && env.recorderError.None?
    ensures r.state.isRecording <==> a.isRecording || r.reply.Success?
    ensures r.reply.Success? ==>
      && r.state == a.(isRecording := true, recorder := Some(Recorder(env.recordingPath, DecimalParam(arguments, "maxDuration"))))
      && r.reply.fields == map["success" := Bool(true), "recordingPath" := Text(env.recordingPath), "status" := Text("recording")]
  {
    if a.isRecording then Step(a, Failure("RECORDING_ERROR", "Recording already in progress"))
    else
      match env.recorderError
      case Some(e) => Step(a, Failure("RECORDING_ERROR", e))
      case None =>
        var recorder := Recorder(env.recordingPath, DecimalParam(arguments, "maxDuration"));
        Step(a.(recorder := Some(recorder), isRecording := true),
             Success(map["success" := Bool(true), "recordingPath" := Text(env.recordingPath), "status" := Text("recording")]))
  }

  /**
   * `stopAudioRecording`: RECORDING_ERROR with no change unless recording;
   * otherwise the flag is cleared and the reply carries the recorder's path,
   * or is a RECORDING_ERROR when there is no recorder to ask.
   */
  function StopRecording(a: Audio): (r: Step)
    ensures !r.state.isRecording
    ensures !a.isRecording ==> r == Step(a, Failure("RECORDING_ERROR", "No active recording"))
    ensures a.isRecording ==> r.state == a.(isRecording := false)
    ensures r.reply.Success? <==> a.isRecording && a.recorder.Some?
    ensures r.reply.Success? ==>
      r.reply.fields == map["success" := Bool(true), "recordingPath" := Text(a.recorder.value.path), "status" := Text("stopped")]
    ensures a.isRecording && a.recorder.None? ==> r.reply == Failure("RECORDING_ERROR", "Failed to get recording path")
  {
    if !a.isRecording then Step(a, Failure("RECORDING_ERROR", "No active recording"))
    else
      var stopped := a.(isRecording := false);
      match a.recorder
      case Some(rec) =>
        Step(stopped, Success(map["success" := Bool(true), "recordingPath" := Text(rec.path), "status" := Text("stopped")]))
      case None => Step(stopped, Failure("RECORDING_ERROR", "Failed to get recording path"))
  }

  const PauseRecordingReply: Reply := Success(map["success" := Bool(true), "status" := Text("paused")])
  const ResumeRecordingReply: Reply := Success(map["success" := Bool(true), "status" := Text("recording")])

  /** `getAudioLevels`: the recorder's meter readings, or -160 dB for both without a recorder. */
  function Levels(a: Audio, env: AudioEnv): (r: Reply)
    ensures r.Success? && r.fields.Keys == {"averagePower", "peakPower", "isRecording"}
    ensures r.fields["isRecording"] == Bool(a.isRecording)
    ensures a.recorder.None? ==> r.fields["averagePower"] == Decimal(-160.0) && r.fields["peakPower"] == Decimal(-160.0)
    ensures a.recorder.Some? ==> r.fields["averagePower"] == Decimal(env.averagePower) && r.fields["peakPower"] == Decimal(env.peakPower)
  {
    var average := if a.recorder.None? then -160.0 else env.averagePower;
    var peak := if a.recorder.None? then -160.0 else env.peakPower;
    Success(map["averagePower" := Decimal(average), "peakPower" := Decimal(peak), "isRecording" := Bool(a.isRecording)])
  }

  // ---------------------------------------------------------------------------
  // Playback
  // ---------------------------------------------------------------------------

  /**
   * `playAudio`: PLAYBACK_ERROR with no change without a `path`, or when the
   * player cannot be created; otherwise a new player (with the volume and
   * rate when supplied) plays and the flag is set.
   */
  function Play(a: Audio, arguments: Option<Dict>, env: AudioEnv): (r: Step)
    ensures StringParam(arguments, "path").None? ==> r == Step(a, Failure("PLAYBACK_ERROR", "Missing audio path"))
    ensures StringParam(arguments, "path").Some? && env.playerError.Some? ==> r == Step(a, Failure("PLAYBACK_ERROR", env.playerError.value))
    ensures r.reply.Success? <==> StringParam(arguments, "path").Some? && env.playerError.None?
    ensures r.reply.Success? ==>
      && r.state == a.(isPlaying := true, player := Some(Player(StringParam(arguments, "path").value,
                                                           DecimalParam(arguments, "volume"), DecimalParam(arguments, "rate"))))
      && r.reply.fields == map["success" := Bool(true), "duration" := Decimal(env.playerDuration), "status" := Text("playing")]
  {
    match StringParam(arguments, "path")
    case None => Step(a, Failure("PLAYBACK_ERROR", "Missing audio path"))
    case Some(path) =>
      match env.playerError
      case Some(e) => Step(a, Failure("PLAYBACK_ERROR", e))
      case None =>
        var player := Player(path, DecimalParam(arguments, "volume"), DecimalParam(arguments, "rate"));
        Step(a.(player := Some(player), isPlaying := true),
             Success(map["success" := Bool(true), "duration" := Decimal(env.playerDuration), "status" := Text("playing")]))
  }

  /** `setPlaybackSpeed`: PLAYBACK_ERROR without a `speed`; otherwise the player (if any) takes it as its rate. */
  function Speed(a: Audio, arguments: Option<Dict>): (r: Step)
    ensures r.reply.Success? <==> DecimalParam(arguments, "speed").Some?
    ensures r.reply.Failure? ==> r == Step(a, Failure("PLAYBACK_ERROR", "Missing speed parameter"))
    ensures r.state.isPlaying == a.isPlaying && Effects(r.state) == Effects(a)
    ensures r.reply.Success? ==>
      var speed := DecimalParam(arguments, "speed").value;
      && r.reply.fields == map["success" := Bool(true), "speed" := Decimal(speed)]
      && r.state == a.(player := if a.player.None? then None else Some(a.player.value.(rate := Some(speed))))
  {
    match DecimalParam(arguments, "speed")
    case None => Step(a, Failure("PLAYBACK_ERROR", "Missing speed parameter"))
    case Some(speed) =>
      var player := if a.player.None? then None else Some(a.player.value.(rate := Some(speed)));
      Step(a.(player := player), Success(map["success" := Bool(true), "speed" := Decimal(speed)]))
  }

  /** `setVolume`: PLAYBACK_ERROR without a `volume`; otherwise the player (if any) takes it. */
  function Volume(a: Audio, arguments: Option<Dict>): (r: Step)
    ensures r.reply.Success? <==> DecimalParam(arguments, "volume").Some?
    ensures r.reply.Failure? ==> r == Step(a, Failure("PLAYBACK_ERROR", "Missing volume parameter"))
    ensures r.state.isPlaying == a.isPlaying && Effects(r.state) == Effects(a)
    ensures r.reply.Success? ==>
      var volume := DecimalParam(arguments, "volume").value;
      && r.reply.fields == map["success" := Bool(true), "volume" := Decimal(volume)]
      && r.state == a.(player := if a.player.None? then None else Some(a.player.value.(volume := Some(volume))))
  {
    match DecimalParam(arguments, "volume")
    case None => Step(a, Failure("PLAYBACK_ERROR", "Missing volume parameter"))
    case Some(volume) =>
      var player := if a.player.None? then None else Some(a.player.value.(volume := Some(volume)));
      Step(a.(player := player), Success(map["success" := Bool(true), "volume" := Decimal(volume)]))
  }

  // ---------------------------------------------------------------------------
  // Effects
  // ---------------------------------------------------------------------------

  datatype EffectKind = Reverb | Delay | Distortion

  /** The effect a type name selects: exactly the three names. */
  function EffectKindOf(name: string): (k: Option<EffectKind>)
    ensures k.Some? <==> name in {"reverb", "delay", "distortion"}
  {
    if name == "reverb" then Some(Reverb)
    else if name == "delay" then Some(Delay)
    else if name == "distortion" then Some(Distortion)
    else None
  }

  /** The effect an effect call's `type` argument names, when it names one. */
  function EffectTarget(arguments: Option<Dict>): Option<EffectKind> {
    match StringParam(arguments, "type")
    case None => None
    case Some(name) => EffectKindOf(name)
  }

  function Bypass(a: Audio, k: EffectKind): bool {
    match k
    case Reverb => a.reverb.bypass
    case Delay => a.delay.bypass
    case Distortion => a.distortion.bypass
  }

  /** `configureReverbEffect`, `configureDelayEffect`, `configureDistortionEffect`: enable the unit, overwrite supplied parameters. */
  function ConfigureEffect(a: Audio, k: EffectKind, args: Dict): (r: Audio)
    ensures !Bypass(r, k) && Transport(r) == Transport(a)
    ensures forall j: EffectKind :: j != k ==> Bypass(r, j) == Bypass(a, j)
    ensures k != Reverb ==> r.reverb == a.reverb
    ensures k != Delay ==> r.delay == a.delay
    ensures k != Distortion ==> r.distortion == a.distortion
    ensures k == Reverb ==> r.reverb.wetDryMix == DecimalArg(args, "wetDryMix").Or(a.reverb.wetDryMix)
    ensures k == Delay ==>
      && r.delay.delayTime == DecimalArg(args, "delayTime").Or(a.delay.delayTime)
      && r.delay.feedback == DecimalArg(args, "feedback").Or(a.delay.feedback)
    ensures k == Distortion ==> r.distortion.preGain == DecimalArg(args, "preGain").Or(a.distortion.preGain)
  {
    match k
    case Reverb =>
      a.(reverb := ReverbUnit(false, DecimalArg(args, "wetDryMix").Or(a.reverb.wetDryMix)))
    case Delay =>
      a.(delay := DelayUnit(false, DecimalArg(args, "delayTime").Or(a.delay.delayTime),
                            DecimalArg(args, "feedback").Or(a.delay.feedback)))
    case Distortion =>
      a.(distortion := DistortionUnit(false, DecimalArg(args, "preGain").Or(a.distortion.preGain)))
  }

  /** The unit with its bypass flag set and its parameters kept. */
  function BypassEffect(a: Audio, k: EffectKind): (r: Audio)
    ensures Bypass(r, k) && Transport(r) == Transport(a)
    ensures forall j: EffectKind :: j != k ==> Bypass(r, j) == Bypass(a, j)
    ensures r.reverb.wetDryMix == a.reverb.wetDryMix && r.distortion.preGain == a.distortion.preGain
    ensures r.delay.delayTime == a.delay.delayTime && r.delay.feedback == a.delay.feedback
    ensures k != Reverb ==> r.reverb == a.reverb
    ensures k != Delay ==> r.delay == a.delay
    ensures k != Distortion ==> r.distortion == a.distortion
  {
    match k
    case Reverb => a.(reverb := a.reverb.(bypass := true))
    case Delay => a.(delay := a.delay.(bypass := true))
    case Distortion => a.(distortion := a.distortion.(bypass := true))
  }

  /**
   * `setAudioEffect`: EFFECT_ERROR with no change for a missing or an
   * unsupported type; otherwise only the named unit changes.
   */
  function SetEffect(a: Audio, arguments: Option<Dict>): (r: Step)
    ensures StringParam(arguments, "type").None? ==> r == Step(a, Failure("EFFECT_ERROR", "Missing effect type"))
    ensures StringParam(arguments, "type").Some? && EffectTarget(arguments).None? ==>
      r == Step(a, Failure("EFFECT_ERROR", "Unsupported effect type"))
    ensures r.reply.Success? <==> EffectTarget(arguments).Some?
    ensures EffectTarget(arguments).Some? ==>
      && r.state == ConfigureEffect(a, EffectTarget(arguments).value, arguments.value)
      && r.reply.fields == map["success" := Bool(true), "effect" := Text(StringParam(arguments, "type").value)]
  {
    match StringParam(arguments, "type")
    case None => Step(a, Failure("EFFECT_ERROR", "Missing effect type"))
    case Some(name) =>
      match EffectKindOf(name)
      case None => Step(a, Failure("EFFECT_ERROR", "Unsupported effect type"))
      case Some(k) => Step(ConfigureEffect(a, k, arguments.value), Success(map["success" := Bool(true), "effect" := Text(name)]))
  }

  /**
   * `removeAudioEffect`: EFFECT_ERROR with no change for a missing or an
   * unsupported type; otherwise only the named unit's bypass flag is set.
   */
  function RemoveEffect(a: Audio, arguments: Option<Dict>): (r: Step)
    ensures StringParam(arguments, "type").None? ==> r == Step(a, Failure("EFFECT_ERROR", "Missing effect type"))
    ensures StringParam(arguments, "type").Some? && EffectTarget(arguments).None? ==>
      r == Step(a, Failure("EFFECT_ERROR", "Unsupported effect type"))
    ensures r.reply.Success? <==> EffectTarget(arguments).Some?
    ensures EffectTarget(arguments).Some? ==>
      && r.state == BypassEffect(a, EffectTarget(arguments).value)
      && r.reply.fields == map["success" := Bool(true), "removedEffect" := Text(StringParam(arguments, "type").value)]
  {
    match StringParam(arguments, "type")
    case None => Step(a, Failure("EFFECT_ERROR", "Missing effect type"))
    case Some(name) =>
      match EffectKindOf(name)
      case None => Step(a, Failure("EFFECT_ERROR", "Unsupported effect type"))
      case Some(k) => Step(BypassEffect(a, k), Success(map["success" := Bool(true), "removedEffect" := Text(name)]))
  }

  /** Removing an effect twice is removing it once. */
  lemma RemoveEffectIdempotent(a: Audio, arguments: Option<Dict>)
    ensures var once := RemoveEffect(a, arguments);
      RemoveEffect(once.state, arguments) == once
  {
  }

  /** Setting an effect and then removing it leaves the unit bypassed with the parameters the set call wrote. */
  lemma SetThenRemove(a: Audio, arguments: Option<Dict>)
    requires EffectTarget(arguments).Some?
    ensures var k := EffectTarget(arguments).value;
      var enabled := SetEffect(a, arguments).state;
      var removed := RemoveEffect(enabled, arguments).state;
      && Bypass(removed, k)
      && removed.reverb.wetDryMix == enabled.reverb.wetDryMix
      && removed.delay == enabled.delay.(bypass := removed.delay.bypass)
      && removed.distortion.preGain == enabled.distortion.preGain
      && Transport(removed) == Transport(a)
  {
  }

  // ---------------------------------------------------------------------------
  // Mixing, processing and the waveform
  // ---------------------------------------------------------------------------

  /** `mixAudioTracks`: MIX_ERROR without a `tracks` list of strings; otherwise the number of tracks. */
  function Mix(arguments: Option<Dict>, outputPath: string): (r: Reply)
    ensures r.Success? <==> arguments.Some? && StringListArg(arguments.value, "tracks").Some?
    ensures r.Failure? ==> r == Failure("MIX_ERROR", "Missing track paths")
    ensures r.Success? ==>
      r.fields == map["success" := Bool(true), "mixedAudioPath" := Text(outputPath),
                      "trackCount" := Int(|StringListArg(arguments.value, "tracks").value|)]
  {
    if arguments.None? then Failure("MIX_ERROR", "Missing track paths")
    else
      match StringListArg(arguments.value, "tracks")
      case None => Failure("MIX_ERROR", "Missing track paths")
      case Some(tracks) =>
        Success(map["success" := Bool(true), "mixedAudioPath" := Text(outputPath), "trackCount" := Int(|tracks|)])
  }

  const ProcessReply: Reply := Success(map["success" := Bool(true), "processed" := Bool(true)])

  const WaveformSampleCount: nat := 100

  /** The samples `generateWaveformData` produces: the first hundred random draws. */
  function WaveformSamples(draw: nat -> real): (s: seq<real>)
    ensures |s| == WaveformSampleCount
    ensures forall i :: 0 <= i < |s| ==> s[i] == draw(i)
  {
    seq(WaveformSampleCount, (i: int) requires 0 <= i => draw(i))
  }

  /**
   * `Float.random(in: 0...1)` draws amplitudes in the unit interval, so
   * every sample of a waveform reply lies in it too.
   */
  lemma WaveformInUnitRange(arguments: Option<Dict>, draw: nat -> real)
    requires forall i: nat :: 0.0 <= draw(i) <= 1.0
    ensures forall x :: x in WaveformSamples(draw) ==> 0.0 <= x <= 1.0
    ensures Waveform(arguments, draw).Success? ==>
      forall x :: x in Waveform(arguments, draw).fields["waveformData"].xs ==> 0.0 <= x <= 1.0
  {
  }

  /** `generateWaveform`: WAVEFORM_ERROR without a `path`; otherwise the samples and their count. */
  function Waveform(arguments: Option<Dict>, draw: nat -> real): (r: Reply)
    ensures r.Success? <==> StringParam(arguments, "path").Some?
    ensures r.Failure? ==> r == Failure("WAVEFORM_ERROR", "Missing audio path")
    ensures r.Success? ==>
      r.fields == map["success" := Bool(true), "waveformData" := DecimalList(WaveformSamples(draw)),
                      "sampleCount" := Int(WaveformSampleCount)]
  {
    match StringParam(arguments, "path")
    case None => Failure("WAVEFORM_ERROR", "Missing audio path")
    case Some(_) =>
      var samples := WaveformSamples(draw);
      Success(map["success" := Bool(true), "waveformData" := DecimalList(samples), "sampleCount" := Int(|samples|)])
  }

  // ---------------------------------------------------------------------------
  // Dispatch and the delegate callbacks
  // ---------------------------------------------------------------------------

  const AudioMethods: set<string> := {
    "startAudioRecording", "stopAudioRecording", "pauseAudioRecording", "resumeAudioRecording",
    "playAudio", "stopAudio", "pauseAudio", "resumeAudio", "setAudioEffect", "removeAudioEffect",
    "getAudioLevels", "processAudioFile", "mixAudioTracks", "generateWaveform", "setPlaybackSpeed", "setVolume"}

  /** The methods after which the handler is as it was. */
  const ReadOnlyMethods: set<string> := {
    "pauseAudioRecording", "resumeAudioRecording", "getAudioLevels", "processAudioFile", "mixAudioTracks", "generateWaveform"}

  /**
   * `handleMethodCall`: each of the sixteen names runs its method and any
   * other name replies "not implemented" with no change. Only the two
   * effect methods touch the effect units, and only the recording methods
   * touch the recording flag.
   */
  function Dispatch(a: Audio, name: string, arguments: Option<Dict>, env: AudioEnv): (r: Step)
    ensures name !in AudioMethods ==> r == Step(a, NotImplemented)
    ensures name in ReadOnlyMethods ==> r.state == a
    ensures name != "setAudioEffect" && name != "removeAudioEffect" ==> Effects(r.state) == Effects(a)
    ensures name != "startAudioRecording" && name != "stopAudioRecording" ==>
      r.state.isRecording == a.isRecording && r.state.recorder == a.recorder
  {
    if name == "startAudioRecording" then StartRecording(a, arguments, env)
    else if name == "stopAudioRecording" then StopRecording(a)
    else if name == "pauseAudioRecording" then Step(a, PauseRecordingReply)
    else if name == "resumeAudioRecording" then Step(a, ResumeRecordingReply)
    else if name == "playAudio" then Play(a, arguments, env)
    else if name == "stopAudio" then Step(a.(isPlaying := false), Success(map["success" := Bool(true), "status" := Text("stopped")]))
    else if name == "pauseAudio" then Step(a.(isPlaying := false), Success(map["success" := Bool(true), "status" := Text("paused")]))
    else if name == "resumeAudio" then Step(a.(isPlaying := true), Success(map["success" := Bool(true), "status" := Text("playing")]))
    else if name == "setAudioEffect" then SetEffect(a, arguments)
    else if name == "removeAudioEffect" then RemoveEffect(a, arguments)
    else if name == "getAudioLevels" then Step(a, Levels(a, env))
    else if name == "processAudioFile" then Step(a, ProcessReply)
    else if name == "mixAudioTracks" then Step(a, Mix(arguments, env.mixOutputPath))
    else if name == "generateWaveform" then Step(a, Waveform(arguments, env.draw))
    else if name == "setPlaybackSpeed" then Speed(a, arguments)
    else if name == "setVolume" then Volume(a, arguments)
    else Step(a, NotImplemented)
  }

  // ---------------------------------------------------------------------------
  // The object
  // ---------------------------------------------------------------------------

  class AudioManager {
    var isRecording: bool
    var isPlaying: bool
    var audioRecorder: Option<Recorder>
    var audioPlayer: Option<Player>
    var reverbEffect: ReverbUnit
    var delayEffect: DelayUnit
    var distortionEffect: DistortionUnit

    ghost function View(): Audio
      reads this
    {
      Audio(isRecording, isPlaying, audioRecorder, audioPlayer, reverbEffect, delayEffect, distortionEffect)
    }

    constructor ()
      ensures View() == Initial
    {
      isRecording, isPlaying := false, false;
      audioRecorder, audioPlayer := None, None;
      reverbEffect := ReverbUnit(false, None);
      delayEffect := DelayUnit(false, None, None);
      distortionEffect := DistortionUnit(false, None);
    }

    method StartAudioRecording(arguments: Option<Dict>, env: AudioEnv) returns (reply: Reply)
      modifies this
      ensures var r := StartRecording(old(View()), arguments, env); View() == r.state && reply == r.reply
    {
      if isRecording {
        return Failure("RECORDING_ERROR", "Recording already in progress");
      }
      if env.recorderError.Some? {
        return Failure("RECORDING_ERROR", env.recorderError.value);
      }
      var maxDuration := None;
      if arguments.Some? {
        maxDuration := DecimalArg(arguments.value, "maxDuration");
      }
      audioRecorder := Some(Recorder(env.recordingPath, maxDuration));
      isRecording := true;
      reply := Success(map["success" := Bool(true), "recordingPath" := Text(env.recordingPath), "status" := Text("recording")]);
    }

    method StopAudioRecording() returns (reply: Reply)
      modifies this
      ensures var r := StopRecording(old(View())); View() == r.state && reply == r.reply
    {
      if !isRecording {
        return Failure("RECORDING_ERROR", "No active recording");
      }
      isRecording := false;
      if audioRecorder.Some? {
        reply := Success(map["success" := Bool(true), "recordingPath" := Text(audioRecorder.value.path), "status" := Text("stopped")]);
      } else {
        reply := Failure("RECORDING_ERROR", "Failed to get recording path");
      }
    }

    /** Pausing and resuming the recorder are platform calls; the flag stays as it is. */
    method PauseAudioRecording() returns (reply: Reply)
      ensures reply == Success(map["success" := Bool(true), "status" := Text("paused")])
    {
      reply := PauseRecordingReply;
    }

    method ResumeAudioRecording() returns (reply: Reply)
      ensures reply == Success(map["success" := Bool(true), "status" := Text("recording")])
    {
      reply := ResumeRecordingReply;
    }

    method PlayAudio(arguments: Option<Dict>, env: AudioEnv) returns (reply: Reply)
      modifies this
      ensures var r := Play(old(View()), arguments, env); View() == r.state && reply == r.reply
    {
      var path := StringParam(arguments, "path");
      if path.None? {
        return Failure("PLAYBACK_ERROR", "Missing audio path");
      }
      if env.playerError.Some? {
        return Failure("PLAYBACK_ERROR", env.playerError.value);
      }
      var player := Player(path.value, None, None);
      var volume := DecimalArg(arguments.value, "volume");
      if volume.Some? {
        player := player.(volume := volume);
      }
      var rate := DecimalArg(arguments.value, "rate");
      if rate.Some? {
        player := player.(rate := rate);
      }
      audioPlayer := Some(player);
      isPlaying := true;
      reply := Success(map["success" := Bool(true), "duration" := Decimal(env.playerDuration), "status" := Text("playing")]);
    }

    method StopAudio() returns (reply: Reply)
      modifies this
      ensures View() == old(View()).(isPlaying := false)
      ensures reply == Success(map["success" := Bool(true), "status" := Text("stopped")])
    {
      isPlaying := false;
      reply := Success(map["success" := Bool(true), "status" := Text("stopped")]);
    }

    method PauseAudio() returns (reply: Reply)
      modifies this
      ensures View() == old(View()).(isPlaying := false)
      ensures reply == Success(map["success" := Bool(true), "status" := Text("paused")])
    {
      isPlaying := false;
      reply := Success(map["success" := Bool(true), "status" := Text("paused")]);
    }

    method ResumeAudio() returns (reply: Reply)
      modifies this
      ensures View() == old(View()).(isPlaying := true)
      ensures reply == Success(map["success" := Bool(true), "status" := Text("playing")])
    {
      isPlaying := true;
      reply := Success(map["success" := Bool(true), "status" := Text("playing")]);
    }

    method ConfigureReverbEffect(args: Dict)
      modifies this
      ensures View() == ConfigureEffect(old(View()), Reverb, args)
    {
      var wetDryMix := DecimalArg(args, "wetDryMix");
      if wetDryMix.Some? {
        reverbEffect := reverbEffect.(wetDryMix := wetDryMix);
      }
      reverbEffect := reverbEffect.(bypass := false);
    }

    method ConfigureDelayEffect(args: Dict)
      modifies this
      ensures View() == ConfigureEffect(old(View()), Delay, args)
    {
      var delayTime := DecimalArg(args, "delayTime");
      if delayTime.Some? {
        delayEffect := delayEffect.(delayTime := delayTime);
      }
      var feedback := DecimalArg(args, "feedback");
      if feedback.Some? {
        delayEffect := delayEffect.(feedback := feedback);
      }
      delayEffect := delayEffect.(bypass := false);
    }

    method ConfigureDistortionEffect(args: Dict)
      modifies this
      ensures View() == ConfigureEffect(old(View()), Distortion, args)
    {
      var preGain := DecimalArg(args, "preGain");
      if preGain.Some? {
        distortionEffect := distortionEffect.(preGain := preGain);
      }
      distortionEffect := distortionEffect.(bypass := false);
    }

    method SetAudioEffect(arguments: Option<Dict>) returns (reply: Reply)
      modifies this
      ensures var r := SetEffect(old(View()), arguments); View() == r.state && reply == r.reply
    {
      var effectType := StringParam(arguments, "type");
      if effectType.None? {
        return Failure("EFFECT_ERROR", "Missing effect type");
      }
      if effectType.value == "reverb" {
        ConfigureReverbEffect(arguments.value);
      } else if effectType.value == "delay" {
        ConfigureDelayEffect(arguments.value);
      } else if effectType.value == "distortion" {
        ConfigureDistortionEffect(arguments.value);
      } else {
        return Failure("EFFECT_ERROR", "Unsupported effect type");
      }
      reply := Success(map["success" := Bool(true), "effect" := Text(effectType.value)]);
    }

    method RemoveAudioEffect(arguments: Option<Dict>) returns (reply: Reply)
      modifies this
      ensures var r := RemoveEffect(old(View()), arguments); View() == r.state && reply == r.reply
    {
      var effectType := StringParam(arguments, "type");
      if effectType.None? {
        return Failure("EFFECT_ERROR", "Missing effect type");
      }
      if effectType.value == "reverb" {
        reverbEffect := reverbEffect.(bypass := true);
      } else if effectType.value == "delay" {
        delayEffect := delayEffect.(bypass := true);
      } else if effectType.value == "distortion" {
        distortionEffect := distortionEffect.(bypass := true);
      } else {
        return Failure("EFFECT_ERROR", "Unsupported effect type");
      }
      reply := Success(map["success" := Bool(true), "removedEffect" := Text(effectType.value)]);
    }

    method GetAudioLevels(env: AudioEnv) returns (reply: Reply)
      ensures reply == Levels(View(), env)
    {
      var averagePower, peakPower := -160.0, -160.0;
      if audioRecorder.Some? {
        averagePower, peakPower := env.averagePower, env.peakPower;
      }
      reply := Success(map["averagePower" := Decimal(averagePower), "peakPower" := Decimal(peakPower),
                           "isRecording" := Bool(isRecording)]);
    }

    method ProcessAudioFile(arguments: Option<Dict>) returns (reply: Reply)
      ensures reply == Success(map["success" := Bool(true), "processed" := Bool(true)])
    {
      reply := ProcessReply;
    }

    method MixAudioTracks(arguments: Option<Dict>, outputPath: string) returns (reply: Reply)
      ensures reply == Mix(arguments, outputPath)
    {
      if arguments.None? || StringListArg(arguments.value, "tracks").None? {
        return Failure("MIX_ERROR", "Missing track paths");
      }
      var trackPaths := StringListArg(arguments.value, "tracks").value;
      reply := Success(map["success" := Bool(true), "mixedAudioPath" := Text(outputPath), "trackCount" := Int(|trackPaths|)]);
    }

    /** The sampling loop of `generateWaveformData`; `draw(i)` is the i-th random amplitude. */
    method GenerateWaveformData(draw: nat -> real) returns (waveformData: seq<real>)
      ensures |waveformData| == WaveformSampleCount
      ensures forall i :: 0 <= i < |waveformData| ==> waveformData[i] == draw(i)
    {
      waveformData := [];
      for i := 0 to WaveformSampleCount
        invariant |waveformData| == i
        invariant forall j :: 0 <= j < i ==> waveformData[j] == draw(j)
      {
        waveformData := waveformData + [draw(i)];
      }
    }

    method GenerateWaveform(arguments: Option<Dict>, draw: nat -> real) returns (reply: Reply)
      ensures reply == Waveform(arguments, draw)
    {
      if StringParam(arguments, "path").None? {
        return Failure("WAVEFORM_ERROR", "Missing audio path");
      }
      var waveformData := GenerateWaveformData(draw);
      assert waveformData == WaveformSamples(draw);
      reply := Success(map["success" := Bool(true), "waveformData" := DecimalList(waveformData),
                           "sampleCount" := Int(|waveformData|)]);
    }

    method SetPlaybackSpeed(arguments: Option<Dict>) returns (reply: Reply)
      modifies this
      ensures var r := Speed(old(View()), arguments); View() == r.state && reply == r.reply
    {
      var speed := DecimalParam(arguments, "speed");
      if speed.None? {
        return Failure("PLAYBACK_ERROR", "Missing speed parameter");
      }
      if audioPlayer.Some? {
        audioPlayer := Some(audioPlayer.value.(rate := speed));
      }
      reply := Success(map["success" := Bool(true), "speed" := Decimal(speed.value)]);
    }

    method SetVolume(arguments: Option<Dict>) returns (reply: Reply)
      modifies this
      ensures var r := Volume(old(View()), arguments); View() == r.state && reply == r.reply
    {
      var volume := DecimalParam(arguments, "volume");
      if volume.None? {
        return Failure("PLAYBACK_ERROR", "Missing volume parameter");
      }
      if audioPlayer.Some? {
        audioPlayer := Some(audioPlayer.value.(volume := volume));
      }
      reply := Success(map["success" := Bool(true), "volume" := Decimal(volume.value)]);
    }

    method HandleMethodCall(name: string, arguments: Option<Dict>, env: AudioEnv) returns (reply: Reply)
      modifies this
      ensures var r := Dispatch(old(View()), name, arguments, env); View() == r.state && reply == r.reply
    {
      if name == "startAudioRecording" {
        reply := StartAudioRecording(arguments, env);
      } else if name == "stopAudioRecording" {
        reply := StopAudioRecording();
      } else if name == "pauseAudioRecording" {
        reply := PauseAudioRecording();
      } else if name == "resumeAudioRecording" {
        reply := ResumeAudioRecording();
      } else if name == "playAudio" {
        reply := PlayAudio(arguments, env);
      } else if name == "stopAudio" {
        reply := StopAudio();
      } else if name == "pauseAudio" {
        reply := PauseAudio();
      } else if name == "resumeAudio" {
        reply := ResumeAudio();
      } else if name == "setAudioEffect" {
        reply := SetAudioEffect(arguments);
      } else if name == "removeAudioEffect" {
        reply := RemoveAudioEffect(arguments);
      } else if name == "getAudioLevels" {
        reply := GetAudioLevels(env);
      } else if name == "processAudioFile" {
        reply := ProcessAudioFile(arguments);
      } else if name == "mixAudioTracks" {
        reply := MixAudioTracks(arguments, env.mixOutputPath);
      } else if name == "generateWaveform" {
        reply := GenerateWaveform(arguments, env.draw);
      } else if name == "setPlaybackSpeed" {
        reply := SetPlaybackSpeed(arguments);
      } else if name == "setVolume" {
        reply := SetVolume(arguments);
      } else {
        reply := NotImplemented;
      }
    }

    /** `audioRecorderDidFinishRecording` and `audioRecorderEncodeErrorDidOccur`. */
    method AudioRecorderDidFinishRecording()
      modifies this
      ensures View() == old(View()).(isRecording := false)
    {
      isRecording := false;
    }

    method AudioRecorderEncodeErrorDidOccur()
      modifies this
      ensures View() == old(View()).(isRecording := false)
    {
      isRecording := false;
    }

    /** `audioPlayerDidFinishPlaying` and `audioPlayerDecodeErrorDidOccur`. */
    method AudioPlayerDidFinishPlaying()
      modifies this
      ensures View() == old(View()).(isPlaying := false)
    {
      isPlaying := false;
    }

    method AudioPlayerDecodeErrorDidOccur()
      modifies this
      ensures View() == old(View()).(isPlaying := false)
    {
      isPlaying := false;
    }
  }
}
