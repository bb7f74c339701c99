/**
 * The platform-channel handler for live streaming (`LiveStreamManager`) and
 * its stub RTMP session (`RTMPSession`).
 *
 * The value types `Session` and `Stream` are what the two objects hold; the
 * functions below them say what each channel method does to those values and
 * what it replies; the two classes hold the same fields, update them in place
 * and are proved to follow the functions.
 *
 * Capture-session inputs, `startRunning`/`stopRunning`, the shared audio
 * session and ReplayKit are platform calls with no modelled outcome; the
 * ReplayKit outcomes that decide a reply are parameters.
 */
module LiveStream {
  import opened Channel
  import opened Numerals

  /** What an `RTMPSession` holds. */
  datatype Session = Session(
    url: string,
    key: string,
    isConnected: bool,
    viewerCount: int,
    currentBitrate: int,
    currentFPS: int,
    currentResolution: string,
    streamDuration: real)

  /** A session as `RTMPSession(url:key:)` creates it. */
  function NewSession(url: string, key: string): Session {
    Session(url, key, false, 0, 0, 30, "720p", 0.0)
  }

  /** The `sessionPreset` values the manager gives its capture session. */
  datatype CapturePreset = PresetHigh | PresetMedium | PresetLow

  /**
   * What a `LiveStreamManager` holds: the streaming flag, the capture
   * session (by its preset; None when there is none) and the RTMP session.
   */
  datatype Stream = Stream(isStreaming: bool, capture: Option<CapturePreset>, session: Option<Session>)

  /** The state `init` leaves: `setupLiveStream` creates the capture session with preset `.high`. */
  const Initial: Stream := Stream(false, Some(PresetHigh), None)

  /** A state change together with the reply sent. */
  datatype Step = Step(state: Stream, reply: Reply)

  /** A state change and the reply sent now; None when the reply comes later, from a completion. */
  datatype Request = Request(state: Stream, reply: Option<Reply>)

  // ---------------------------------------------------------------------------
  // The quality table of configureStreamQuality
  // ---------------------------------------------------------------------------

  datatype Quality = High | Medium | Low

  function QualityName(q: Quality): string {
    match q
    case High => "high"
    case Medium => "medium"
    case Low => "low"
  }

  /** The quality a name selects; the names are exactly the three `QualityName`s. */
  function ParseQuality(name: string): (q: Option<Quality>)
    ensures q.Some? ==> QualityName(q.value) == name
    ensures q.None? ==> forall p: Quality :: QualityName(p) != name
  {
    if name == "high" then Some(High)
    else if name == "medium" then Some(Medium)
    else if name == "low" then Some(Low)
    else None
  }

  /** The RTMP settings of a quality. */
  datatype VideoPreset = VideoPreset(width: int, height: int, bitrate: int)

  function VideoPresetOf(q: Quality): VideoPreset {
    match q
    case High => VideoPreset(1920, 1080, 4000000)
    case Medium => VideoPreset(1280, 720, 2000000)
    case Low => VideoPreset(640, 480, 1000000)
  }

  /** The capture preset a quality name selects: an unknown name selects `.medium`. */
  function CapturePresetFor(name: string): (p: CapturePreset)
    ensures ParseQuality(name).None? ==> p == PresetMedium
  {
    match ParseQuality(name)
    case Some(High) => PresetHigh
    case Some(Medium) => PresetMedium
    case Some(Low) => PresetLow
    case None => PresetMedium
  }

  /**
   * `configureStreamQuality`: nothing at all without a capture session;
   * otherwise the capture preset is set, and a known quality also sets the
   * RTMP session's resolution and bitrate. An unknown name leaves both alone.
   */
  function ConfigureQuality(m: Stream, quality: string): (r: Stream)
    ensures m.capture.None? ==> r == m
    ensures m.capture.Some? ==> r.capture == Some(CapturePresetFor(quality))
    ensures r.isStreaming == m.isStreaming
    ensures r.session.Some? <==> m.session.Some?
    ensures ParseQuality(quality).None? ==> r.session == m.session
    ensures m.capture.Some? && m.session.Some? && ParseQuality(quality).Some? ==>
      var p := VideoPresetOf(ParseQuality(quality).value);
      r.session.value == m.session.value.(currentResolution := ResolutionText(p.width, p.height), currentBitrate := p.bitrate)
  {
    if m.capture.None? then m
    else
      var session :=
        match ParseQuality(quality)
        case None => m.session
        case Some(q) =>
          if m.session.None? then None
          else
            var p := VideoPresetOf(q);
            Some(m.session.value.(currentResolution := ResolutionText(p.width, p.height), currentBitrate := p.bitrate));
      m.(capture := Some(CapturePresetFor(quality)), session := session)
  }

  /** The table in full: the three rows, and no change for any other name. */
  lemma QualityTable(m: Stream, quality: string)
    requires m.capture.Some? && m.session.Some?
    ensures var s := ConfigureQuality(m, quality).session.value;
      && (quality == "high" ==> s.currentResolution == "1920x1080" && s.currentBitrate == 4000000)
      && (quality == "medium" ==> s.currentResolution == "1280x720" && s.currentBitrate == 2000000)
      && (quality == "low" ==> s.currentResolution == "640x480" && s.currentBitrate == 1000000)
      && (quality != "high" && quality != "medium" && quality != "low" ==> s == m.session.value)
      && s.currentFPS == m.session.value.currentFPS
      && s.isConnected == m.session.value.isConnected
  {
    PresetResolutionTexts();
  }

  // ---------------------------------------------------------------------------
  // The channel methods, on values
  // ---------------------------------------------------------------------------

  /**
   * The request step of `startLiveStream`: the streaming guard first, then the
   * argument check; only a call that passes both replaces the session, by a
   * fresh one to which a supplied quality is then applied. It does not reply:
   * the reply comes from the completion.
   */
  function StartRequest(m: Stream, arguments: Option<Dict>): (r: Request)
    ensures r.reply.None? <==>
      !m.isStreaming && StringParam(arguments, "streamUrl").Some? && StringParam(arguments, "streamKey").Some?
    ensures m.isStreaming ==> r == Request(m, Some(Failure("STREAM_ERROR", "Stream already in progress")))
    ensures !m.isStreaming && r.reply.Some? ==> r == Request(m, Some(Failure("INVALID_PARAMS", "Missing stream URL or key")))
    ensures r.reply.None? ==>
      var url, key := StringParam(arguments, "streamUrl").value, StringParam(arguments, "streamKey").value;
      && !r.state.isStreaming
      && (StringParam(arguments, "quality").None? ==>
            r.state == m.(session := Some(Session(url, key, false, 0, 0, 30, "720p", 0.0))))
      && (StringParam(arguments, "quality").Some? ==>
            r.state == ConfigureQuality(m.(session := Some(Session(url, key, false, 0, 0, 30, "720p", 0.0))),
                                        StringParam(arguments, "quality").value))
  {
    if m.isStreaming then
      Request(m, Some(Failure("STREAM_ERROR", "Stream already in progress")))
    else
      match (StringParam(arguments, "streamUrl"), StringParam(arguments, "streamKey"))
      case (Some(url), Some(key)) =>
        var created := m.(session := Some(NewSession(url, key)));
        var configured :=
          match StringParam(arguments, "quality")
          case None => created
          case Some(quality) => ConfigureQuality(created, quality);
        Request(configured, None)
      case _ =>
        Request(m, Some(Failure("INVALID_PARAMS", "Missing stream URL or key")))
  }

  /** The reply of a start that went live. */
  function LiveReply(streamId: string): Reply {
    Success(map["success" := Bool(true), "streamId" := Text(streamId), "status" := Text("live")])
  }

  /**
   * The completion closure of `startLiveStream`: success changes nothing and
   * replies "live"; failure clears the streaming flag and replies
   * STREAM_ERROR with the error's description or a fixed message.
   */
  function StartCompletion(m: Stream, success: bool, error: Option<string>, streamId: string): (r: Step)
    ensures r.state.isStreaming == (m.isStreaming && success)
    ensures r.state.capture == m.capture && r.state.session == m.session
    ensures r.reply.Success? <==> success
    ensures success ==> r.reply == LiveReply(streamId)
    ensures !success && error.Some? ==> r.reply == Failure("STREAM_ERROR", error.value)
    ensures !success && error.None? ==> r.reply == Failure("STREAM_ERROR", "Failed to start stream")
  {
    if success then Step(m, LiveReply(streamId))
    else Step(m.(isStreaming := false), Failure("STREAM_ERROR", error.GetOr("Failed to start stream")))
  }

  /**
   * The background block of `startLiveStream`: the flag is set, then the stub
   * `RTMPSession.start` marks the session connected and reports success, and
   * the completion replies. Without a session nothing replies.
   */
  function StartRun(m: Stream, streamId: string): (r: Request)
    ensures r.state.isStreaming && r.state.capture == m.capture
    ensures r.state.session.Some? <==> m.session.Some?
    ensures m.session.None? ==> r.reply.None?
    ensures m.session.Some? ==>
      r.state.session.value == m.session.value.(isConnected := true) && r.reply == Some(LiveReply(streamId))
  {
    var running := m.(isStreaming := true);
    if running.session.None? then Request(running, None)
    else
      var connected := running.(session := Some(running.session.value.(isConnected := true)));
      var done := StartCompletion(connected, true, None, streamId);
      Request(done.state, Some(done.reply))
  }

  /**
   * `stopLiveStream`: STREAM_ERROR with no change unless streaming; otherwise
   * the flag is cleared and the session disconnected, and the session is
   * otherwise kept as it was.
   */
  function Stop(m: Stream): (r: Step)
    ensures !r.state.isStreaming
    ensures r.reply.Success? <==> m.isStreaming
    ensures !m.isStreaming ==> r == Step(m, Failure("STREAM_ERROR", "No active stream"))
    ensures m.isStreaming ==> r.reply == Success(map["success" := Bool(true), "status" := Text("stopped")])
    ensures r.state.capture == m.capture
    ensures r.state.session.Some? <==> m.session.Some?
    ensures m.isStreaming && m.session.Some? ==>
      r.state.session.value == m.session.value.(isConnected := false)
  {
    if !m.isStreaming then Step(m, Failure("STREAM_ERROR", "No active stream"))
    else
      var session := if m.session.None? then None else Some(m.session.value.(isConnected := false));
      Step(m.(isStreaming := false, session := session), Success(map["success" := Bool(true), "status" := Text("stopped")]))
  }

  const PauseReply: Reply := Success(map["success" := Bool(true), "status" := Text("paused")])
  const ResumeReply: Reply := Success(map["success" := Bool(true), "status" := Text("live")])

  /**
   * `getStreamStats`: `isLive` is the streaming flag, the rest are the
   * session's fields, or 0, 0, 0, "720p", 0 without a session.
   */
  function Stats(m: Stream): (d: Dict)
    ensures d.Keys == {"isLive", "viewerCount", "bitrate", "fps", "resolution", "duration"}
    ensures d["isLive"] == Bool(m.isStreaming)
    ensures m.session.None? ==>
      && d["viewerCount"] == Int(0) && d["bitrate"] == Int(0) && d["fps"] == Int(0)
      && d["resolution"] == Text("720p") && d["duration"] == Decimal(0.0)
    ensures m.session.Some? ==>
      var s := m.session.value;
      && d["viewerCount"] == Int(s.viewerCount) && d["bitrate"] == Int(s.currentBitrate)
      && d["fps"] == Int(s.currentFPS) && d["resolution"] == Text(s.currentResolution)
      && d["duration"] == Decimal(s.streamDuration)
  {
    var s := m.session.GetOr(Session("", "", false, 0, 0, 0, "720p", 0.0));
    map[
      "isLive" := Bool(m.isStreaming),
      "viewerCount" := Int(s.viewerCount),
      "bitrate" := Int(s.currentBitrate),
      "fps" := Int(s.currentFPS),
      "resolution" := Text(s.currentResolution),
      "duration" := Decimal(s.streamDuration)]
  }

  /**
   * `updateStreamSettings`: INVALID_PARAMS without an argument dictionary;
   * otherwise an `Int` bitrate and an `Int` fps, each only when supplied,
   * are written to the session (if any), with no range check.
   */
  function SettingsUpdate(m: Stream, arguments: Option<Dict>): (r: Step)
    ensures arguments.None? ==> r == Step(m, Failure("INVALID_PARAMS", "Invalid parameters"))
    ensures arguments.Some? ==> r.reply == Success(map["success" := Bool(true)])
    ensures r.state.isStreaming == m.isStreaming && r.state.capture == m.capture
    ensures r.state.session.Some? <==> m.session.Some?
    ensures arguments.Some? && m.session.Some? ==>
      var s, args := m.session.value, arguments.value;
      r.state.session.value == s.(currentBitrate := IntArg(args, "bitrate").GetOr(s.currentBitrate),
                                  currentFPS := IntArg(args, "fps").GetOr(s.currentFPS))
  {
    match arguments
    case None => Step(m, Failure("INVALID_PARAMS", "Invalid parameters"))
    case Some(args) =>
      var session :=
        match m.session
        case None => None
        case Some(s) =>
          var b := match IntArg(args, "bitrate") case Some(b) => s.(currentBitrate := b) case None => s;
          Some(match IntArg(args, "fps") case Some(f) => b.(currentFPS := f) case None => b);
      Step(m.(session := session), Success(map["success" := Bool(true)]))
  }

  /** The audio ports `switchAudioInput` selects. */
  datatype AudioPort = BuiltInMicrophone | BluetoothHFP | WiredHeadset

  function InputPort(inputType: string): (p: Option<AudioPort>)
    ensures p.Some? <==> inputType in {"microphone", "bluetooth", "wired"}
  {
    if inputType == "microphone" then Some(BuiltInMicrophone)
    else if inputType == "bluetooth" then Some(BluetoothHFP)
    else if inputType == "wired" then Some(WiredHeadset)
    else None
  }

  /**
   * The reply of `switchAudioInput`: success exactly for the three input
   * names, INVALID_PARAMS with one message for a missing name and another
   * for an unsupported one. Selecting the port is a platform call.
   */
  function AudioInputSwitch(arguments: Option<Dict>): (r: Reply)
    ensures r.Success? <==>
      StringParam(arguments, "inputType").Some? && StringParam(arguments, "inputType").value in {"microphone", "bluetooth", "wired"}
    ensures StringParam(arguments, "inputType").None? ==> r == Failure("INVALID_PARAMS", "Missing input type")
    ensures StringParam(arguments, "inputType").Some? && r.Failure? ==> r == Failure("INVALID_PARAMS", "Unsupported input type")
    ensures r.Success? ==> r.fields == map["success" := Bool(true), "inputType" := Text(StringParam(arguments, "inputType").value)]
  {
    match StringParam(arguments, "inputType")
    case None => Failure("INVALID_PARAMS", "Missing input type")
    case Some(inputType) =>
      if InputPort(inputType).None? then Failure("INVALID_PARAMS", "Unsupported input type")
      else Success(map["success" := Bool(true), "inputType" := Text(inputType)])
  }

  /**
   * `setVideoQuality`: INVALID_PARAMS without a `quality` string; otherwise
   * the quality table is applied and the call succeeds, for unknown names too.
   */
  function QualityChange(m: Stream, arguments: Option<Dict>): (r: Step)
    ensures r.reply.Success? <==> StringParam(arguments, "quality").Some?
    ensures StringParam(arguments, "quality").None? ==> r == Step(m, Failure("INVALID_PARAMS", "Missing quality parameter"))
    ensures StringParam(arguments, "quality").Some? ==>
      var q := StringParam(arguments, "quality").value;
      r == Step(ConfigureQuality(m, q), Success(map["success" := Bool(true), "quality" := Text(q)]))
  {
    match StringParam(arguments, "quality")
    case None => Step(m, Failure("INVALID_PARAMS", "Missing quality parameter"))
    case Some(q) => Step(ConfigureQuality(m, q), Success(map["success" := Bool(true), "quality" := Text(q)]))
  }

  /** `startScreenShare`, given whether ReplayKit can record and the error its completion reports. */
  function ScreenShareStart(recorderAvailable: bool, completionError: Option<string>): (r: Reply)
    ensures r.Success? <==> recorderAvailable && completionError.None?
    ensures !recorderAvailable ==> r == Failure("SCREEN_SHARE_ERROR", "Screen recording not available")
    ensures recorderAvailable && completionError.Some? ==> r == Failure("SCREEN_SHARE_ERROR", completionError.value)
    ensures r.Success? ==> r.fields == map["success" := Bool(true), "status" := Text("screen_sharing")]
  {
    if !recorderAvailable then Failure("SCREEN_SHARE_ERROR", "Screen recording not available")
    else if completionError.Some? then Failure("SCREEN_SHARE_ERROR", completionError.value)
    else Success(map["success" := Bool(true), "status" := Text("screen_sharing")])
  }

  /** `stopScreenShare`, given the error ReplayKit's completion reports. */
  function ScreenShareStop(completionError: Option<string>): (r: Reply)
    ensures r.Success? <==> completionError.None?
    ensures completionError.Some? ==> r == Failure("SCREEN_SHARE_ERROR", completionError.value)
    ensures r.Success? ==> r.fields == map["success" := Bool(true), "status" := Text("stopped")]
  {
    if completionError.Some? then Failure("SCREEN_SHARE_ERROR", completionError.value)
    else Success(map["success" := Bool(true), "status" := Text("stopped")])
  }

  /** What the platform decides for a call: the ReplayKit outcomes. */
  datatype StreamEnv = StreamEnv(screenRecorderAvailable: bool, screenShareError: Option<string>)

  const StreamMethods: set<string> := {
    "startLiveStream", "stopLiveStream", "pauseLiveStream", "resumeLiveStream", "getStreamStats",
    "updateStreamSettings", "startScreenShare", "stopScreenShare", "switchAudioInput", "setVideoQuality"}

  /** The methods after which the manager and its session are as they were. */
  const ReadOnlyMethods: set<string> := {
    "pauseLiveStream", "resumeLiveStream", "getStreamStats", "startScreenShare", "stopScreenShare", "switchAudioInput"}

  /**
   * `handleMethodCall`: each of the ten names runs its method, any other name
   * replies "not implemented" and changes nothing. Only `startLiveStream`
   * can leave its reply to a later completion, and only the two start/stop
   * methods touch the streaming flag.
   */
  function Dispatch(m: Stream, name: string, arguments: Option<Dict>, env: StreamEnv): (r: Request)
    ensures name !in StreamMethods ==> r == Request(m, Some(NotImplemented))
    ensures name in ReadOnlyMethods ==> r.state == m && r.reply.Some?
    ensures r.reply.None? ==> name == "startLiveStream"
    ensures name != "startLiveStream" && name != "stopLiveStream" ==> r.state.isStreaming == m.isStreaming
  {
    if name == "startLiveStream" then StartRequest(m, arguments)
    else if name == "stopLiveStream" then var s := Stop(m); Request(s.state, Some(s.reply))
    else if name == "pauseLiveStream" then Request(m, Some(PauseReply))
    else if name == "resumeLiveStream" then Request(m, Some(ResumeReply))
    else if name == "getStreamStats" then Request(m, Some(Success(Stats(m))))
    else if name == "updateStreamSettings" then var s := SettingsUpdate(m, arguments); Request(s.state, Some(s.reply))
    else if name == "startScreenShare" then Request(m, Some(ScreenShareStart(env.screenRecorderAvailable, env.screenShareError)))
    else if name == "stopScreenShare" then Request(m, Some(ScreenShareStop(env.screenShareError)))
    else if name == "switchAudioInput" then Request(m, Some(AudioInputSwitch(arguments)))
    else if name == "setVideoQuality" then var s := QualityChange(m, arguments); Request(s.state, Some(s.reply))
    else Request(m, Some(NotImplemented))
  }

  // ---------------------------------------------------------------------------
  // The objects
  // ---------------------------------------------------------------------------

  /** The stub RTMP session: its fields change only through the setters below. */
  class RTMPSession {
    const url: string
    const key: string
    var isConnected: bool
    var viewerCount: int
    var currentBitrate: int
    var currentFPS: int
    var currentResolution: string
    var streamDuration: real

    ghost function View(): Session
      reads this
    {
      Session(url, key, isConnected, viewerCount, currentBitrate, currentFPS, currentResolution, streamDuration)
    }

    constructor (url: string, key: string)
      ensures View() == Session(url, key, false, 0, 0, 30, "720p", 0.0)
    {
      this.url := url;
      this.key := key;
      isConnected := false;
      viewerCount := 0;
      currentBitrate := 0;
      currentFPS := 30;
      currentResolution := "720p";
      streamDuration := 0.0;
    }

    /** The simulated connection: it always connects and reports success without an error. */
    method Start() returns (success: bool, error: Option<string>)
      modifies this
      ensures success && error.None?
      ensures View() == old(View()).(isConnected := true)
    {
      isConnected := true;
      success, error := true, None;
    }

    method Stop()
      modifies this
      ensures View() == old(View()).(isConnected := false)
    {
      isConnected := false;
    }

    method SetBitrate(bitrate: int)
      modifies this
      ensures View() == old(View()).(currentBitrate := bitrate)
    {
      currentBitrate := bitrate;
    }

    method SetFPS(fps: int)
      modifies this
      ensures View() == old(View()).(currentFPS := fps)
    {
      currentFPS := fps;
    }

    method SetResolution(width: int, height: int)
      modifies this
      ensures View() == old(View()).(currentResolution := ResolutionText(width, height))
    {
      currentResolution := ResolutionText(width, height);
    }
  }

  class LiveStreamManager {
    var isStreaming: bool
    var streamSession: Option<CapturePreset>
    var rtmpSession: RTMPSession?

    ghost function View(): Stream
      reads this, rtmpSession
    {
      Stream(isStreaming, streamSession, if rtmpSession == null then None else Some(rtmpSession.View()))
    }

    constructor ()
      ensures View() == Initial
    {
      isStreaming := false;
      streamSession := Some(PresetHigh);
      rtmpSession := null;
    }

    method ConfigureStreamQuality(quality: string)
      modifies this, rtmpSession
      ensures rtmpSession == old(rtmpSession)
      ensures View() == ConfigureQuality(old(View()), quality)
    {
      if streamSession.None? {
        return;
      }
      if quality == "high" {
        streamSession := Some(PresetHigh);
        if rtmpSession != null {
          rtmpSession.SetResolution(1920, 1080);
          rtmpSession.SetBitrate(4000000);
        }
      } else if quality == "medium" {
        streamSession := Some(PresetMedium);
        if rtmpSession != null {
          rtmpSession.SetResolution(1280, 720);
          rtmpSession.SetBitrate(2000000);
        }
      } else if quality == "low" {
        streamSession := Some(PresetLow);
        if rtmpSession != null {
          rtmpSession.SetResolution(640, 480);
          rtmpSession.SetBitrate(1000000);
        }
      } else {
        streamSession := Some(PresetMedium);
      }
    }

    /** The request step of `startLiveStream`; None means the completion will reply. */
    method StartLiveStream(arguments: Option<Dict>) returns (reply: Option<Reply>)
      modifies this
      ensures var r := StartRequest(old(View()), arguments); View() == r.state && reply == r.reply
      ensures reply.Some? ==> rtmpSession == old(rtmpSession)
      ensures reply.None? ==> fresh(rtmpSession)
    {
      if isStreaming {
        return Some(Failure("STREAM_ERROR", "Stream already in progress"));
      }
      var streamUrl := StringParam(arguments, "streamUrl");
      var streamKey := StringParam(arguments, "streamKey");
      if streamUrl.None? || streamKey.None? {
        return Some(Failure("INVALID_PARAMS", "Missing stream URL or key"));
      }
      rtmpSession := new RTMPSession(streamUrl.value, streamKey.value);
      var quality := StringParam(arguments, "quality");
      if quality.Some? {
        ConfigureStreamQuality(quality.value);
      }
      reply := None;
    }

    /** The background block that an accepted start schedules; `streamId` stands for `generateStreamId()`. */
    method RunStart(streamId: string) returns (reply: Option<Reply>)
      modifies this, rtmpSession
      ensures rtmpSession == old(rtmpSession)
      ensures var r := StartRun(old(View()), streamId); View() == r.state && reply == r.reply
    {
      isStreaming := true;
      if rtmpSession != null {
        var success, error := rtmpSession.Start();
        var done := OnStartCompleted(success, error, streamId);
        reply := Some(done);
      } else {
        reply := None;
      }
    }

    /** The completion closure passed to `RTMPSession.start`. */
    method OnStartCompleted(success: bool, error: Option<string>, streamId: string) returns (reply: Reply)
      modifies this
      ensures rtmpSession == old(rtmpSession)
      ensures var r := StartCompletion(old(View()), success, error, streamId); View() == r.state && reply == r.reply
    {
      if success {
        reply := LiveReply(streamId);
      } else {
        isStreaming := false;
        reply := Failure("STREAM_ERROR", error.GetOr("Failed to start stream"));
      }
    }

    method StopLiveStream() returns (reply: Reply)
      modifies this, rtmpSession
      ensures rtmpSession == old(rtmpSession)
      ensures var r := Stop(old(View())); View() == r.state && reply == r.reply
    {
      if !isStreaming {
        return Failure("STREAM_ERROR", "No active stream");
      }
      if rtmpSession != null {
        rtmpSession.Stop();
      }
      isStreaming := false;
      reply := Success(map["success" := Bool(true), "status" := Text("stopped")]);
    }

    /** The session's pause/resume are empty stubs, so these change nothing. */
    method PauseLiveStream() returns (reply: Reply)
      ensures reply == Success(map["success" := Bool(true), "status" := Text("paused")])
    {
      reply := PauseReply;
    }

    method ResumeLiveStream() returns (reply: Reply)
      ensures reply == Success(map["success" := Bool(true), "status" := Text("live")])
    {
      reply := ResumeReply;
    }

    method GetStreamStats() returns (stats: Dict)
      ensures stats == Stats(View())
    {
      var live := isStreaming;
      if rtmpSession == null {
        stats := map["isLive" := Bool(live), "viewerCount" := Int(0), "bitrate" := Int(0),
                     "fps" := Int(0), "resolution" := Text("720p"), "duration" := Decimal(0.0)];
      } else {
        stats := map["isLive" := Bool(live), "viewerCount" := Int(rtmpSession.viewerCount),
                     "bitrate" := Int(rtmpSession.currentBitrate), "fps" := Int(rtmpSession.currentFPS),
                     "resolution" := Text(rtmpSession.currentResolution),
                     "duration" := Decimal(rtmpSession.streamDuration)];
      }
    }

    method UpdateStreamSettings(arguments: Option<Dict>) returns (reply: Reply)
      modifies rtmpSession
      ensures var r := SettingsUpdate(old(View()), arguments); View() == r.state && reply == r.reply
    {
      if arguments.None? {
        return Failure("INVALID_PARAMS", "Invalid parameters");
      }
      var bitrate := IntArg(arguments.value, "bitrate");
      if bitrate.Some? && rtmpSession != null {
        rtmpSession.SetBitrate(bitrate.value);
      }
      var fps := IntArg(arguments.value, "fps");
      if fps.Some? && rtmpSession != null {
        rtmpSession.SetFPS(fps.value);
      }
      reply := Success(map["success" := Bool(true)]);
    }

    method StartScreenShare(recorderAvailable: bool, completionError: Option<string>) returns (reply: Reply)
      ensures reply == ScreenShareStart(recorderAvailable, completionError)
    {
      if !recorderAvailable {
        return Failure("SCREEN_SHARE_ERROR", "Screen recording not available");
      }
      match completionError
      case Some(e) => reply := Failure("SCREEN_SHARE_ERROR", e);
      case None => reply := Success(map["success" := Bool(true), "status" := Text("screen_sharing")]);
    }

    method StopScreenShare(completionError: Option<string>) returns (reply: Reply)
      ensures reply == ScreenShareStop(completionError)
    {
      match completionError
      case Some(e) => reply := Failure("SCREEN_SHARE_ERROR", e);
      case None => reply := Success(map["success" := Bool(true), "status" := Text("stopped")]);
    }

    method SwitchAudioInput(arguments: Option<Dict>) returns (reply: Reply)
      ensures reply == AudioInputSwitch(arguments)
    {
      var inputType := StringParam(arguments, "inputType");
      if inputType.None? {
        return Failure("INVALID_PARAMS", "Missing input type");
      }
      if inputType.value == "microphone" || inputType.value == "bluetooth" || inputType.value == "wired" {
        reply := Success(map["success" := Bool(true), "inputType" := Text(inputType.value)]);
      } else {
        reply := Failure("INVALID_PARAMS", "Unsupported input type");
      }
    }

    method SetVideoQuality(arguments: Option<Dict>) returns (reply: Reply)
      modifies this, rtmpSession
      ensures rtmpSession == old(rtmpSession)
      ensures var r := QualityChange(old(View()), arguments); View() == r.state && reply == r.reply
    {
      var quality := StringParam(arguments, "quality");
      if quality.None? {
        return Failure("INVALID_PARAMS", "Missing quality parameter");
      }
      ConfigureStreamQuality(quality.value);
      reply := Success(map["success" := Bool(true), "quality" := Text(quality.value)]);
    }

    method HandleMethodCall(name: string, arguments: Option<Dict>, env: StreamEnv) returns (reply: Option<Reply>)
      modifies this, rtmpSession
      ensures var r := Dispatch(old(View()), name, arguments, env); View() == r.state && reply == r.reply
    {
      var r: Reply;
      if name == "startLiveStream" {
        reply := StartLiveStream(arguments);
        return;
      } else if name == "stopLiveStream" {
        r := StopLiveStream();
      } else if name == "pauseLiveStream" {
        r := PauseLiveStream();
      } else if name == "resumeLiveStream" {
        r := ResumeLiveStream();
      } else if name == "getStreamStats" {
        var stats := GetStreamStats();
        r := Success(stats);
      } else if name == "updateStreamSettings" {
        r := UpdateStreamSettings(arguments);
      } else if name == "startScreenShare" {
        r := StartScreenShare(env.screenRecorderAvailable, env.screenShareError);
      } else if name == "stopScreenShare" {
        r := StopScreenShare(env.screenShareError);
      } else if name == "switchAudioInput" {
        r := SwitchAudioInput(arguments);
      } else if name == "setVideoQuality" {
        r := SetVideoQuality(arguments);
      } else {
        r := NotImplemented;
      }
      reply := Some(r);
    }
  }
}
