/**
 * Sequences of channel calls to the live-stream handler. A call is served
 * as `handleMethodCall` serves it; an accepted `startLiveStream` is followed
 * at once by its background block and completion, so a trace is the
 * sequential order of events with no race between two starts.
 */
module StreamTraces {
  import opened Channel
  import opened Numerals
  import opened LiveStream

  /** One channel call and the values the platform supplies for it. */
  datatype Call = Call(name: string, arguments: Option<Dict>, env: StreamEnv, streamId: string)

  /**
   * A call, and for an accepted start its background block and completion
   * too: a refused start replies at once and changes nothing; an accepted
   * one ends streaming on the new session, connected, and replies live.
   */
  function Serve(m: Stream, c: Call): (r: Request)
    ensures c.name != "startLiveStream" ==> r == Dispatch(m, c.name, c.arguments, c.env)
    ensures c.name == "startLiveStream" && StartRequest(m, c.arguments).reply.Some? ==>
      r == StartRequest(m, c.arguments) && r.state == m
    ensures c.name == "startLiveStream" && StartRequest(m, c.arguments).reply.None? ==>
      var s := StartRequest(m, c.arguments).state;
      && r.state == s.(isStreaming := true, session := Some(s.session.value.(isConnected := true)))
      && r.reply == Some(LiveReply(c.streamId))
  {
    var r := Dispatch(m, c.name, c.arguments, c.env);
    if c.name == "startLiveStream" && r.reply.None? then StartRun(r.state, c.streamId) else r
  }

  function Run(m: Stream, calls: seq<Call>): Stream
    decreases |calls|
  {
    if |calls| == 0 then m else Run(Serve(m, calls[0]).state, calls[1..])
  }

  /**
   * What holds of every state the handler reaches: a capture session exists,
   * the flag is never set without a session, the session is connected exactly
   * while streaming, and the viewer count and duration (which have no
   * setter) keep their initial zero.
   */
  ghost predicate Consistent(m: Stream) {
    && m.capture.Some?
    && (m.session.None? ==> !m.isStreaming)
    && (m.session.Some? ==>
          && m.session.value.isConnected == m.isStreaming
          && m.session.value.viewerCount == 0
          && m.session.value.streamDuration == 0.0)
  }

  lemma InitialConsistent()
    ensures Consistent(Initial)
  {
  }

  lemma ServeKeepsConsistent(m: Stream, c: Call)
    requires Consistent(m)
    ensures Consistent(Serve(m, c).state)
  {
    var r := Dispatch(m, c.name, c.arguments, c.env);
    if c.name == "startLiveStream" && r.reply.None? {
      assert !r.state.isStreaming && r.state.session.Some?;
      assert !r.state.session.value.isConnected;
    }
  }

  lemma {:induction false} RunKeepsConsistent(m: Stream, calls: seq<Call>)
    requires Consistent(m)
    ensures Consistent(Run(m, calls))
    decreases |calls|
  {
    if |calls| > 0 {
      ServeKeepsConsistent(m, calls[0]);
      RunKeepsConsistent(Serve(m, calls[0]).state, calls[1..]);
    }
  }

  /**
   * Whatever the calls, the stats read back a viewer count and duration of
   * zero, and `isLive` agrees with the session's connection.
   */
  lemma ReachableStats(calls: seq<Call>)
    ensures var m := Run(Initial, calls);
      && Stats(m)["viewerCount"] == Int(0)
      && Stats(m)["duration"] == Decimal(0.0)
      && (m.session.Some? ==> Stats(m)["isLive"] == Bool(m.session.value.isConnected))
      && (m.session.None? ==> Stats(m)["isLive"] == Bool(false))
  {
    RunKeepsConsistent(Initial, calls);
  }

  /** The session's identity: the URL and key it was created with, if any. */
  function Endpoint(m: Stream): Option<(string, string)> {
    if m.session.None? then None else Some((m.session.value.url, m.session.value.key))
  }

  /**
   * Without a `startLiveStream` call nothing sets the streaming flag, and the
   * session keeps the URL and key it was created with.
   */
  lemma {:induction false} WithoutStartStaysStopped(m: Stream, calls: seq<Call>)
    requires !m.isStreaming
    requires forall i :: 0 <= i < |calls| ==> calls[i].name != "startLiveStream"
    ensures !Run(m, calls).isStreaming
    ensures Endpoint(Run(m, calls)) == Endpoint(m)
    decreases |calls|
  {
    if |calls| > 0 {
      var next := Serve(m, calls[0]).state;
      assert Endpoint(next) == Endpoint(m) by {
        var d := Dispatch(m, calls[0].name, calls[0].arguments, calls[0].env);
        assert d.state == next;
      }
      WithoutStartStaysStopped(next, calls[1..]);
    }
  }

  /**
   * A start from a reached stopped state with a URL, a key and quality "high"
   * goes live, and the stats then report the high preset.
   */
  lemma StartHighGoesLive(calls: seq<Call>, url: string, key: string, env: StreamEnv, streamId: string)
    requires !Run(Initial, calls).isStreaming
    ensures var args := map["streamUrl" := Text(url), "streamKey" := Text(key), "quality" := Text("high")];
      var r := Serve(Run(Initial, calls), Call("startLiveStream", Some(args), env, streamId));
      && r.reply == Some(LiveReply(streamId))
      && Stats(r.state)["isLive"] == Bool(true)
      && Stats(r.state)["resolution"] == Text("1920x1080")
      && Stats(r.state)["bitrate"] == Int(4000000)
      && Stats(r.state)["fps"] == Int(30)
  {
    var m := Run(Initial, calls);
    RunKeepsConsistent(Initial, calls);
    PresetResolutionTexts();
    var args := map["streamUrl" := Text(url), "streamKey" := Text(key), "quality" := Text("high")];
    assert StringParam(Some(args), "quality") == Some("high");
    var req := StartRequest(m, Some(args));
    assert req.state.session.value.currentResolution == "1920x1080";
  }

  /** A second start while streaming is refused and leaves everything as it was. */
  lemma StartWhileStreamingRefused(m: Stream, c: Call)
    requires m.isStreaming && c.name == "startLiveStream"
    ensures Serve(m, c) == Request(m, Some(Failure("STREAM_ERROR", "Stream already in progress")))
  {
  }

  /** Start, then stop, from a reached stopped state: stopped again, with the session kept but disconnected. */
  lemma StartThenStop(calls: seq<Call>, start: Call)
    requires start.name == "startLiveStream"
    requires StringParam(start.arguments, "streamUrl").Some? && StringParam(start.arguments, "streamKey").Some?
    requires !Run(Initial, calls).isStreaming
    ensures var live := Serve(Run(Initial, calls), start).state;
      var stopped := Stop(live);
      && live.isStreaming
      && stopped.reply.Success?
      && !stopped.state.isStreaming
      && stopped.state.session.Some?
      && !stopped.state.session.value.isConnected
      && stopped.state.session.value.url == StringParam(start.arguments, "streamUrl").value
      && stopped.state.session.value.currentBitrate == live.session.value.currentBitrate
      && stopped.state.session.value.currentFPS == live.session.value.currentFPS
      && stopped.state.session.value.currentResolution == live.session.value.currentResolution
  {
    RunKeepsConsistent(Initial, calls);
  }
}
