# Live-stream and audio channel handlers, modelled in Dafny

The iOS host of a Flutter app answers method-channel calls through handler
objects. This project models the two that keep state of their own:

- `LiveStreamManager` with its stub `RTMPSession`
  (`ios/Runner/Swift/LiveStreamManager.swift`). The manager has a streaming
  flag, a capture session (modelled by its preset) and an optional RTMP
  session. The session's connection flag, bitrate, frame rate, resolution,
  viewer count and duration change only through its setters.
- `AudioManager` (`ios/Runner/Swift/AudioManager.swift`). It has a
  recording flag and a playback flag, the recorder and player it created,
  and three effect units (reverb, delay, distortion). Each unit has a bypass
  flag and parameters.

Each handler is modelled three times over:

- A value type holds what the object holds (`LiveStream.Stream`,
  `AudioHandler.Audio`).
- Functions on that value say what each channel method does to it and what
  it replies, error codes and messages included. A method with guards, or
  arguments, or a reply that depends on the state, has a function of its own
  (`StartRequest`, `Stop`, `SetEffect`, …). A method that cannot fail and
  whose reply is fixed is one of two other things. For `pauseLiveStream`,
  `resumeLiveStream`, `pauseAudioRecording`, `resumeAudioRecording` and
  `processAudioFile` it is a constant reply. For `stopAudio`, `pauseAudio`
  and `resumeAudio` it is a branch of the dispatcher, `AudioHandler.Dispatch`,
  that sets or clears `isPlaying`.
- A class has the same fields and updates them in place. Each of its methods
  is proved to follow its function, its branch of the dispatcher, or its
  constant: `View() == F(old(View()), …)` and `reply == …`.

The trace modules (`StreamTraces`, `AudioTraces`) run sequences of calls
through these functions. They prove what holds over whole sequences, by
induction.

Files: `channel.dfy` (argument and reply dictionaries), `numerals.dfy`
(Swift's decimal interpolation of `Int`, and the `"<w>x<h>"` resolution
text with its parser), `livestream.dfy`, `stream_traces.dfy`, `audio.dfy`,
`audio_traces.dfy`.

How the model reads the source:

- An argument is read with a cast such as `args["streamUrl"] as? String`.
  In the model this is a test on the constructor of a `Channel.Value`. A
  missing key and a value of another type both read as absent, as in Swift.
- The asynchronous `startLiveStream` is three steps:
  - the request (`StartLiveStream`: the guards, the new session, the quality);
  - the background block it schedules (`RunStart`);
  - the completion closure (`OnStartCompleted`), which takes the transport's
    success flag and error as parameters. Its failure branch can therefore be
    reached, even though the stub `RTMPSession.start` always reports success.

  In a trace, an accepted start is followed at once by its block and its
  completion.
- Values that come from the platform are parameters:
  - `generateStreamId()`;
  - the recording and mix file paths;
  - errors thrown by `AVAudioRecorder`/`AVAudioPlayer` initialisers;
  - meter readings and a player's duration;
  - ReplayKit's availability and completion errors;
  - the random amplitudes of the waveform.
- The stream controller has no states besides its streaming flag and the
  session's connection flag: no `Connecting`, `Paused` or `Failed` state.
  Nothing validates bitrate, fps or resolution, so a rejected setting has
  nothing to roll back, and a start in progress cannot be cancelled. An
  unknown quality name does not fall back to the medium bitrate and
  resolution. It only sets the capture preset to `.medium` and leaves the
  session's bitrate and resolution alone.

## Model

| member | source | states |
|---|---|---|
| Numerals.IntTextRoundTrip | ios/Runner/Swift/LiveStreamManager.swift:350-352 | the decimal text of any `Int` parses back to that `Int` and contains no `x` |
| Numerals.ResolutionRoundTrip | ios/Runner/Swift/LiveStreamManager.swift:350-352 | `"\(width)x\(height)"` splits at its first `x` back into exactly `(width, height)`: distinct sizes give distinct texts |
| Numerals.PresetResolutionTexts | ios/Runner/Swift/LiveStreamManager.swift:263-275 | the three preset sizes format as `"1920x1080"`, `"1280x720"`, `"640x480"` |
| LiveStream.ParseQuality | ios/Runner/Swift/LiveStreamManager.swift:263-277 | a name selects a quality exactly when it is that quality's name (`"high"`, `"medium"`, `"low"`), in both directions |
| LiveStream.CapturePresetFor | ios/Runner/Swift/LiveStreamManager.swift:276-277 | an unknown quality name selects capture preset `.medium` |
| LiveStream.ConfigureQuality | ios/Runner/Swift/LiveStreamManager.swift:260-279 | no change at all without a capture session; otherwise the capture preset is set, a known quality overwrites only the session's resolution and bitrate, an unknown one leaves the session as it was, and the streaming flag never changes |
| LiveStream.QualityTable | ios/Runner/Swift/LiveStreamManager.swift:260-279 | high gives `"1920x1080"`/4000000, medium `"1280x720"`/2000000, low `"640x480"`/1000000, any other name no session change; fps and connection are kept |
| LiveStream.StartRequest | ios/Runner/Swift/LiveStreamManager.swift:89-108 | while streaming: STREAM_ERROR and no change; otherwise a missing URL or key: INVALID_PARAMS and no change; only when both guards pass is the session replaced by a fresh one (not connected, bitrate 0, fps 30, `"720p"`, no viewers, duration 0) with a supplied quality applied, and the flag stays false until the completion |
| LiveStream.StartCompletion | ios/Runner/Swift/LiveStreamManager.swift:117-130 | success keeps the state and replies live with the stream id; failure clears only the streaming flag and replies STREAM_ERROR with the error's text or "Failed to start stream" |
| LiveStream.StartRun | ios/Runner/Swift/LiveStreamManager.swift:111-131 | the flag is set; with a session, the session becomes connected (all else kept) and the reply is the live reply; without one nothing replies |
| LiveStream.Stop | ios/Runner/Swift/LiveStreamManager.swift:135-149 | not streaming: STREAM_ERROR and no change; streaming: the flag is cleared, the session is kept with only `isConnected` cleared, and the reply is "stopped"; the flag is false afterwards either way |
| LiveStream.Stats | ios/Runner/Swift/LiveStreamManager.swift:163-174 | exactly six keys; `isLive` is the streaming flag; the session's viewer count, bitrate, fps, resolution and duration, or 0, 0, 0, `"720p"`, 0 without a session |
| LiveStream.SettingsUpdate | ios/Runner/Swift/LiveStreamManager.swift:176-191 | no argument map: INVALID_PARAMS and no change; otherwise success, and only a supplied `Int` bitrate and/or fps is written to the session, unchecked; flag and capture kept |
| LiveStream.InputPort | ios/Runner/Swift/LiveStreamManager.swift:234-243 | an input name selects a port exactly for `"microphone"`, `"bluetooth"`, `"wired"` |
| LiveStream.AudioInputSwitch | ios/Runner/Swift/LiveStreamManager.swift:226-247 | success exactly for the three names, echoing the name; INVALID_PARAMS "Missing input type" or "Unsupported input type" otherwise |
| LiveStream.QualityChange | ios/Runner/Swift/LiveStreamManager.swift:249-258 | no `quality` string: INVALID_PARAMS and no change; otherwise the quality table is applied and the call succeeds, even for unknown names |
| LiveStream.ScreenShareStart | ios/Runner/Swift/LiveStreamManager.swift:193-214 | success exactly when the recorder is available and its completion reports no error; SCREEN_SHARE_ERROR with the fixed or the reported message otherwise |
| LiveStream.ScreenShareStop | ios/Runner/Swift/LiveStreamManager.swift:216-224 | success exactly when the completion reports no error |
| LiveStream.Dispatch | ios/Runner/Swift/LiveStreamManager.swift:17-42 | an unknown method name: not implemented, no change; the read-only methods (pause, resume, stats, screen share, audio input) change nothing; only `startLiveStream` defers its reply; only start and stop move the streaming flag |
| LiveStream.RTMPSession.constructor | ios/Runner/Swift/LiveStreamManager.swift:307-320 | a new session keeps its URL and key and is not connected, bitrate 0, fps 30, `"720p"`, 0 viewers, duration 0 |
| LiveStream.RTMPSession.Start | ios/Runner/Swift/LiveStreamManager.swift:322-328 | always reports success with no error and marks the session connected, nothing else changed |
| LiveStream.RTMPSession.Stop | ios/Runner/Swift/LiveStreamManager.swift:330-332 | only `isConnected` changes, to false |
| LiveStream.RTMPSession.SetBitrate | ios/Runner/Swift/LiveStreamManager.swift:342-344 | only the bitrate changes |
| LiveStream.RTMPSession.SetFPS | ios/Runner/Swift/LiveStreamManager.swift:346-348 | only the frame rate changes |
| LiveStream.RTMPSession.SetResolution | ios/Runner/Swift/LiveStreamManager.swift:350-352 | only the resolution changes, to `"\(width)x\(height)"` |
| LiveStream.LiveStreamManager.constructor | ios/Runner/Swift/LiveStreamManager.swift:12-46 | not streaming, capture session with preset `.high`, no RTMP session |
| LiveStream.LiveStreamManager.ConfigureStreamQuality | ios/Runner/Swift/LiveStreamManager.swift:260-279 | the objects end as `ConfigureQuality` says, with the same session object |
| LiveStream.LiveStreamManager.StartLiveStream | ios/Runner/Swift/LiveStreamManager.swift:89-108 | the objects end as `StartRequest` says; a refused start keeps the very same session object, an accepted one holds a newly allocated session |
| LiveStream.LiveStreamManager.RunStart | ios/Runner/Swift/LiveStreamManager.swift:111-116 | the objects end as `StartRun` says, with the same session object |
| LiveStream.LiveStreamManager.OnStartCompleted | ios/Runner/Swift/LiveStreamManager.swift:117-130 | the objects end as `StartCompletion` says |
| LiveStream.LiveStreamManager.StopLiveStream | ios/Runner/Swift/LiveStreamManager.swift:135-149 | the objects end as `Stop` says, with the same session object |
| LiveStream.LiveStreamManager.PauseLiveStream | ios/Runner/Swift/LiveStreamManager.swift:151-155 | always succeeds with status "paused" and changes nothing |
| LiveStream.LiveStreamManager.ResumeLiveStream | ios/Runner/Swift/LiveStreamManager.swift:157-161 | always succeeds with status "live" and changes nothing |
| LiveStream.LiveStreamManager.GetStreamStats | ios/Runner/Swift/LiveStreamManager.swift:163-174 | returns the stats of the current state and changes nothing |
| LiveStream.LiveStreamManager.UpdateStreamSettings | ios/Runner/Swift/LiveStreamManager.swift:176-191 | the objects end as `SettingsUpdate` says |
| LiveStream.LiveStreamManager.StartScreenShare | ios/Runner/Swift/LiveStreamManager.swift:193-214 | replies as `ScreenShareStart` says and changes nothing |
| LiveStream.LiveStreamManager.StopScreenShare | ios/Runner/Swift/LiveStreamManager.swift:216-224 | replies as `ScreenShareStop` says and changes nothing |
| LiveStream.LiveStreamManager.SwitchAudioInput | ios/Runner/Swift/LiveStreamManager.swift:226-247 | replies as `AudioInputSwitch` says and changes nothing |
| LiveStream.LiveStreamManager.SetVideoQuality | ios/Runner/Swift/LiveStreamManager.swift:249-258 | the objects end as `QualityChange` says, with the same session object |
| LiveStream.LiveStreamManager.HandleMethodCall | ios/Runner/Swift/LiveStreamManager.swift:17-42 | the objects end, and the reply is, as `Dispatch` says |
| StreamTraces.Serve | ios/Runner/Swift/LiveStreamManager.swift:89-131 | a refused start (already streaming, or no URL or key) replies its error at once and leaves the state unchanged; an accepted start ends streaming, on the fresh session with the quality applied and now connected, and replies live with the stream id; any other call is served exactly as the dispatcher serves it |
| StreamTraces.InitialConsistent | ios/Runner/Swift/LiveStreamManager.swift:12-46 | the initial state satisfies the handler's invariant |
| StreamTraces.ServeKeepsConsistent | ios/Runner/Swift/LiveStreamManager.swift:89-191 | every call keeps the invariant: a capture session exists, no streaming flag without a session, connected exactly while streaming, viewer count and duration 0 |
| StreamTraces.RunKeepsConsistent | ios/Runner/Swift/LiveStreamManager.swift:89-191 | the invariant holds after any sequence of calls |
| StreamTraces.ReachableStats | ios/Runner/Swift/LiveStreamManager.swift:163-174 | after any calls, the stats report 0 viewers and duration 0, and `isLive` equals the session's connection flag (false without a session) |
| StreamTraces.WithoutStartStaysStopped | ios/Runner/Swift/LiveStreamManager.swift:135-191 | from a stopped state, calls other than `startLiveStream` never set the streaming flag and never change the session's URL and key |
| StreamTraces.StartHighGoesLive | ios/Runner/Swift/LiveStreamManager.swift:89-131 | from any reached stopped state, a start with URL, key and quality `"high"` replies live with the stream id, and the stats then show live, `"1920x1080"`, 4000000, fps 30 |
| StreamTraces.StartWhileStreamingRefused | ios/Runner/Swift/LiveStreamManager.swift:89-93 | a start while streaming replies STREAM_ERROR and leaves the state, session included, unchanged |
| StreamTraces.StartThenStop | ios/Runner/Swift/LiveStreamManager.swift:135-149 | start then stop: live, then stopped with the session kept, disconnected, same URL, bitrate, fps and resolution |
| AudioHandler.StartRecording | ios/Runner/Swift/AudioManager.swift:101-140 | while recording: RECORDING_ERROR and no change; a recorder that cannot be created: RECORDING_ERROR with its message and no change (the flag stays false); otherwise a new recorder (with `maxDuration` when supplied), the flag set, and the path in the reply |
| AudioHandler.StopRecording | ios/Runner/Swift/AudioManager.swift:142-160 | not recording: RECORDING_ERROR and no change; otherwise only the flag is cleared, and the reply carries the recorder's path, or an error without a recorder |
| AudioHandler.Levels | ios/Runner/Swift/AudioManager.swift:269-279 | reports the recording flag, and the meter readings or -160 for both without a recorder |
| AudioHandler.Play | ios/Runner/Swift/AudioManager.swift:172-205 | no `path`: PLAYBACK_ERROR and no change; a player that cannot be created: PLAYBACK_ERROR and no change; otherwise a new player with the supplied volume and rate, `isPlaying` set, the duration in the reply |
| AudioHandler.Speed | ios/Runner/Swift/AudioManager.swift:323-332 | no `speed`: PLAYBACK_ERROR and no change; otherwise only the current player's rate changes |
| AudioHandler.Volume | ios/Runner/Swift/AudioManager.swift:334-343 | no `volume`: PLAYBACK_ERROR and no change; otherwise only the current player's volume changes |
| AudioHandler.EffectKindOf | ios/Runner/Swift/AudioManager.swift:232-241 | a type name selects an effect exactly for `"reverb"`, `"delay"`, `"distortion"` |
| AudioHandler.ConfigureEffect | ios/Runner/Swift/AudioManager.swift:347-369 | the named unit is enabled and its supplied parameters overwritten (absent ones kept); the other units and the flags, recorder and player are unchanged |
| AudioHandler.BypassEffect | ios/Runner/Swift/AudioManager.swift:254-260 | only the named unit's bypass flag changes, to true; all parameters kept |
| AudioHandler.SetEffect | ios/Runner/Swift/AudioManager.swift:225-245 | missing type or unsupported type: EFFECT_ERROR (two messages) and no change; success exactly for a supported type, changing only that unit as `ConfigureEffect` says |
| AudioHandler.RemoveEffect | ios/Runner/Swift/AudioManager.swift:247-267 | missing or unsupported type: EFFECT_ERROR and no change; success exactly for a supported type, bypassing only that unit |
| AudioHandler.RemoveEffectIdempotent | ios/Runner/Swift/AudioManager.swift:247-267 | removing an effect a second time gives the same state and reply as the first |
| AudioHandler.SetThenRemove | ios/Runner/Swift/AudioManager.swift:225-267 | set then remove: the unit is bypassed and keeps the parameters the set wrote; flags, recorder and player untouched |
| AudioHandler.Mix | ios/Runner/Swift/AudioManager.swift:286-302 | MIX_ERROR exactly when there is no `tracks` list of strings; otherwise `trackCount` is the number of paths supplied |
| AudioHandler.WaveformInUnitRange | ios/Runner/Swift/AudioManager.swift:383-398 | when every random draw lies in `0...1`, as `Float.random(in: 0...1)` promises, every sample of the waveform, and of a successful `generateWaveform` reply, lies in `0...1` |
| AudioHandler.Waveform | ios/Runner/Swift/AudioManager.swift:304-321 | WAVEFORM_ERROR exactly without a `path`; otherwise the samples and a count of 100 |
| AudioHandler.Dispatch | ios/Runner/Swift/AudioManager.swift:26-63 | an unknown method: not implemented, no change; read-only methods change nothing; only the two effect methods touch the effect units; only start/stop recording touch the recording flag and recorder |
| AudioHandler.AudioManager.constructor | ios/Runner/Swift/AudioManager.swift:6-24 | not recording or playing, no recorder or player, effect units not bypassed with their framework parameters |
| AudioHandler.AudioManager.StartAudioRecording | ios/Runner/Swift/AudioManager.swift:101-140 | the object ends, and the reply is, as `StartRecording` says |
| AudioHandler.AudioManager.StopAudioRecording | ios/Runner/Swift/AudioManager.swift:142-160 | as `StopRecording` says |
| AudioHandler.AudioManager.PauseAudioRecording | ios/Runner/Swift/AudioManager.swift:162-165 | always succeeds with status "paused"; changes nothing, `isRecording` included |
| AudioHandler.AudioManager.ResumeAudioRecording | ios/Runner/Swift/AudioManager.swift:167-170 | always succeeds with status "recording"; changes nothing, `isRecording` included |
| AudioHandler.AudioManager.PlayAudio | ios/Runner/Swift/AudioManager.swift:172-205 | as `Play` says |
| AudioHandler.AudioManager.StopAudio | ios/Runner/Swift/AudioManager.swift:207-211 | unconditionally clears only `isPlaying`; replies "stopped" |
| AudioHandler.AudioManager.PauseAudio | ios/Runner/Swift/AudioManager.swift:213-217 | unconditionally clears only `isPlaying`; replies "paused" |
| AudioHandler.AudioManager.ResumeAudio | ios/Runner/Swift/AudioManager.swift:219-223 | unconditionally sets only `isPlaying`, even with no player; replies "playing" |
| AudioHandler.AudioManager.ConfigureReverbEffect | ios/Runner/Swift/AudioManager.swift:347-352 | as `ConfigureEffect` says for the reverb unit |
| AudioHandler.AudioManager.ConfigureDelayEffect | ios/Runner/Swift/AudioManager.swift:354-362 | as `ConfigureEffect` says for the delay unit |
| AudioHandler.AudioManager.ConfigureDistortionEffect | ios/Runner/Swift/AudioManager.swift:364-369 | as `ConfigureEffect` says for the distortion unit |
| AudioHandler.AudioManager.SetAudioEffect | ios/Runner/Swift/AudioManager.swift:225-245 | as `SetEffect` says |
| AudioHandler.AudioManager.RemoveAudioEffect | ios/Runner/Swift/AudioManager.swift:247-267 | as `RemoveEffect` says |
| AudioHandler.AudioManager.GetAudioLevels | ios/Runner/Swift/AudioManager.swift:269-279 | replies as `Levels` says and changes nothing |
| AudioHandler.AudioManager.ProcessAudioFile | ios/Runner/Swift/AudioManager.swift:281-284 | always succeeds with `processed` true and changes nothing |
| AudioHandler.AudioManager.MixAudioTracks | ios/Runner/Swift/AudioManager.swift:286-302 | replies as `Mix` says and changes nothing |
| AudioHandler.AudioManager.GenerateWaveformData | ios/Runner/Swift/AudioManager.swift:383-398 | the loop yields exactly 100 samples, the i-th being the i-th draw |
| AudioHandler.AudioManager.GenerateWaveform | ios/Runner/Swift/AudioManager.swift:304-321 | replies as `Waveform` says and changes nothing |
| AudioHandler.AudioManager.SetPlaybackSpeed | ios/Runner/Swift/AudioManager.swift:323-332 | as `Speed` says |
| AudioHandler.AudioManager.SetVolume | ios/Runner/Swift/AudioManager.swift:334-343 | as `Volume` says |
| AudioHandler.AudioManager.HandleMethodCall | ios/Runner/Swift/AudioManager.swift:26-63 | the object ends, and the reply is, as `Dispatch` says |
| AudioHandler.AudioManager.AudioRecorderDidFinishRecording | ios/Runner/Swift/AudioManager.swift:403-406 | clears only `isRecording` |
| AudioHandler.AudioManager.AudioRecorderEncodeErrorDidOccur | ios/Runner/Swift/AudioManager.swift:408-411 | clears only `isRecording` |
| AudioHandler.AudioManager.AudioPlayerDidFinishPlaying | ios/Runner/Swift/AudioManager.swift:416-419 | clears only `isPlaying` |
| AudioHandler.AudioManager.AudioPlayerDecodeErrorDidOccur | ios/Runner/Swift/AudioManager.swift:421-424 | clears only `isPlaying` |
| AudioTraces.Apply | ios/Runner/Swift/AudioManager.swift:402-424 | recorder callbacks clear only `isRecording`, player callbacks clear only `isPlaying` |
| AudioTraces.RunAppend | ios/Runner/Swift/AudioManager.swift:26-63 | running events and then one more is applying that event to the result |
| AudioTraces.ApplyBypass | ios/Runner/Swift/AudioManager.swift:225-267 | one event moves a unit's bypass flag only if it is an accepted set (to false) or remove (to true) naming that unit |
| AudioTraces.BypassIsLastTouch | ios/Runner/Swift/AudioManager.swift:225-267 | after any events, a unit is bypassed exactly when the last accepted set or remove naming it was a remove, or as before if none named it |
| AudioTraces.ApplyParam | ios/Runner/Swift/AudioManager.swift:347-369 | one event changes an effect parameter only if it is an accepted set on its unit that supplies it |
| AudioTraces.ParamIsLastSupplied | ios/Runner/Swift/AudioManager.swift:347-369 | after any events, each effect parameter holds the value of the last set call on its unit that supplied it, else its earlier value; removals keep parameters |
| AudioTraces.ApplyKeepsRecorder | ios/Runner/Swift/AudioManager.swift:101-160 | no event sets the recording flag without a recorder, or discards a recorder |
| AudioTraces.RunKeepsRecorder | ios/Runner/Swift/AudioManager.swift:101-160 | after any events, the handler records only with a recorder |
| AudioTraces.StopRecordingNeverLosesPath | ios/Runner/Swift/AudioManager.swift:142-160 | from the initial state, stop never replies "Failed to get recording path": it is "No active recording" or a success |
| AudioTraces.StartThenStopRecording | ios/Runner/Swift/AudioManager.swift:101-160 | start then stop, when the recorder can be created: recording, then stopped with the new file's path in the reply |

## Left out

- AVFoundation, ReplayKit and Photos calls with no modelled outcome:
  - capture-session inputs and `startRunning`/`stopRunning`;
  - the audio-session category and activation;
  - `setPreferredInput`;
  - the audio-engine graph;
  - what recorders, players and effect units do with sound.
- Platform values become call parameters: stream ids (time and UUID), file URLs, initialiser errors, meter readings, durations and the random number generator.
- The random number generator is a parameter. Its `0...1` range is a hypothesis of `AudioHandler.WaveformInUnitRange`, not a property of the model's operations.
- Dispatch-queue interleavings are not modelled. These include:
  - the race that lets a second start pass the guard before the background block sets the flag;
  - a stop between the flag being set and the session connecting.
- Floating-point values (volume, rate, speed, effect parameters, durations, power levels) are carried as `real` and never computed with. The Swift `Float`/`Double` distinction is not kept.
- NSNumber bridging is not modelled: an `Int` argument is read only by `as? Int`, and a decimal only by `as? Float`/`as? TimeInterval`.
- Swift `Int` is 64-bit. Bitrate and fps are only stored, never computed with, so they are unbounded integers here.
- Effect units start with AVFoundation's defaults: not bypassed, parameters unknown. An unknown parameter is `None`.
- `compressorEffect` is declared but never used, so it is omitted.
- The `successfully`/`error` arguments of the delegate callbacks are only printed, so they are omitted.
- `RTMPSession.pause`, `resume` and `processScreenBuffer` are empty stubs. The manager's pause and resume change nothing, and the screen-capture sample handler is not modelled.
- The `weak self` captures are not modelled: the manager is assumed alive when its closures run.
- `ios/Runner/Swift/CameraManager.swift` and `ios/Runner/AppDelegate.swift` are not part of this model. The first is delegate-driven capture; the second only registers channels and asks for permissions.
