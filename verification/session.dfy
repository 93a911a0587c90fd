/**
 * The push-to-talk session controller of Sources/VoiceManager.swift, as pure
 * transitions over the five fields it publishes.
 *
 * Every platform callback (recognition result, the settle timer, the backend
 * completion, the TTS completion, the audio player delegate, the grace timer)
 * is an `Event`. A step returns the new published state together with the one
 * outward `Effect` the controller starts (a timer, a request, speech).
 * The class `Voice.VoiceManager` implements these steps on mutable fields.
 */
module Session {
  import opened Wrappers
  import Decimal

  // Status messages shown to the user.
  const Ready := "Ready"
  const Listening := "Listening..."
  const Processing := "Processing..."
  const NoSpeech := "No speech detected"
  const TalkingToClawd := "Talking to Clawd..."
  const Speaking := "Speaking..."
  const NoResponse := "No response"
  const TtsError := "TTS Error"
  const ErrorPrefix := "Error: "
  const ApiErrorPrefix := "API Error: "

  // The backend URL before any configuration is read, and the one used when a
  // stored configuration leaves it unset. The two differ in `VoiceManager`.
  const DefaultOpenclawURL := "http://127.0.0.1:18789"
  const FallbackOpenclawURL := "http://localhost:18789"

  /** The observable fields of the controller. */
  datatype Published = Published(
    isRecording: bool,
    isProcessing: bool,
    lastTranscript: string,
    lastResponse: string,
    statusMessage: string)

  const Initial := Published(false, false, "", "", Ready)

  /** The persisted configuration record, as decoded from the user's file. */
  datatype AppConfig = AppConfig(
    elevenLabsAPIKey: string,
    openclawURL: Option<string>,
    openclawToken: Option<string>)

  /** The configuration the controller works with. */
  datatype Settings = Settings(openclawURL: string, openclawToken: string, elevenLabsAPIKey: string)

  const DefaultSettings := Settings(DefaultOpenclawURL, "", "")

  /**
   * The settings after start-up: `stored` is what the configuration file
   * decoded to (`None` when it is missing or unreadable).
   */
  function ResolveConfig(stored: Option<AppConfig>): (r: Settings)
    ensures stored.None? ==> r == DefaultSettings
    ensures stored.Some? ==> r.elevenLabsAPIKey == stored.value.elevenLabsAPIKey
    ensures stored.Some? && stored.value.openclawURL.Some? ==> r.openclawURL == stored.value.openclawURL.value
    ensures stored.Some? && stored.value.openclawURL.None? ==> r.openclawURL == FallbackOpenclawURL
    ensures stored.Some? && stored.value.openclawToken.Some? ==> r.openclawToken == stored.value.openclawToken.value
    ensures stored.Some? && stored.value.openclawToken.None? ==> r.openclawToken == ""
  {
    match stored
    case None => DefaultSettings
    case Some(c) => Settings(c.openclawURL.GetOr(FallbackOpenclawURL), c.openclawToken.GetOr(""), c.elevenLabsAPIKey)
  }

  /** A file without a URL does not give the same URL as having no file at all. */
  lemma UnsetUrlDependsOnFilePresence(key: string, token: Option<string>)
    ensures ResolveConfig(Some(AppConfig(key, None, token))).openclawURL != ResolveConfig(None).openclawURL
  {
    assert FallbackOpenclawURL[7] != DefaultOpenclawURL[7];
  }

  /** What the backend exchange delivered to the completion handler. */
  datatype BackendOutcome =
    | TransportError(msg: string)
      // an HTTP response; `parsedResponse` is the string under "response" in
      // the JSON body, `None` when the body is not such an object
    | Http(code: nat, parsedResponse: Option<string>)

  /** What the cloud TTS exchange delivered, and whether a player could be built from it. */
  datatype TtsOutcome = TtsFailed | AudioReceived(playerCreated: bool)

  datatype SpeakPath = LocalPath | CloudPath

  /** The one thing a step starts outside the controller. */
  datatype Effect =
    | NoEffect
    | StopScheduled                // the settle timer is armed
    | BackendRequest(text: string) // a POST to http://localhost:8770/voice with {"text": text}
    | CloudTtsRequest(text: string)
    | LocalSpeech(text: string)    // on-device synthesis plus the grace timer
    | PlaybackStarted

  datatype Reaction = Reaction(state: Published, effect: Effect)

  datatype Event =
    | StartRecording
    | PartialResult(text: string)
    | StopRecordingAndProcess
    | SettleDelayElapsed
    | BackendResult(outcome: BackendOutcome)
    | TtsResult(tts: TtsOutcome)
    | PlaybackFinished
    | GraceDelayElapsed

  /** Hotkey down: starts listening unless already listening. */
  function StartStep(s: Published): (r: Published)
    ensures s.isRecording ==> r == s
    ensures !s.isRecording ==> r.isRecording && r.statusMessage == Listening && r.lastTranscript == ""
    ensures r.isRecording && r.isProcessing == s.isProcessing && r.lastResponse == s.lastResponse
  {
    if s.isRecording then s
    else s.(isRecording := true, statusMessage := Listening, lastTranscript := "")
  }

  /** A partial recognition result replaces the transcript; nothing else changes. */
  function PartialStep(s: Published, text: string): (r: Published)
    ensures r.lastTranscript == text
    ensures r.(lastTranscript := s.lastTranscript) == s
  {
    s.(lastTranscript := text)
  }

  /** Ends a session with `status`: nothing is in progress any more. */
  function EndSession(s: Published, status: string): (r: Published)
    ensures !r.isProcessing && r.statusMessage == status
    ensures r.(isProcessing := s.isProcessing, statusMessage := s.statusMessage) == s
  {
    s.(statusMessage := status, isProcessing := false)
  }

  /**
   * The delayed stop: closes the recording and, when something was heard,
   * sends the transcript to the backend.
   */
  function FinishRecording(s: Published): (r: Reaction)
    ensures !s.isRecording ==> r == Reaction(s, NoEffect)
    ensures s.isRecording ==>
      !r.state.isRecording && r.state.lastTranscript == s.lastTranscript && r.state.lastResponse == s.lastResponse
    ensures s.isRecording && s.lastTranscript == "" ==>
      r.state.statusMessage == NoSpeech && r.state.isProcessing == s.isProcessing && r.effect == NoEffect
    ensures s.isRecording && s.lastTranscript != "" ==>
      r.state.isProcessing && r.state.statusMessage == TalkingToClawd && r.effect == BackendRequest(s.lastTranscript)
  {
    if !s.isRecording then Reaction(s, NoEffect)
    else
      var stopped := s.(isRecording := false, statusMessage := Processing);
      if stopped.lastTranscript == "" then Reaction(stopped.(statusMessage := NoSpeech), NoEffect)
      else Reaction(stopped.(isProcessing := true, statusMessage := TalkingToClawd), BackendRequest(stopped.lastTranscript))
  }

  /** Starts speaking `text`: in the cloud when a TTS key is set, on the device otherwise. */
  function Speak(s: Published, text: string, ttsKey: string): (r: Reaction)
    ensures r.state == s.(statusMessage := Speaking)
    ensures ttsKey == "" ==> r.effect == LocalSpeech(text)
    ensures ttsKey != "" ==> r.effect == CloudTtsRequest(text)
  {
    var speaking := s.(statusMessage := Speaking);
    if ttsKey == "" then Reaction(speaking, LocalSpeech(text)) else Reaction(speaking, CloudTtsRequest(text))
  }

  function PathOf(e: Effect): SpeakPath
    requires e.LocalSpeech? || e.CloudTtsRequest?
  {
    if e.LocalSpeech? then LocalPath else CloudPath
  }

  /** True of the effects that begin the speaking phase. */
  predicate StartsSpeech(e: Effect) {
    e.LocalSpeech? || e.CloudTtsRequest?
  }

  /**
   * The backend completion handler: a transport error first, then a non-200
   * status, then a string "response" field, otherwise "No response".
   */
  function BackendDone(s: Published, outcome: BackendOutcome, ttsKey: string): (r: Reaction)
    ensures outcome.TransportError? ==>
      r == Reaction(EndSession(s, ErrorPrefix + outcome.msg), NoEffect)
    ensures outcome.Http? && outcome.code != 200 ==>
      r == Reaction(EndSession(s, ApiErrorPrefix + Decimal.FromNat(outcome.code)), NoEffect)
    ensures outcome.Http? && outcome.code == 200 && outcome.parsedResponse.Some? ==>
      var reply := outcome.parsedResponse.value;
      r == Speak(s.(lastResponse := reply), reply, ttsKey)
    ensures outcome == Http(200, None) ==> r == Reaction(EndSession(s, NoResponse), NoEffect)
    ensures !StartsSpeech(r.effect) ==> !r.state.isProcessing && r.state.lastResponse == s.lastResponse
    ensures r.state.isRecording == s.isRecording && r.state.lastTranscript == s.lastTranscript
  {
    match outcome
    case TransportError(msg) => Reaction(EndSession(s, ErrorPrefix + msg), NoEffect)
    case Http(code, parsed) =>
      if code != 200 then Reaction(EndSession(s, ApiErrorPrefix + Decimal.FromNat(code)), NoEffect)
      else if parsed.Some? then Speak(s.(lastResponse := parsed.value), parsed.value, ttsKey)
      else Reaction(EndSession(s, NoResponse), NoEffect)
  }

  /** The cloud TTS completion handler. */
  function TtsDone(s: Published, tts: TtsOutcome): (r: Reaction)
    ensures tts.TtsFailed? ==> r == Reaction(EndSession(s, TtsError), NoEffect)
    ensures tts == AudioReceived(true) ==> r == Reaction(s, PlaybackStarted)
    ensures tts == AudioReceived(false) ==> r == Reaction(EndSession(s, Ready), NoEffect)
  {
    match tts
    case TtsFailed => Reaction(EndSession(s, TtsError), NoEffect)
    case AudioReceived(ok) => if ok then Reaction(s, PlaybackStarted) else Reaction(EndSession(s, Ready), NoEffect)
  }

  /**
   * One event delivered to the controller configured with `ttsKey`. Releasing
   * the hotkey only arms the settle timer; the end of playback and the grace
   * timer both end the session with "Ready"; only the settle timer posts to
   * the backend, and only hotkey down and the settle timer move `isRecording`.
   */
  function Step(ttsKey: string, s: Published, e: Event): (r: Reaction)
    ensures e.StopRecordingAndProcess? ==> r == Reaction(s, StopScheduled)
    ensures e.PlaybackFinished? || e.GraceDelayElapsed? ==> r == Reaction(EndSession(s, Ready), NoEffect)
    ensures r.effect.BackendRequest? ==>
      e.SettleDelayElapsed? && r.effect.text == s.lastTranscript && r.effect.text != ""
    ensures r.state.isRecording != s.isRecording ==> e.StartRecording? || e.SettleDelayElapsed?
  {
    match e
    case StartRecording => Reaction(StartStep(s), NoEffect)
    case PartialResult(text) => Reaction(PartialStep(s, text), NoEffect)
    case StopRecordingAndProcess => Reaction(s, StopScheduled)
    case SettleDelayElapsed => FinishRecording(s)
    case BackendResult(outcome) => BackendDone(s, outcome, ttsKey)
    case TtsResult(tts) => TtsDone(s, tts)
    case PlaybackFinished => Reaction(EndSession(s, Ready), NoEffect)
    case GraceDelayElapsed => Reaction(EndSession(s, Ready), NoEffect)
  }

  datatype Trace = Trace(final: Published, effects: seq<Effect>)

  /** Events delivered one after another; the effects are listed in order, one per event. */
  function Run(ttsKey: string, s: Published, events: seq<Event>): (t: Trace)
    ensures |t.effects| == |events|
    decreases |events|
  {
    if events == [] then Trace(s, [])
    else
      var r := Step(ttsKey, s, events[0]);
      var rest := Run(ttsKey, r.state, events[1..]);
      Trace(rest.final, [r.effect] + rest.effects)
  }

  lemma RunCons(ttsKey: string, s: Published, e: Event, events: seq<Event>)
    ensures Run(ttsKey, s, [e] + events)
         == var r := Step(ttsKey, s, e);
            var rest := Run(ttsKey, r.state, events);
            Trace(rest.final, [r.effect] + rest.effects)
  {
    assert ([e] + events)[1..] == events;
  }

  function Partials(texts: seq<string>): (es: seq<Event>)
    ensures |es| == |texts|
    ensures forall i | 0 <= i < |texts| :: es[i] == PartialResult(texts[i])
  {
    seq(|texts|, i requires 0 <= i < |texts| => PartialResult(texts[i]))
  }

  /**
   * However many partial results arrive, the transcript is the last one
   * (no concatenation), nothing else changes and nothing is started.
   */
  lemma {:induction false} PartialsLastWriteWins(ttsKey: string, s: Published, texts: seq<string>)
    requires |texts| > 0
    decreases |texts|
    ensures Run(ttsKey, s, Partials(texts)).final == s.(lastTranscript := texts[|texts| - 1])
    ensures forall i | 0 <= i < |texts| :: Run(ttsKey, s, Partials(texts)).effects[i] == NoEffect
  {
    var es := Partials(texts);
    var s1 := s.(lastTranscript := texts[0]);
    assert es == [PartialResult(texts[0])] + Partials(texts[1..]);
    RunCons(ttsKey, s, PartialResult(texts[0]), Partials(texts[1..]));
    if |texts| > 1 {
      PartialsLastWriteWins(ttsKey, s1, texts[1..]);
      assert s1.(lastTranscript := texts[|texts| - 1]) == s.(lastTranscript := texts[|texts| - 1]);
    }
  }

  function Repeat(e: Event, n: nat): (es: seq<Event>)
    ensures |es| == n
  {
    if n == 0 then [] else [e] + Repeat(e, n - 1)
  }

  /** Pressing the hotkey again while listening changes nothing. */
  lemma {:induction false} RepeatedStartIsIdempotent(ttsKey: string, s: Published, n: nat)
    requires n > 0
    decreases n
    ensures Run(ttsKey, s, Repeat(StartRecording, n)).final == StartStep(s)
  {
    RunCons(ttsKey, s, StartRecording, Repeat(StartRecording, n - 1));
    if n > 1 {
      RepeatedStartIsIdempotent(ttsKey, StartStep(s), n - 1);
    }
  }

  /** No backend request is ever sent with an empty text. */
  predicate RequestsNonEmpty(effects: seq<Effect>) {
    forall i | 0 <= i < |effects| :: effects[i].BackendRequest? ==> effects[i].text != ""
  }

  lemma {:induction false} NoEmptyRequestEver(ttsKey: string, s: Published, events: seq<Event>)
    ensures RequestsNonEmpty(Run(ttsKey, s, events).effects)
    decreases |events|
  {
    if events != [] {
      NoEmptyRequestEver(ttsKey, Step(ttsKey, s, events[0]).state, events[1..]);
    }
  }

  /** The speaking path is chosen by the TTS key alone: cloud with a key, local without. */
  predicate SpeechFollowsKey(ttsKey: string, effects: seq<Effect>) {
    forall i | 0 <= i < |effects| ::
      (effects[i].CloudTtsRequest? ==> ttsKey != "") && (effects[i].LocalSpeech? ==> ttsKey == "")
  }

  lemma {:induction false} SpeechPathFollowsKey(ttsKey: string, s: Published, events: seq<Event>)
    ensures SpeechFollowsKey(ttsKey, Run(ttsKey, s, events).effects)
    decreases |events|
  {
    if events != [] {
      SpeechPathFollowsKey(ttsKey, Step(ttsKey, s, events[0]).state, events[1..]);
    }
  }

  /** Hotkey pressed and released with nothing heard: no request, "No speech detected". */
  lemma SilentUtterance(ttsKey: string, s: Published)
    requires !s.isRecording
    ensures var t := Run(ttsKey, s, [StartRecording, StopRecordingAndProcess, SettleDelayElapsed]);
      && t.final == s.(statusMessage := NoSpeech, lastTranscript := "")
      && t.effects == [NoEffect, StopScheduled, NoEffect]
  {
    var s1 := StartStep(s);
    RunCons(ttsKey, s, StartRecording, [StopRecordingAndProcess, SettleDelayElapsed]);
    RunCons(ttsKey, s1, StopRecordingAndProcess, [SettleDelayElapsed]);
    RunCons(ttsKey, s1, SettleDelayElapsed, []);
  }

  /** Delivering `a` and then `b` is delivering `a + b`. */
  lemma {:induction false} RunAppend(ttsKey: string, s: Published, a: seq<Event>, b: seq<Event>)
    ensures var first := Run(ttsKey, s, a);
            var second := Run(ttsKey, first.final, b);
            Run(ttsKey, s, a + b) == Trace(second.final, first.effects + second.effects)
    decreases |a|
  {
    if a == [] {
      assert a + b == b;
    } else {
      var r := Step(ttsKey, s, a[0]);
      RunAppend(ttsKey, r.state, a[1..], b);
      RunCons(ttsKey, s, a[0], a[1..] + b);
      assert a + b == [a[0]] + (a[1..] + b);
      assert a == [a[0]] + a[1..];
      RunCons(ttsKey, s, a[0], a[1..]);
    }
  }

  /** Hotkey down, one recognised phrase, hotkey up, settle delay. */
  function Utterance(heard: string): seq<Event> {
    [StartRecording, PartialResult(heard), StopRecordingAndProcess, SettleDelayElapsed]
  }

  /** An utterance that was heard ends with the transcript sent and the controller busy. */
  lemma HeardUtterance(ttsKey: string, s: Published, heard: string)
    requires !s.isRecording && heard != ""
    ensures Run(ttsKey, s, Utterance(heard))
         == Trace(Published(false, true, heard, s.lastResponse, TalkingToClawd),
                  [NoEffect, NoEffect, StopScheduled, BackendRequest(heard)])
  {
    var s1 := StartStep(s);
    var s2 := PartialStep(s1, heard);
    var sent := Published(false, true, heard, s.lastResponse, TalkingToClawd);
    assert Run(ttsKey, s2, [SettleDelayElapsed]) == Trace(sent, [BackendRequest(heard)]) by {
      RunCons(ttsKey, s2, SettleDelayElapsed, []);
    }
    assert Run(ttsKey, s2, [StopRecordingAndProcess, SettleDelayElapsed])
        == Trace(sent, [StopScheduled, BackendRequest(heard)]) by {
      RunCons(ttsKey, s2, StopRecordingAndProcess, [SettleDelayElapsed]);
    }
    assert Run(ttsKey, s1, [PartialResult(heard), StopRecordingAndProcess, SettleDelayElapsed])
        == Trace(sent, [NoEffect, StopScheduled, BackendRequest(heard)]) by {
      RunCons(ttsKey, s1, PartialResult(heard), [StopRecordingAndProcess, SettleDelayElapsed]);
    }
    RunCons(ttsKey, s, StartRecording, [PartialResult(heard), StopRecordingAndProcess, SettleDelayElapsed]);
  }

  /**
   * A second utterance heard while the first is still waiting for its reply
   * is posted too, and `isProcessing` is set to true a second time without
   * having been cleared in between.
   */
  lemma SecondUtteranceWhileWaiting(ttsKey: string, s: Published, first: string, second: string)
    requires !s.isRecording && first != "" && second != ""
    ensures Run(ttsKey, s, Utterance(first)).final.isProcessing
    ensures Run(ttsKey, s, Utterance(first) + Utterance(second))
         == Trace(Published(false, true, second, s.lastResponse, TalkingToClawd),
                  [NoEffect, NoEffect, StopScheduled, BackendRequest(first),
                   NoEffect, NoEffect, StopScheduled, BackendRequest(second)])
  {
    var sent := Published(false, true, first, s.lastResponse, TalkingToClawd);
    HeardUtterance(ttsKey, s, first);
    HeardUtterance(ttsKey, sent, second);
    RunAppend(ttsKey, s, Utterance(first), Utterance(second));
  }

  /**
   * A full session without a TTS key: the transcript is sent, the reply is
   * spoken on the device, and after the grace delay the controller is idle.
   */
  lemma LocalSession(s: Published, heard: string, reply: string)
    requires !s.isRecording && heard != ""
    ensures var t := Run("", s, Utterance(heard) + [BackendResult(Http(200, Some(reply))), GraceDelayElapsed]);
      && t.final == Published(false, false, heard, reply, Ready)
      && t.effects == [NoEffect, NoEffect, StopScheduled, BackendRequest(heard), LocalSpeech(reply), NoEffect]
  {
    var sent := Published(false, true, heard, s.lastResponse, TalkingToClawd);
    var speaking := Published(false, true, heard, reply, Speaking);
    HeardUtterance("", s, heard);
    assert Run("", speaking, [GraceDelayElapsed]) == Trace(Published(false, false, heard, reply, Ready), [NoEffect]) by {
      RunCons("", speaking, GraceDelayElapsed, []);
    }
    RunCons("", sent, BackendResult(Http(200, Some(reply))), [GraceDelayElapsed]);
    RunAppend("", s, Utterance(heard), [BackendResult(Http(200, Some(reply))), GraceDelayElapsed]);
  }

  /**
   * A full session with a TTS key: the reply is requested from the cloud,
   * played, and the controller is idle once playback finishes.
   */
  lemma CloudSession(ttsKey: string, s: Published, heard: string, reply: string)
    requires ttsKey != "" && !s.isRecording && heard != ""
    ensures var t := Run(ttsKey, s, Utterance(heard) + [BackendResult(Http(200, Some(reply))),
                                                        TtsResult(AudioReceived(true)), PlaybackFinished]);
      && t.final == Published(false, false, heard, reply, Ready)
      && t.effects == [NoEffect, NoEffect, StopScheduled, BackendRequest(heard), CloudTtsRequest(reply), PlaybackStarted, NoEffect]
  {
    var sent := Published(false, true, heard, s.lastResponse, TalkingToClawd);
    var speaking := Published(false, true, heard, reply, Speaking);
    var done := Published(false, false, heard, reply, Ready);
    var b, a, f := BackendResult(Http(200, Some(reply))), TtsResult(AudioReceived(true)), PlaybackFinished;
    HeardUtterance(ttsKey, s, heard);
    assert Run(ttsKey, speaking, [f]) == Trace(done, [NoEffect]) by {
      RunCons(ttsKey, speaking, f, []);
    }
    assert Run(ttsKey, speaking, [a, f]) == Trace(done, [PlaybackStarted, NoEffect]) by {
      RunCons(ttsKey, speaking, a, [f]);
    }
    RunCons(ttsKey, sent, b, [a, f]);
    RunAppend(ttsKey, s, Utterance(heard), [b, a, f]);
  }

  /** An HTTP 500 from the backend ends the session with a status that names the code. */
  lemma ServerErrorIsReported(ttsKey: string, s: Published)
    ensures BackendDone(s, Http(500, None), ttsKey).state.statusMessage == "API Error: 500"
    ensures !BackendDone(s, Http(500, None), ttsKey).state.isProcessing
  {
    assert Decimal.FromNat(5) == "5";
    assert Decimal.FromNat(50) == "50";
  }
}
