/**
 * The `VoiceManager` class of Sources/VoiceManager.swift: the published
 * fields, the recognition/playback handles and the configuration, updated in
 * place by one method per call or platform callback.
 *
 * Platform services appear only through what they deliver: the outcome values
 * of `Session` are the arguments of the callback methods, and the counters
 * `pendingStops`, `backendInFlight`, `ttsInFlight` and `pendingGrace` record
 * the callbacks the platform still owes, so that a callback is only delivered
 * after it was scheduled. The logs `backendRequests`, `ttsRequests` and
 * `localUtterances` record, in order, what the controller sent out.
 */
module Voice {
  import opened Wrappers
  import opened Session
  import Decimal

  /** The `AVAudioEngine?` handle: absent, capturing through its input tap, or stopped. */
  datatype EngineState = NoEngine | Capturing | Stopped

  /** The `SFSpeechAudioBufferRecognitionRequest?` handle. */
  datatype RequestState = NoRequest | Streaming | Ended

  /** The `SFSpeechRecognitionTask?` handle. */
  datatype TaskState = NoTask | Running | Cancelled

  /** The `AVAudioPlayer?` handle. */
  datatype PlayerState = NoPlayer | Playing | Finished

  /** `recognitionTask?.cancel()`: cancels a task if there is one. */
  function CancelTask(t: TaskState): (r: TaskState)
    ensures r == NoTask <==> t == NoTask
    ensures t != NoTask ==> r == Cancelled
  {
    if t == NoTask then NoTask else Cancelled
  }

  /** No empty transcript is ever sent to the backend. */
  predicate NoEmptyText(texts: seq<string>) {
    forall i | 0 <= i < |texts| :: texts[i] != ""
  }

  /**
   * The TTS key alone chooses the speaking path, and only what was sent can
   * complete.
   */
  predicate SpeechPathInvariant(ttsKey: string, ttsRequests: seq<string>, ttsInFlight: nat, player: PlayerState,
                                localUtterances: seq<string>, pendingGrace: nat)
  {
    && (|ttsKey| == 0 ==> |ttsRequests| == 0 && player == NoPlayer)
    && (|ttsKey| != 0 ==> |localUtterances| == 0)
    && ttsInFlight <= |ttsRequests|
    && pendingGrace <= |localUtterances|
  }

  /** The capture stream is open exactly while recording. */
  predicate CaptureInvariant(isRecording: bool, engine: EngineState, request: RequestState, task: TaskState,
                             recognizerAvailable: bool)
  {
    && (isRecording <==> engine == Capturing)
    && (isRecording <==> request == Streaming)
    && (isRecording && recognizerAvailable ==> task == Running)
    && (!recognizerAvailable ==> task == NoTask)
  }

  class VoiceManager {
    // Published state.
    var isRecording: bool
    var isProcessing: bool
    var lastTranscript: string
    var lastResponse: string
    var statusMessage: string

    // Session handles.
    var audioEngine: EngineState
    var recognitionRequest: RequestState
    var recognitionTask: TaskState
    var audioPlayer: PlayerState
    /** Whether `SFSpeechRecognizer(locale:)` produced a recognizer for en-US. */
    const recognizerAvailable: bool

    // Configuration.
    var openclawURL: string
    var openclawToken: string
    var elevenLabsAPIKey: string

    // Callbacks the platform still owes.
    var pendingStops: nat
    var backendInFlight: nat
    var ttsInFlight: nat
    var pendingGrace: nat

    // What was sent out, in order.
    var backendRequests: seq<string>
    var ttsRequests: seq<string>
    var localUtterances: seq<string>

    function Snapshot(): Published
      reads this
    {
      Published(isRecording, isProcessing, lastTranscript, lastResponse, statusMessage)
    }

    function Config(): Settings
      reads this
    {
      Settings(openclawURL, openclawToken, elevenLabsAPIKey)
    }

    ghost predicate Valid()
      reads this
    {
      && NoEmptyText(backendRequests)
      && SpeechPathInvariant(elevenLabsAPIKey, ttsRequests, ttsInFlight, audioPlayer, localUtterances, pendingGrace)
      && backendInFlight <= |backendRequests|
      && CaptureInvariant(isRecording, audioEngine, recognitionRequest, recognitionTask, recognizerAvailable)
    }

    /** `init`: the fields' initial values, then `loadConfig`. */
    constructor (stored: Option<AppConfig>, recognizerAvailable: bool)
      ensures Valid()
      ensures Snapshot() == Initial
      ensures Config() == ResolveConfig(stored)
      ensures this.recognizerAvailable == recognizerAvailable
      ensures audioEngine == NoEngine && recognitionRequest == NoRequest
      ensures recognitionTask == NoTask && audioPlayer == NoPlayer
      ensures pendingStops == 0 && backendInFlight == 0 && ttsInFlight == 0 && pendingGrace == 0
      ensures backendRequests == [] && ttsRequests == [] && localUtterances == []
    {
      isRecording, isProcessing := false, false;
      lastTranscript, lastResponse, statusMessage := "", "", Ready;
      audioEngine, recognitionRequest, recognitionTask, audioPlayer := NoEngine, NoRequest, NoTask, NoPlayer;
      this.recognizerAvailable := recognizerAvailable;
      openclawURL, openclawToken, elevenLabsAPIKey := DefaultOpenclawURL, "", "";
      pendingStops, backendInFlight, ttsInFlight, pendingGrace := 0, 0, 0, 0;
      backendRequests, ttsRequests, localUtterances := [], [], [];
      new;
      LoadConfig(stored);
    }

    /**
     * Takes over a decoded configuration file; without one the current
     * values stay. Runs before anything has been spoken.
     */
    method LoadConfig(stored: Option<AppConfig>)
      requires Valid()
      requires ttsRequests == [] && localUtterances == [] && audioPlayer == NoPlayer
      modifies this`openclawURL, this`openclawToken, this`elevenLabsAPIKey
      ensures Valid()
      ensures Config() == if stored.None? then old(Config()) else ResolveConfig(stored)
    {
      if stored.Some? {
        var config := stored.value;
        elevenLabsAPIKey := config.elevenLabsAPIKey;
        openclawURL := config.openclawURL.GetOr(FallbackOpenclawURL);
        openclawToken := config.openclawToken.GetOr("");
      }
    }

    /** Hotkey down. */
    method StartRecording()
      requires Valid()
      modifies this`isRecording, this`statusMessage, this`lastTranscript
      modifies this`audioEngine, this`recognitionRequest, this`recognitionTask
      ensures Valid()
      ensures Snapshot() == StartStep(old(Snapshot()))
      ensures old(isRecording) ==> unchanged(this)
      ensures !old(isRecording) ==>
        && audioEngine == Capturing && recognitionRequest == Streaming
        && recognitionTask == (if recognizerAvailable then Running else NoTask)
    {
      if isRecording {
        return;
      }
      isRecording := true;
      statusMessage := Listening;
      lastTranscript := "";
      StartLiveRecognition();
    }

    /**
     * Drops the previous recognition task and opens a new request, a new
     * engine with its input tap, and a new task when a recognizer exists.
     */
    method StartLiveRecognition()
      modifies this`audioEngine, this`recognitionRequest, this`recognitionTask
      ensures audioEngine == Capturing && recognitionRequest == Streaming
      ensures recognitionTask == (if recognizerAvailable then Running else NoTask)
    {
      recognitionTask := NoTask;
      recognitionRequest := Streaming;
      audioEngine := Capturing;
      if recognizerAvailable {
        recognitionTask := Running;
      }
    }

    /**
     * The recognition task's result handler. It does not look at the
     * session: a result that arrives after the task was cancelled still
     * overwrites the transcript.
     */
    method OnPartialTranscript(text: string)
      requires Valid() && recognitionTask != NoTask
      modifies this`lastTranscript
      ensures Valid()
      ensures Snapshot() == PartialStep(old(Snapshot()), text)
    {
      lastTranscript := text;
    }

    /** Hotkey up: only arms the settle timer; the stop itself comes later. */
    method StopRecordingAndProcess()
      modifies this`pendingStops
      ensures pendingStops == old(pendingStops) + 1
      ensures Snapshot() == old(Snapshot())
    {
      pendingStops := pendingStops + 1;
    }

    /**
     * The settle timer fires. Returns the text of the backend request it
     * issues, if any.
     */
    method DoStopRecordingAndProcess() returns (request: Option<string>)
      requires Valid() && pendingStops > 0
      modifies this`pendingStops, this`isRecording, this`isProcessing, this`statusMessage
      modifies this`audioEngine, this`recognitionRequest, this`recognitionTask
      modifies this`backendRequests, this`backendInFlight
      ensures Valid()
      ensures pendingStops == old(pendingStops) - 1
      ensures Snapshot() == FinishRecording(old(Snapshot())).state
      ensures request == if old(isRecording) && old(lastTranscript) != "" then Some(old(lastTranscript)) else None
      ensures request.None? ==> backendRequests == old(backendRequests) && backendInFlight == old(backendInFlight)
      ensures request.Some? ==>
        backendRequests == old(backendRequests) + [request.value] && backendInFlight == old(backendInFlight) + 1
      ensures (audioEngine, recognitionRequest, recognitionTask)
           == if old(isRecording) then (Stopped, Ended, CancelTask(old(recognitionTask)))
              else old((audioEngine, recognitionRequest, recognitionTask))
    {
      if isRecording {
        CloseRecording();
        request := SubmitTranscript();
      } else {
        request := None;
      }
      pendingStops := pendingStops - 1;
    }

    /**
     * Leaves the recording state: stops the engine, removes its tap, ends the
     * audio request and cancels the recognition task.
     */
    method CloseRecording()
      requires Valid() && isRecording
      modifies this`isRecording, this`statusMessage, this`audioEngine, this`recognitionRequest, this`recognitionTask
      ensures Valid()
      ensures !isRecording && statusMessage == Processing
      ensures audioEngine == Stopped && recognitionRequest == Ended
      ensures recognitionTask == CancelTask(old(recognitionTask))
    {
      isRecording := false;
      statusMessage := Processing;
      audioEngine := Stopped;
      recognitionRequest := Ended;
      recognitionTask := CancelTask(recognitionTask);
    }

    /**
     * Freezes the transcript: reports that nothing was heard, or marks the
     * controller busy and sends the transcript to the backend.
     */
    method SubmitTranscript() returns (request: Option<string>)
      requires Valid() && !isRecording
      modifies this`isProcessing, this`statusMessage, this`backendRequests, this`backendInFlight
      ensures Valid()
      ensures request == if lastTranscript == "" then None else Some(lastTranscript)
      ensures request.None? ==>
        && statusMessage == NoSpeech && isProcessing == old(isProcessing)
        && backendRequests == old(backendRequests) && backendInFlight == old(backendInFlight)
      ensures request.Some? ==>
        && statusMessage == TalkingToClawd && isProcessing
        && backendRequests == old(backendRequests) + [request.value] && backendInFlight == old(backendInFlight) + 1
    {
      var transcript := lastTranscript;
      if transcript == "" {
        statusMessage := NoSpeech;
        return None;
      }
      isProcessing := true;
      SendToOpenClaw(transcript);
      request := Some(transcript);
    }

    /** Reports `status` and clears `isProcessing`: the session is over. */
    method EndWith(status: string)
      requires Valid()
      modifies this`statusMessage, this`isProcessing
      ensures Valid()
      ensures Snapshot() == EndSession(old(Snapshot()), status)
    {
      statusMessage := status;
      isProcessing := false;
    }

    /** Posts `text` to the voice bridge. */
    method SendToOpenClaw(text: string)
      modifies this`statusMessage, this`backendRequests, this`backendInFlight
      ensures NoEmptyText(old(backendRequests)) && text != "" ==> NoEmptyText(backendRequests)
      ensures statusMessage == TalkingToClawd
      ensures backendRequests == old(backendRequests) + [text]
      ensures backendInFlight == old(backendInFlight) + 1
    {
      statusMessage := TalkingToClawd;
      backendRequests := backendRequests + [text];
      backendInFlight := backendInFlight + 1;
    }

    /** The backend exchange completes. Returns the speaking path taken, if any. */
    method OnBackendResult(outcome: BackendOutcome) returns (path: Option<SpeakPath>)
      requires Valid() && backendInFlight > 0
      modifies this`backendInFlight, this`statusMessage, this`isProcessing, this`lastResponse
      modifies this`ttsRequests, this`ttsInFlight, this`localUtterances, this`pendingGrace
      ensures Valid()
      ensures backendInFlight == old(backendInFlight) - 1
      ensures var r := BackendDone(old(Snapshot()), outcome, elevenLabsAPIKey);
        && Snapshot() == r.state
        && (path.Some? <==> StartsSpeech(r.effect))
        && (path.Some? ==> path.value == PathOf(r.effect))
      ensures ttsRequests == old(ttsRequests) + (if path == Some(CloudPath) then [lastResponse] else [])
      ensures ttsInFlight == old(ttsInFlight) + (if path == Some(CloudPath) then 1 else 0)
      ensures localUtterances == old(localUtterances) + (if path == Some(LocalPath) then [lastResponse] else [])
      ensures pendingGrace == old(pendingGrace) + (if path == Some(LocalPath) then 1 else 0)
    {
      backendInFlight := backendInFlight - 1;
      path := None;
      match outcome {
        case TransportError(msg) =>
          EndWith(ErrorPrefix + msg);
        case Http(code, parsed) =>
          if code != 200 {
            EndWith(ApiErrorPrefix + Decimal.FromNat(code));
          } else if parsed.Some? {
            var p := AcceptReply(parsed.value);
            path := Some(p);
          } else {
            EndWith(NoResponse);
          }
      }
    }

    /** Stores the backend's reply and speaks it. */
    method AcceptReply(reply: string) returns (path: SpeakPath)
      requires Valid()
      modifies this`lastResponse, this`statusMessage, this`ttsRequests, this`ttsInFlight, this`localUtterances, this`pendingGrace
      ensures Valid()
      ensures var r := Speak(old(Snapshot()).(lastResponse := reply), reply, elevenLabsAPIKey);
        Snapshot() == r.state && path == PathOf(r.effect)
      ensures path == LocalPath ==>
        && localUtterances == old(localUtterances) + [reply] && pendingGrace == old(pendingGrace) + 1
        && ttsRequests == old(ttsRequests) && ttsInFlight == old(ttsInFlight)
      ensures path == CloudPath ==>
        && ttsRequests == old(ttsRequests) + [reply] && ttsInFlight == old(ttsInFlight) + 1
        && localUtterances == old(localUtterances) && pendingGrace == old(pendingGrace)
    {
      lastResponse := reply;
      path := SpeakResponse(reply);
    }

    /**
     * Speaks `text`: asks the cloud for audio when a TTS key is set,
     * otherwise hands it to the on-device synthesizer and arms the grace timer.
     */
    method SpeakResponse(text: string) returns (path: SpeakPath)
      requires Valid()
      modifies this`statusMessage, this`ttsRequests, this`ttsInFlight, this`localUtterances, this`pendingGrace
      ensures Valid()
      ensures Snapshot() == Speak(old(Snapshot()), text, elevenLabsAPIKey).state
      ensures path == PathOf(Speak(old(Snapshot()), text, elevenLabsAPIKey).effect)
      ensures path == CloudPath <==> elevenLabsAPIKey != ""
      ensures path == LocalPath ==>
        && localUtterances == old(localUtterances) + [text] && pendingGrace == old(pendingGrace) + 1
        && ttsRequests == old(ttsRequests) && ttsInFlight == old(ttsInFlight)
      ensures path == CloudPath ==>
        && ttsRequests == old(ttsRequests) + [text] && ttsInFlight == old(ttsInFlight) + 1
        && localUtterances == old(localUtterances) && pendingGrace == old(pendingGrace)
    {
      statusMessage := Speaking;
      if elevenLabsAPIKey == "" {
        localUtterances := localUtterances + [text];
        pendingGrace := pendingGrace + 1;
        path := LocalPath;
        return;
      }
      ttsRequests := ttsRequests + [text];
      ttsInFlight := ttsInFlight + 1;
      path := CloudPath;
    }

    /**
     * The cloud TTS exchange completes: either no audio arrived, or audio
     * arrived and a player was or was not built from it.
     */
    method OnTtsResult(tts: TtsOutcome)
      requires Valid() && ttsInFlight > 0
      modifies this`ttsInFlight, this`statusMessage, this`isProcessing, this`audioPlayer
      ensures Valid()
      ensures ttsInFlight == old(ttsInFlight) - 1
      ensures Snapshot() == TtsDone(old(Snapshot()), tts).state
      ensures audioPlayer == if tts == AudioReceived(true) then Playing else old(audioPlayer)
    {
      match tts {
        case TtsFailed =>
          EndWith(TtsError);
        case AudioReceived(playerCreated) =>
          if playerCreated {
            audioPlayer := Playing;
          } else {
            EndWith(Ready);
          }
      }
      ttsInFlight := ttsInFlight - 1;
    }

    /** `audioPlayerDidFinishPlaying`, whether or not playback succeeded. */
    method OnPlaybackFinished()
      requires Valid() && audioPlayer == Playing
      modifies this`audioPlayer, this`statusMessage, this`isProcessing
      ensures Valid()
      ensures audioPlayer == Finished
      ensures Snapshot() == EndSession(old(Snapshot()), Ready)
    {
      EndWith(Ready);
      audioPlayer := Finished;
    }

    /** The grace timer armed by on-device speech fires. */
    method OnGraceDelayElapsed()
      requires Valid() && pendingGrace > 0
      modifies this`pendingGrace, this`statusMessage, this`isProcessing
      ensures Valid()
      ensures pendingGrace == old(pendingGrace) - 1
      ensures Snapshot() == EndSession(old(Snapshot()), Ready)
    {
      EndWith(Ready);
      pendingGrace := pendingGrace - 1;
    }
  }
}
