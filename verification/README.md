# ClawdVoice: push-to-talk controller, status-bar icon and menu view

ClawdVoice is a macOS menu-bar app. The user holds a global hotkey
(Option+Space by default) and speaks. Partial transcripts stream in while the
key is down. When the key is released the app waits two seconds for trailing
words. It then posts the final transcript to a local voice bridge
(`http://localhost:8770/voice`) and speaks the reply. The reply goes to
ElevenLabs text-to-speech when an API key is configured, and to the system
synthesizer otherwise. The status-bar icon shows a recording glyph while the
key is down and an animation while a reply is being fetched or spoken. The
popover shows a coloured status dot, the status text, the last transcript and
the last reply.

The project has these modules:

- `Session` (session.dfy) holds the five published fields of `VoiceManager`
  as one value, `Published`. It gives one pure step function per event the
  controller receives: hotkey down, partial result, hotkey up, settle delay
  elapsed, backend completion, TTS completion, playback finished, and grace
  delay elapsed. `Run` delivers a sequence of events, and the trace lemmas
  are stated over it. `ResolveConfig` is the configuration loaded at start-up.
- `Voice` (voice_manager.dfy) is the `VoiceManager` class.
  - Its fields are the published ones, the four platform handles as small
    state types, the configuration, and logs of what was sent out.
  - Counters hold the callbacks the platform still owes. A callback method
    can only be called after its callback was scheduled.
  - Each method states its new published state as the matching `Session`
    step function of the old one.
  - `Valid()` holds three invariants: no empty transcript is ever posted, the
    TTS key alone decides between cloud and local speech, and the capture
    stream is open exactly while recording.
- `StatusBar` (status_bar.dfy) is the `AppDelegate` class: the icon, the
  animation frame and timers, the reaction to `isProcessing`, and the hotkey
  handlers.
  - `startAnimating` schedules a new repeating timer without invalidating the
    one the field already holds. `runningTimers` counts the timers still
    ticking.
  - `OverlappingSessionsLeakTimer` shows the consequence. When `isProcessing`
    is published true twice before false, one timer keeps ticking after the
    animation was stopped, and it overwrites the idle icon.
- `MenuBar` (menu_bar.dfy) holds the colour and visibility rules of
  `MenuBarView` as functions of `Published`.
- `Decimal` (decimal.dfy) renders the HTTP status code as text for
  "API Error: <code>". It is proved injective and inverted by `ToNat`.
- `Wrappers` (wrappers.dfy) holds `Option`.

Behaviour of the code worth noting:

- A recognition result that arrives after the task was cancelled still
  overwrites the transcript. The result handler has no session check.
- A reply whose "response" field is an empty string is stored and spoken.
  Only a missing or non-string field gives "No response".
- Any status other than exactly 200 is an API error, including other 2xx
  codes.
- Without a configuration file the backend URL is `http://127.0.0.1:18789`.
  A file without a URL gives `http://localhost:18789`.
- "No speech detected" leaves `isProcessing` as it was.

## Model

| member | source | states |
|---|---|---|
| Session.ResolveConfig | Sources/VoiceManager.swift:32-38 | with no readable file the defaults stay (127.0.0.1 URL, empty token and key); with a file its key is taken, its URL or `http://localhost:18789`, its token or the empty string |
| Session.UnsetUrlDependsOnFilePresence | Sources/VoiceManager.swift:21-35 | a file without a URL gives a different URL than no file at all |
| Session.StartStep | Sources/VoiceManager.swift:59-67 | a no-op while recording; otherwise recording starts with "Listening..." and an empty transcript, and processing state and the last reply are kept |
| Session.PartialStep | Sources/VoiceManager.swift:87-93 | a result replaces the transcript and changes nothing else |
| Session.EndSession | Sources/VoiceManager.swift:147-150 | ending a session clears `isProcessing`, sets the status and keeps every other field |
| Session.FinishRecording | Sources/VoiceManager.swift:110-129 | a no-op unless recording; recording ends; an empty transcript gives "No speech detected" and no request; otherwise the controller is busy, "Talking to Clawd..." is shown and exactly the transcript is posted |
| Session.Speak | Sources/VoiceManager.swift:174-189 | status "Speaking..."; cloud TTS request exactly when the key is non-empty, local speech otherwise |
| Session.BackendDone | Sources/VoiceManager.swift:145-171 | transport error, non-200, parsed reply and unparsable body in that order, with their status texts; every outcome that does not start speech clears `isProcessing` and keeps the last reply |
| Session.Step | Sources/VoiceManager.swift:103-108 | releasing the hotkey only arms the settle timer and changes no field; the end of playback (228-235) and the grace timer (181-184) both end the session with "Ready"; only the settle timer posts to the backend, with the non-empty transcript; only hotkey down and the settle timer change `isRecording` |
| Session.TtsDone | Sources/VoiceManager.swift:202-224 | no data gives "TTS Error"; a player that cannot be built gives "Ready"; both clear `isProcessing`; a built player starts playback and leaves the state as it is |
| Session.PartialsLastWriteWins | Sources/VoiceManager.swift:87-93 | after any non-empty run of partial results the transcript is the last one, nothing else changed and nothing was started |
| Session.RepeatedStartIsIdempotent | Sources/VoiceManager.swift:59-60 | pressing the hotkey any number of times acts like pressing it once |
| Session.NoEmptyRequestEver | Sources/VoiceManager.swift:121-128 | over every event sequence, no backend request carries an empty text |
| Session.SpeechPathFollowsKey | Sources/VoiceManager.swift:177-189 | over every event sequence, cloud TTS is requested only with a key and local speech only without one |
| Session.SilentUtterance | Sources/VoiceManager.swift:103-125 | press, release and settle with nothing heard ends in "No speech detected" with an empty transcript and no request |
| Session.HeardUtterance | Sources/VoiceManager.swift:59-132 | press, one result, release and settle ends busy, "Talking to Clawd...", with exactly the heard text posted |
| Session.SecondUtteranceWhileWaiting | Sources/VoiceManager.swift:110-132 | a second utterance while the first reply is pending is posted as well, and `isProcessing` is set true again without being cleared in between |
| Session.LocalSession | Sources/VoiceManager.swift:131-185 | a whole session without a key ends idle with "Ready", the transcript and the reply, after posting the transcript and speaking the reply locally |
| Session.CloudSession | Sources/VoiceManager.swift:174-235 | a whole session with a key ends idle with "Ready" after a cloud TTS request for the reply and playback |
| Session.ServerErrorIsReported | Sources/VoiceManager.swift:153-157 | HTTP 500 gives the status "API Error: 500" and clears `isProcessing` |
| Decimal.FromNat | Sources/VoiceManager.swift:154 | the code is written as decimal digits with no leading zero |
| Decimal.RoundTrip | Sources/VoiceManager.swift:154 | the code can be read back from its text |
| Decimal.Injective | Sources/VoiceManager.swift:154 | distinct codes give distinct error texts |
| Voice.CancelTask | Sources/VoiceManager.swift:119 | a task is cancelled exactly when there is one |
| Voice.VoiceManager.constructor | Sources/VoiceManager.swift:26-30 | initial published state "Ready" with nothing in progress, no handles, nothing sent, and the configuration resolved from the file |
| Voice.VoiceManager.LoadConfig | Sources/VoiceManager.swift:32-38 | a decoded file replaces the configuration as `ResolveConfig` says; without one it stays |
| Voice.VoiceManager.StartRecording | Sources/VoiceManager.swift:59-67 | published state follows `StartStep`; while recording nothing at all changes; otherwise engine, request and (when a recognizer exists) task are live |
| Voice.VoiceManager.StartLiveRecognition | Sources/VoiceManager.swift:69-101 | the old task is dropped; a streaming request, a capturing engine and a running task when a recognizer exists |
| Voice.VoiceManager.OnPartialTranscript | Sources/VoiceManager.swift:87-93 | published state follows `PartialStep`, even after the task was cancelled |
| Voice.VoiceManager.StopRecordingAndProcess | Sources/VoiceManager.swift:103-108 | only one more delayed stop is pending; published state unchanged |
| Voice.VoiceManager.DoStopRecordingAndProcess | Sources/VoiceManager.swift:110-129 | published state follows `FinishRecording`; the request returned and logged is the transcript exactly when recording with a non-empty transcript; the handles are stopped, ended and cancelled only when recording |
| Voice.VoiceManager.CloseRecording | Sources/VoiceManager.swift:113-119 | recording off, "Processing...", engine stopped, request ended, task cancelled |
| Voice.VoiceManager.SubmitTranscript | Sources/VoiceManager.swift:121-128 | an empty transcript gives "No speech detected" and no request; otherwise busy and the transcript posted |
| Voice.VoiceManager.EndWith | Sources/VoiceManager.swift:147-150 | the shared ending of a session: the published state becomes `EndSession` of the old one, so only the status and `isProcessing` change |
| Voice.VoiceManager.SendToOpenClaw | Sources/VoiceManager.swift:131-145 | "Talking to Clawd...", the text appended to the request log, one more exchange in flight |
| Voice.VoiceManager.OnBackendResult | Sources/VoiceManager.swift:145-171 | published state follows `BackendDone`; a speaking path is returned exactly when the reply is spoken, and the reply is logged on that path only |
| Voice.VoiceManager.AcceptReply | Sources/VoiceManager.swift:159-163 | the reply is stored and then spoken as `Speak` says |
| Voice.VoiceManager.SpeakResponse | Sources/VoiceManager.swift:174-202 | published state follows `Speak`; cloud path exactly when the key is non-empty; the text logged on the chosen path only |
| Voice.VoiceManager.OnTtsResult | Sources/VoiceManager.swift:202-224 | published state follows `TtsDone`; a player exists exactly when audio arrived and a player was built |
| Voice.VoiceManager.OnPlaybackFinished | Sources/VoiceManager.swift:228-235 | "Ready" and `isProcessing` cleared, whatever the playback outcome |
| Voice.VoiceManager.OnGraceDelayElapsed | Sources/VoiceManager.swift:181-184 | "Ready" and `isProcessing` cleared two seconds after local speech started |
| StatusBar.IconFor | Sources/ClawdVoiceApp.swift:99-106 | the filled waveform exactly when recording, the plain one exactly when not |
| StatusBar.NextFrame | Sources/ClawdVoiceApp.swift:84 | the next frame stays within the four icons and wraps from the last to the first |
| StatusBar.FramesCycle | Sources/ClawdVoiceApp.swift:80-89 | after n ticks the frame is n modulo the number of icons |
| StatusBar.ShortcutAfterLaunch | Sources/ClawdVoiceApp.swift:72-75 | a saved shortcut is kept; with none, Option+Space is bound |
| StatusBar.AppDelegate.Launch | Sources/ClawdVoiceApp.swift:31-78 | idle icon, no animation timer, shortcut as `ShortcutAfterLaunch` says; a fresh controller in its initial state: "Ready" with nothing in progress, configuration resolved from the file, no handles, no pending callbacks and empty logs |
| StatusBar.AppDelegate.StartAnimating | Sources/ClawdVoiceApp.swift:80-89 | frame reset to the first icon and one more timer running, the previous one not invalidated |
| StatusBar.AppDelegate.OnTimerTick | Sources/ClawdVoiceApp.swift:82-88 | the frame advances by `NextFrame` and its icon is shown |
| StatusBar.AppDelegate.StopAnimating | Sources/ClawdVoiceApp.swift:91-97 | only the timer the field holds is invalidated; idle icon |
| StatusBar.AppDelegate.OnProcessingChanged | Sources/ClawdVoiceApp.swift:44-52 | true starts and false stops the animation, with the effects above |
| StatusBar.AppDelegate.UpdateIcon | Sources/ClawdVoiceApp.swift:99-106 | the icon becomes `IconFor(recording)` |
| StatusBar.AppDelegate.OnKeyDown | Sources/ClawdVoiceApp.swift:62-65 | the controller follows `StartStep`: nothing in it changes while already recording, otherwise engine, request and task are opened and no other field moves; the recording icon is shown |
| StatusBar.AppDelegate.OnKeyUp | Sources/ClawdVoiceApp.swift:67-70 | only one more delayed stop is pending in the controller, every other field of it unchanged; the idle icon is shown |
| StatusBar.OverlappingSessionsLeakTimer | Sources/ClawdVoiceApp.swift:80-97 | two starts and one stop leave one timer ticking; the idle icon is shown after the stop and the next tick replaces it with a processing icon |
| MenuBar.StatusColor | Sources/MenuBarView.swift:83-91 | red exactly when recording, orange exactly when processing but not recording, green exactly when neither |
| MenuBar.HeaderColor | Sources/MenuBarView.swift:12 | red exactly when recording, blue otherwise |
| MenuBar.ShowsTranscript | Sources/MenuBarView.swift:32 | the transcript block is shown exactly when the transcript is non-empty |
| MenuBar.ShowsResponse | Sources/MenuBarView.swift:44 | the reply block is shown exactly when the last reply is non-empty |
| MenuBar.SessionColours | Sources/MenuBarView.swift:83-91 | over a local session the dot is red while listening, orange while waiting and green at the end; the reply block then shows exactly when the reply is non-empty |
| MenuBar.RecordingWhileProcessing | Sources/MenuBarView.swift:84-87 | pressing the hotkey while a reply is pending gives a state both recording and processing, shown red |

## Left out

- Audio capture, speech recognition, speech synthesis, audio playback and the permission requests are platform services. They appear only as the outcomes delivered to the callback methods. `requestPermissions` only logs, and it is not modelled.
- Timing and threading are left out. The two-second settle and grace delays and the 0.3-second animation interval are events; the 60-second request timeout shows up only as a transport error. The main-queue dispatch in `updateIcon` is treated as immediate.
- HTTP and JSON encoding are left out. The backend result is a transport error or a status code with the parsed "response" string. The ElevenLabs payload, with its floating-point voice settings, is reduced to the text being spoken.
- Writing the audio to the fixed temporary file `clawd_response.mp3` is not modelled. A failed write leaves whatever that file held: no file gives a player that could not be built, and the audio of an earlier reply is played again as if it were this one. The model records only whether a player was built.
- A player whose `play()` returns false is not modelled, so playback is assumed to start once the player is built.
- A failure of the audio engine to start is only logged, and it is not modelled. The engine is taken to capture.
- `AppConfig.load` and `AppConfig.save` are file I/O. The model receives the decoded configuration, or none. The settings window in Sources/SettingsView.swift is not part of this model.
- `openclawURL` and `openclawToken` are loaded and stored but never used, because the bridge URL is fixed.
- The popover, its toggle, the NSStatusItem set-up and the KeyboardShortcuts library are left out. Only the shortcut value and the hotkey handlers are modelled.
- Voice.VoiceManager.LoadConfig: it requires that nothing has been spoken yet, because it is only called from `init`.
- Voice.VoiceManager.OnPlaybackFinished: it requires a playing player, because the delegate is only registered on a player that was started.
