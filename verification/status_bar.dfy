/**
 * The `AppDelegate` of Sources/ClawdVoiceApp.swift: the status-bar icon, its
 * processing animation, the reaction to `isProcessing` changes and the global
 * hotkey wiring.
 *
 * A repeating timer is not invalidated when a new one is scheduled, so more
 * than one can be running; `runningTimers` counts the timers still ticking and
 * `animationTimer` says whether the field still holds one of them.
 */
module StatusBar {
  import opened Wrappers
  import Session
  import Voice

  const IdleIcon := "waveform.circle"
  const RecordingIcon := "waveform.circle.fill"
  const ProcessingIcons: seq<string> := ["ellipsis.circle", "ellipsis.circle.fill", "circle.dotted", "ellipsis.circle"]

  /** The icon the hotkey handlers show. */
  function IconFor(recording: bool): (name: string)
    ensures name == RecordingIcon <==> recording
    ensures name == IdleIcon <==> !recording
  {
    if recording then RecordingIcon else IdleIcon
  }

  /** One tick of the processing animation. */
  function NextFrame(frame: nat): (next: nat)
    ensures next < |ProcessingIcons|
    ensures frame + 1 < |ProcessingIcons| ==> next == frame + 1
    ensures frame + 1 == |ProcessingIcons| ==> next == 0
  {
    (frame + 1) % |ProcessingIcons|
  }

  /** The frame shown after the animation was started and has ticked `ticks` times. */
  function FrameAfterTicks(ticks: nat): nat {
    if ticks == 0 then 0 else NextFrame(FrameAfterTicks(ticks - 1))
  }

  /** The animation walks through the icons in order and starts over. */
  lemma {:induction false} FramesCycle(ticks: nat)
    ensures FrameAfterTicks(ticks) == ticks % |ProcessingIcons|
  {
    if ticks > 0 {
      FramesCycle(ticks - 1);
    }
  }

  datatype Modifier = OptionKey | CommandKey | ControlKey | ShiftKey

  datatype Shortcut = Shortcut(key: string, modifiers: set<Modifier>)

  const DefaultShortcut := Shortcut("space", {OptionKey})

  /** The shortcut bound after launch: the saved one, or Option+Space when none is saved. */
  function ShortcutAfterLaunch(saved: Option<Shortcut>): (bound: Shortcut)
    ensures saved.Some? ==> bound == saved.value
    ensures saved.None? ==> bound == DefaultShortcut
  {
    saved.GetOr(DefaultShortcut)
  }

  predicate KnownIcon(name: string) {
    name == IdleIcon || name == RecordingIcon || name in ProcessingIcons
  }

  class AppDelegate {
    const voiceManager: Voice.VoiceManager
    var buttonImage: string
    var animationFrame: int
    var animationTimer: bool
    var runningTimers: nat
    var shortcut: Shortcut

    ghost predicate Valid()
      reads this, voiceManager
    {
      && 0 <= animationFrame < |ProcessingIcons|
      && (animationTimer ==> runningTimers > 0)
      && KnownIcon(buttonImage)
      && voiceManager.Valid()
    }

    /**
     * `applicationDidFinishLaunching`: the idle icon, a fresh controller, and
     * the default shortcut when none was saved. The `isProcessing`
     * subscription first delivers `false`, which leaves this state as it is.
     */
    constructor Launch(stored: Option<Session.AppConfig>, recognizerAvailable: bool, saved: Option<Shortcut>)
      ensures Valid() && fresh(voiceManager)
      ensures voiceManager.Snapshot() == Session.Initial
      ensures voiceManager.Config() == Session.ResolveConfig(stored)
      ensures voiceManager.recognizerAvailable == recognizerAvailable
      ensures voiceManager.audioEngine == Voice.NoEngine && voiceManager.recognitionRequest == Voice.NoRequest
      ensures voiceManager.recognitionTask == Voice.NoTask && voiceManager.audioPlayer == Voice.NoPlayer
      ensures voiceManager.pendingStops == 0 && voiceManager.backendInFlight == 0
      ensures voiceManager.ttsInFlight == 0 && voiceManager.pendingGrace == 0
      ensures voiceManager.backendRequests == [] && voiceManager.ttsRequests == [] && voiceManager.localUtterances == []
      ensures buttonImage == IdleIcon
      ensures animationFrame == 0 && !animationTimer && runningTimers == 0
      ensures shortcut == ShortcutAfterLaunch(saved)
    {
      buttonImage := IdleIcon;
      voiceManager := new Voice.VoiceManager(stored, recognizerAvailable);
      animationFrame := 0;
      animationTimer := false;
      runningTimers := 0;
      shortcut := ShortcutAfterLaunch(saved);
    }

    /** Resets the frame and schedules a new repeating timer. */
    method StartAnimating()
      requires Valid()
      modifies this`animationFrame, this`animationTimer, this`runningTimers
      ensures Valid()
      ensures animationFrame == 0 && animationTimer
      ensures runningTimers == old(runningTimers) + 1
    {
      animationFrame := 0;
      animationTimer := true;
      runningTimers := runningTimers + 1;
    }

    /** A running timer ticks: the next frame is shown. */
    method OnTimerTick()
      requires Valid() && runningTimers > 0
      modifies this`animationFrame, this`buttonImage
      ensures Valid()
      ensures animationFrame == NextFrame(old(animationFrame))
      ensures buttonImage == ProcessingIcons[animationFrame]
    {
      animationFrame := NextFrame(animationFrame);
      buttonImage := ProcessingIcons[animationFrame];
    }

    /** Invalidates the timer the field holds, if any, and shows the idle icon. */
    method StopAnimating()
      requires Valid()
      modifies this`animationTimer, this`runningTimers, this`buttonImage
      ensures Valid()
      ensures !animationTimer && buttonImage == IdleIcon
      ensures runningTimers == old(runningTimers) - (if old(animationTimer) then 1 else 0)
    {
      if animationTimer {
        runningTimers := runningTimers - 1;
      }
      animationTimer := false;
      buttonImage := IdleIcon;
    }

    /** The `isProcessing` subscription receives a value. */
    method OnProcessingChanged(isProcessing: bool)
      requires Valid()
      modifies this`animationFrame, this`animationTimer, this`runningTimers, this`buttonImage
      ensures Valid()
      ensures animationTimer == isProcessing
      ensures isProcessing ==>
        animationFrame == 0 && runningTimers == old(runningTimers) + 1 && buttonImage == old(buttonImage)
      ensures !isProcessing ==>
        && animationFrame == old(animationFrame) && buttonImage == IdleIcon
        && runningTimers == old(runningTimers) - (if old(animationTimer) then 1 else 0)
    {
      if isProcessing {
        StartAnimating();
      } else {
        StopAnimating();
      }
    }

    method UpdateIcon(recording: bool)
      requires Valid()
      modifies this`buttonImage
      ensures Valid()
      ensures buttonImage == IconFor(recording)
    {
      buttonImage := IconFor(recording);
    }

    /** Hotkey pressed: start recording and show the recording icon. */
    method OnKeyDown()
      requires Valid()
      modifies this`buttonImage
      modifies voiceManager`isRecording, voiceManager`statusMessage, voiceManager`lastTranscript
      modifies voiceManager`audioEngine, voiceManager`recognitionRequest, voiceManager`recognitionTask
      ensures Valid()
      ensures voiceManager.Snapshot() == Session.StartStep(old(voiceManager.Snapshot()))
      ensures old(voiceManager.isRecording) ==> unchanged(voiceManager)
      ensures !old(voiceManager.isRecording) ==>
        && voiceManager.audioEngine == Voice.Capturing && voiceManager.recognitionRequest == Voice.Streaming
        && voiceManager.recognitionTask == (if voiceManager.recognizerAvailable then Voice.Running else Voice.NoTask)
      ensures buttonImage == RecordingIcon
    {
      voiceManager.StartRecording();
      UpdateIcon(true);
    }

    /** Hotkey released: arm the delayed stop and show the idle icon. */
    method OnKeyUp()
      requires Valid()
      modifies this`buttonImage, voiceManager`pendingStops
      ensures Valid()
      ensures voiceManager.Snapshot() == old(voiceManager.Snapshot())
      ensures voiceManager.pendingStops == old(voiceManager.pendingStops) + 1
      ensures buttonImage == IdleIcon
    {
      voiceManager.StopRecordingAndProcess();
      UpdateIcon(false);
    }
  }

  /**
   * `isProcessing` published as true twice before it is published false (a
   * second utterance sent while the first is still being answered, as
   * `Session.SecondUtteranceWhileWaiting` shows) leaves a timer ticking after
   * the animation was stopped, and its next tick replaces the idle icon.
   */
  method OverlappingSessionsLeakTimer() returns (stillTicking: nat, iconAfterStop: string, iconAfterTick: string)
    ensures stillTicking == 1
    ensures iconAfterStop == IdleIcon
    ensures iconAfterTick == ProcessingIcons[1] && iconAfterTick != IdleIcon
  {
    var app := new AppDelegate.Launch(None, true, None);
    app.OnProcessingChanged(true);
    app.OnProcessingChanged(true);
    app.OnProcessingChanged(false);
    stillTicking := app.runningTimers;
    iconAfterStop := app.buttonImage;
    app.OnTimerTick();
    iconAfterTick := app.buttonImage;
  }
}
