/**
 * The presentation rules of `MenuBarView` in Sources/MenuBarView.swift, as
 * functions of the controller's published state.
 */
module MenuBar {
  import opened Wrappers
  import opened Session

  datatype Color = Red | Orange | Green | Blue

  /** The status dot: recording wins over processing. */
  function StatusColor(s: Published): (c: Color)
    ensures c == Red <==> s.isRecording
    ensures c == Orange <==> !s.isRecording && s.isProcessing
    ensures c == Green <==> !s.isRecording && !s.isProcessing
  {
    if s.isRecording then Red
    else if s.isProcessing then Orange
    else Green
  }

  /** The header icon's colour. */
  function HeaderColor(s: Published): (c: Color)
    ensures c == Red <==> s.isRecording
    ensures c == Blue <==> !s.isRecording
  {
    if s.isRecording then Red else Blue
  }

  /** Whether the "You said:" block is shown. */
  function ShowsTranscript(s: Published): (shown: bool)
    ensures shown <==> |s.lastTranscript| > 0
  {
    !(s.lastTranscript == "")
  }

  /** Whether the "Clawd:" block is shown. */
  function ShowsResponse(s: Published): (shown: bool)
    ensures shown <==> |s.lastResponse| > 0
  {
    !(s.lastResponse == "")
  }

  /**
   * Over a session without a TTS key the dot is red while listening, orange
   * while the backend answers, and green once the reply has been spoken; the
   * "You said:" block disappears while listening starts over.
   */
  lemma SessionColours(s: Published, heard: string, reply: string)
    requires !s.isRecording && heard != ""
    ensures StatusColor(Run("", s, [StartRecording]).final) == Red
    ensures !ShowsTranscript(Run("", s, [StartRecording]).final)
    ensures StatusColor(Run("", s, Utterance(heard)).final) == Orange
    ensures StatusColor(Run("", s, Utterance(heard) + [BackendResult(Http(200, Some(reply))), GraceDelayElapsed]).final) == Green
    ensures ShowsResponse(Run("", s, Utterance(heard) + [BackendResult(Http(200, Some(reply))), GraceDelayElapsed]).final)
         <==> reply != ""
  {
    RunCons("", s, StartRecording, []);
    HeardUtterance("", s, heard);
    LocalSession(s, heard, reply);
  }

  /**
   * Pressing the hotkey again while the backend is answering gives a state
   * that is both recording and processing; the dot then shows red.
   */
  lemma RecordingWhileProcessing(ttsKey: string, s: Published, heard: string)
    requires !s.isRecording && heard != ""
    ensures var t := Run(ttsKey, s, Utterance(heard) + [StartRecording]).final;
      t.isRecording && t.isProcessing && StatusColor(t) == Red
  {
    HeardUtterance(ttsKey, s, heard);
    var sent := Published(false, true, heard, s.lastResponse, TalkingToClawd);
    RunCons(ttsKey, sent, StartRecording, []);
    RunAppend(ttsKey, s, Utterance(heard), [StartRecording]);
  }
}
