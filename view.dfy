/**
 * What the component renders, derived from its state: the record button, the busy
 * indicator, the transcript panel and the response panel with its playback status and
 * speech controls. Markup, icons and static text are not modelled.
 */
module View {
  import opened Wrappers
  import opened Assistant
  import Groq

  /** The handler the record button is wired to. */
  datatype RecordAction = StartAction | StopAction

  datatype RecordButton = RecordButton(onClick: RecordAction, disabled: bool)

  /** The playback status text and which of the Pause, Play and Stop buttons are shown. */
  datatype Controls = Controls(status: string, pause: bool, play: bool, stop: bool)

  datatype ResponsePanel = ResponsePanel(text: string, controls: Controls)

  datatype Screen = Screen(
    record: RecordButton,
    busy: bool,
    transcriptPanel: Option<string>,
    responsePanel: Option<ResponsePanel>)

  /** The status text: it names the playback lifecycle phase. */
  function StatusLabel(s: State): (text: string)
    ensures Invariant(s) ==>
      && (text == "Playing" <==> PlaybackOf(s) == Speaking)
      && (text == "Paused" <==> PlaybackOf(s) == Paused)
      && (text == "" <==> PlaybackOf(s) == Idle)
  {
    if s.isSpeaking then "Playing" else if s.currentUtterance.Some? then "Paused" else ""
  }

  /** The speech controls: Pause while speaking, Play while paused, Stop whenever an utterance
      exists; so at most one of Pause and Play, and Stop beside either. */
  function ControlsOf(s: State): (c: Controls)
    ensures c.status == StatusLabel(s)
    ensures Invariant(s) ==>
      && (c.pause <==> PlaybackOf(s) == Speaking)
      && (c.play <==> PlaybackOf(s) == Paused)
      && (c.stop <==> PlaybackOf(s) != Idle)
    ensures !(c.pause && c.play)
    ensures Invariant(s) ==> (c.stop <==> c.pause || c.play)
  {
    Controls(StatusLabel(s), s.isSpeaking, !s.isSpeaking && s.currentUtterance.Some?,
             s.currentUtterance.Some?)
  }

  /** The whole derived screen. The response panel, and with it the speech controls, exists
      only while there is a response to show. */
  function Render(s: State): (v: Screen)
    ensures v.record.disabled <==> s.isProcessing
    ensures v.record.onClick == StopAction <==> s.isRecording
    ensures v.busy <==> s.isProcessing
    ensures v.transcriptPanel.Some? <==> s.transcript != ""
    ensures v.transcriptPanel.Some? ==> v.transcriptPanel.value == s.transcript
    ensures v.responsePanel.Some? <==> s.response != ""
    ensures v.responsePanel.Some? ==> v.responsePanel.value.text == s.response
    ensures v.responsePanel.Some? ==> v.responsePanel.value.controls == ControlsOf(s)
  {
    Screen(
      RecordButton(if s.isRecording then StopAction else StartAction, s.isProcessing),
      s.isProcessing,
      if s.transcript != "" then Some(s.transcript) else None,
      if s.response != "" then Some(ResponsePanel(s.response, ControlsOf(s))) else None)
  }

  /** A click on the record button: a disabled button does nothing; otherwise it runs the
      handler it is wired to. */
  function PressRecord(s: State, micGranted: bool): (t: State)
    ensures s.isProcessing ==> t == s
    ensures !s.isProcessing ==>
      t == (if s.isRecording then StopRecording(s) else StartRecording(s, micGranted))
    ensures !s.isProcessing && !s.isRecording && !micGranted ==> t == s
    ensures !s.isProcessing && !s.isRecording && micGranted ==>
      t.isRecording && t.chunks == [] && t.transcript == "" && t.response == ""
      && PlaybackOf(t) == PlaybackOf(s)
    ensures !s.isProcessing && s.isRecording && Invariant(s) ==> t == s.(isRecording := false)
  {
    var button := Render(s).record;
    if button.disabled then s
    else if button.onClick == StopAction then StopRecording(s)
    else StartRecording(s, micGranted)
  }

  /** Two clicks with microphone access, neither during processing, start and then stop a
      recording. */
  lemma RecordButtonToggles(s: State)
    requires !s.isProcessing && !s.isRecording
    ensures PressRecord(s, true).isRecording
    ensures !PressRecord(PressRecord(s, true), true).isRecording
  {
  }

  /** While the pipeline runs the record button is disabled and the busy indicator shown;
      once it settles the button is enabled again and the Pause control offered. */
  lemma BusyWhilePipelineRuns(s: State, transcriber: Groq.TranscriptionService, chat: Groq.ChatService)
    ensures var begun := BeginProcessing(s);
      && Render(begun.0).record.disabled && Render(begun.0).busy
      && var settled := Render(FinishPipeline(begun.0, begun.1, transcriber, chat));
         !settled.record.disabled && !settled.busy
         && settled.responsePanel.Some? && settled.responsePanel.value.controls.pause
  {
  }

  /** A recording whose transcription fails ends with the apology on the screen, in the
      response panel, while the transcript panel stays hidden. */
  lemma FailureDisplaysApology(s: State, mid: seq<Event>,
                               transcriber: Groq.TranscriptionService, chat: Groq.ChatService)
    requires forall i :: 0 <= i < |mid| ==> KeepsTexts(mid[i])
    requires transcriber(Groq.TranscriptionForm(ChunksOf(mid))).Failed?
    ensures var v := Render(Step(Run(StartRecording(s, true), mid), RecorderStopped(transcriber, chat)));
      && v.transcriptPanel.None?
      && v.responsePanel.Some? && v.responsePanel.value.text == Apology
  {
    FailedTranscriptionAfterStart(s, mid, transcriber, chat);
  }

  /** Starting a new recording while a reply is still being spoken clears the response, so the
      speech controls disappear although playback goes on. */
  lemma RecordingHidesSpeechControls(s: State)
    requires s.isSpeaking
    ensures StartRecording(s, true).isSpeaking
    ensures Render(StartRecording(s, true)).responsePanel.None?
  {
  }
}
