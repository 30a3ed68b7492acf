/**
 * The state of the assistant component and what each of its handlers does to it, as pure
 * transition functions. These functions specify the methods of `AppComponent.App`; the
 * lemmas here are about every sequence of handler invocations.
 *
 * Every handler runs as one atomic step; the `onstop` handler is split into the part before
 * its first `await` (BeginProcessing) and the rest (FinishPipeline).
 */
module Assistant {
  import opened Wrappers
  import Groq

  const Apology: string := "மன்னிக்கவும், ஏதோ தவறு நேர்ந்துவிட்டது."
  const SpeechLang: string := "ta-IN"

  /** A speech-synthesis job: the text it speaks and its locale. */
  datatype Utterance = Utterance(text: string, lang: string)

  /** The component's React state, the recorder ref (present or not) and the chunk buffer. */
  datatype State = State(
    isRecording: bool,
    transcript: string,
    response: string,
    isProcessing: bool,
    isSpeaking: bool,
    currentUtterance: Option<Utterance>,
    hasRecorder: bool,
    chunks: seq<Groq.Chunk>)

  /** The initial values given to `useState` and `useRef`: nothing recorded, shown or
      playing, and the invariant holds. */
  function Initial(): (s: State)
    ensures !s.isRecording && !s.hasRecorder && s.chunks == []
    ensures s.transcript == "" && s.response == "" && !s.isProcessing
    ensures PlaybackOf(s) == Idle && !s.isSpeaking
    ensures Invariant(s)
  {
    State(false, "", "", false, false, None, false, [])
  }

  /** The playback lifecycle the speech controls advertise. */
  datatype Playback = Idle | Speaking | Paused

  function PlaybackOf(s: State): Playback
  {
    if s.currentUtterance.None? then Idle
    else if s.isSpeaking then Speaking
    else Paused
  }

  /** Speaking implies an utterance exists, and every utterance is a non-empty Tamil one. */
  predicate PlaybackValid(s: State)
  {
    && (s.isSpeaking ==> s.currentUtterance.Some?)
    && (s.currentUtterance.Some? ==>
          s.currentUtterance.value.lang == SpeechLang && s.currentUtterance.value.text != "")
  }

  /** The playback invariant, and a recording is always backed by a recorder. */
  predicate Invariant(s: State)
  {
    PlaybackValid(s) && (s.isRecording ==> s.hasRecorder)
  }

  // ---------------------------------------------------------------------------
  // Recording
  // ---------------------------------------------------------------------------

  /** `startRecording`: with microphone access, a fresh recorder, an empty chunk buffer,
      recording on and both texts cleared; without it, nothing changes. */
  function StartRecording(s: State, micGranted: bool): (t: State)
    ensures !micGranted ==> t == s
    ensures micGranted ==>
      && t.isRecording && t.hasRecorder && t.chunks == []
      && t.transcript == "" && t.response == ""
      && t.isProcessing == s.isProcessing
      && t.isSpeaking == s.isSpeaking && t.currentUtterance == s.currentUtterance
    ensures PlaybackOf(t) == PlaybackOf(s)
    ensures Invariant(s) ==> Invariant(t)
  {
    if micGranted then
      s.(hasRecorder := true, chunks := [], isRecording := true, transcript := "", response := "")
    else s
  }

  /** `ondataavailable`: the chunk is appended to the buffer and nothing else changes. */
  function DataAvailable(s: State, chunk: Groq.Chunk): (t: State)
    ensures t.chunks == s.chunks + [chunk]
    ensures t.(chunks := s.chunks) == s
    ensures Invariant(s) ==> Invariant(t)
  {
    s.(chunks := s.chunks + [chunk])
  }

  /** `stopRecording`: recording stays on only when there is no recorder to stop; nothing
      else changes. */
  function StopRecording(s: State): (t: State)
    ensures t.isRecording == (s.isRecording && !s.hasRecorder)
    ensures t.(isRecording := s.isRecording) == s
    ensures Invariant(s) ==> !t.isRecording
    ensures Invariant(s) ==> Invariant(t)
  {
    if s.hasRecorder && s.isRecording then s.(isRecording := false) else s
  }

  // ---------------------------------------------------------------------------
  // The onstop pipeline: transcribe, generate, speak
  // ---------------------------------------------------------------------------

  /** Creating a Tamil utterance for `text` and starting it. */
  function Speak(s: State, text: string): (t: State)
    ensures t.currentUtterance == Some(Utterance(text, SpeechLang)) && t.isSpeaking
    ensures PlaybackOf(t) == Speaking
    ensures t.(isSpeaking := s.isSpeaking, currentUtterance := s.currentUtterance) == s
  {
    s.(currentUtterance := Some(Utterance(text, SpeechLang)), isSpeaking := true)
  }

  /** Up to the first `await` of `onstop`: the busy flag is raised and the clip taken is the
      whole chunk buffer. */
  function BeginProcessing(s: State): (r: (State, seq<Groq.Chunk>))
    ensures r.0.isProcessing
    ensures r.1 == s.chunks
    ensures r.0.(isProcessing := s.isProcessing) == s
  {
    (s.(isProcessing := true), s.chunks)
  }

  /** The rest of `onstop`. A successful run shows and speaks the generated reply; a failure
      of either remote step shows and speaks the apology, and a failed transcription leaves
      the transcript as it was. In every case the busy flag is lowered. */
  function FinishPipeline(s: State, clip: seq<Groq.Chunk>, transcriber: Groq.TranscriptionService,
                          chat: Groq.ChatService): (t: State)
    ensures !t.isProcessing
    ensures t.isSpeaking && t.currentUtterance == Some(Utterance(t.response, SpeechLang))
    ensures PlaybackOf(t) == Speaking
    ensures t.response != ""
    ensures var heard := Groq.Transcribe(clip, transcriber);
      if heard.Err? then t.transcript == s.transcript && t.response == Apology
      else
        var reply := Groq.GenerateResponse(heard.value, chat);
        t.transcript == heard.value && t.response == (if reply.Ok? then reply.value else Apology)
    ensures t.isRecording == s.isRecording && t.hasRecorder == s.hasRecorder && t.chunks == s.chunks
    ensures PlaybackValid(t)
    ensures Invariant(s) ==> Invariant(t)
  {
    var heard := Groq.Transcribe(clip, transcriber);
    var spoken :=
      if heard.Err? then Speak(s.(response := Apology), Apology)
      else
        var s1 := s.(transcript := heard.value);
        var reply := Groq.GenerateResponse(heard.value, chat);
        if reply.Ok? then Speak(s1.(response := reply.value), reply.value)
        else Speak(s1.(response := Apology), Apology);
    spoken.(isProcessing := false)
  }

  // ---------------------------------------------------------------------------
  // Speech controls
  // ---------------------------------------------------------------------------

  /** `pauseSpeech`: with an utterance, speaking is switched off whatever it was; without one,
      nothing changes. */
  function PauseSpeech(s: State): (t: State)
    ensures s.currentUtterance.None? ==> t == s
    ensures s.currentUtterance.Some? ==> !t.isSpeaking
    ensures t.(isSpeaking := s.isSpeaking) == s
    ensures PlaybackOf(t) == (if PlaybackOf(s) == Idle then Idle else Paused)
    ensures Invariant(s) ==> Invariant(t)
  {
    if s.currentUtterance.Some? then s.(isSpeaking := false) else s
  }

  /** `resumeSpeech`: with an utterance, speaking is switched on whatever it was; without one,
      nothing changes. */
  function ResumeSpeech(s: State): (t: State)
    ensures s.currentUtterance.None? ==> t == s
    ensures s.currentUtterance.Some? ==> t.isSpeaking
    ensures t.(isSpeaking := s.isSpeaking) == s
    ensures PlaybackOf(t) == (if PlaybackOf(s) == Idle then Idle else Speaking)
    ensures Invariant(s) ==> Invariant(t)
  {
    if s.currentUtterance.Some? then s.(isSpeaking := true) else s
  }

  /** `stopSpeech` and the utterance's `onend` callback: speaking off, no utterance, in every
      state; nothing else changes. */
  function ClearPlayback(s: State): (t: State)
    ensures !t.isSpeaking && t.currentUtterance.None?
    ensures PlaybackOf(t) == Idle
    ensures t.(isSpeaking := s.isSpeaking, currentUtterance := s.currentUtterance) == s
    ensures PlaybackValid(t)
    ensures Invariant(s) ==> Invariant(t)
  {
    s.(isSpeaking := false, currentUtterance := None)
  }

  /** Stopping speech twice is the same as stopping it once. */
  lemma ClearPlaybackIdempotent(s: State)
    ensures ClearPlayback(ClearPlayback(s)) == ClearPlayback(s)
  {
  }

  // ---------------------------------------------------------------------------
  // Sequences of handler invocations
  // ---------------------------------------------------------------------------

  /** One invocation of a handler, with what the outside world supplies to it. */
  datatype Event =
    | StartClicked(micGranted: bool)
    | ChunkRecorded(chunk: Groq.Chunk)
    | StopClicked
    | RecorderStopped(transcriber: Groq.TranscriptionService, chat: Groq.ChatService)
    | PauseClicked
    | ResumeClicked
    | StopSpeechClicked
    | UtteranceEnded

  /** Each handler keeps the invariant; only a successful start and a new chunk touch the
      chunk buffer, and only a successful start and the pipeline touch the shown texts. */
  function Step(s: State, e: Event): (t: State)
    ensures Invariant(s) ==> Invariant(t)
    ensures !IsGrantedStart(e) && !e.RecorderStopped? ==>
      t.transcript == s.transcript && t.response == s.response
    ensures t.chunks ==
      if IsGrantedStart(e) then [] else if e.ChunkRecorded? then s.chunks + [e.chunk] else s.chunks
  {
    match e
    case StartClicked(granted) => StartRecording(s, granted)
    case ChunkRecorded(chunk) => DataAvailable(s, chunk)
    case StopClicked => StopRecording(s)
    case RecorderStopped(transcriber, chat) =>
      var begun := BeginProcessing(s);
      FinishPipeline(begun.0, begun.1, transcriber, chat)
    case PauseClicked => PauseSpeech(s)
    case ResumeClicked => ResumeSpeech(s)
    case StopSpeechClicked => ClearPlayback(s)
    case UtteranceEnded => ClearPlayback(s)
  }

  /** The state after the events `evs`, in order, starting from `s`. Every handler keeps the
      invariant, so every state reached from an invariant state satisfies it. */
  function Run(s: State, evs: seq<Event>): (t: State)
    ensures Invariant(s) ==> Invariant(t)
    decreases |evs|
  {
    if evs == [] then s else Step(Run(s, evs[..|evs| - 1]), evs[|evs| - 1])
  }

  /** Every state the component can reach satisfies the invariant. */
  lemma ReachableStatesAreValid(evs: seq<Event>)
    ensures Invariant(Run(Initial(), evs))
  {
  }

  /** Between handlers the busy flag is always down: `onstop` raises it and lowers it again
      within one step, so it is visible only in the state `BeginProcessing` returns. */
  lemma {:induction false} NeverBusyBetweenHandlers(evs: seq<Event>)
    ensures !Run(Initial(), evs).isProcessing
    decreases |evs|
  {
    if evs != [] {
      NeverBusyBetweenHandlers(evs[..|evs| - 1]);
    }
  }

  predicate IsGrantedStart(e: Event)
  {
    e.StartClicked? && e.micGranted
  }

  /** The events after the last successful start (all of them if there is none). */
  function SinceLastStart(evs: seq<Event>): (r: seq<Event>)
    ensures |r| <= |evs| && r == evs[|evs| - |r|..]
    ensures forall i :: 0 <= i < |r| ==> !IsGrantedStart(r[i])
    ensures |r| < |evs| ==> IsGrantedStart(evs[|evs| - |r| - 1])
    decreases |evs|
  {
    if evs == [] then []
    else if IsGrantedStart(evs[|evs| - 1]) then []
    else SinceLastStart(evs[..|evs| - 1]) + [evs[|evs| - 1]]
  }

  /** The chunks the given events deliver, in arrival order. */
  function ChunksOf(evs: seq<Event>): seq<Groq.Chunk>
    decreases |evs|
  {
    if evs == [] then []
    else
      var last := evs[|evs| - 1];
      ChunksOf(evs[..|evs| - 1]) + (if last.ChunkRecorded? then [last.chunk] else [])
  }

  /** One more event adds its chunk, if it carries one, at the end. */
  lemma ChunksOfSnoc(evs: seq<Event>, last: Event)
    ensures ChunksOf(evs + [last]) == ChunksOf(evs) + (if last.ChunkRecorded? then [last.chunk] else [])
  {
    assert (evs + [last])[..|evs|] == evs;
  }

  /** The chunk buffer holds exactly the chunks received since the last successful start,
      in arrival order. */
  lemma {:induction false} BufferIsChunksSinceLastStart(evs: seq<Event>)
    ensures Run(Initial(), evs).chunks == ChunksOf(SinceLastStart(evs))
    decreases |evs|
  {
    if evs != [] {
      var prefix, last := evs[..|evs| - 1], evs[|evs| - 1];
      BufferIsChunksSinceLastStart(prefix);
      var before := Run(Initial(), prefix);
      assert Run(Initial(), evs) == Step(before, last);
      if !IsGrantedStart(last) {
        assert SinceLastStart(evs) == SinceLastStart(prefix) + [last];
        ChunksOfSnoc(SinceLastStart(prefix), last);
      }
    }
  }

  /** The clip `onstop` hands to transcription holds exactly the chunks received since the
      last successful start, in arrival order. */
  lemma ClipIsChunksSinceLastStart(evs: seq<Event>)
    ensures BeginProcessing(Run(Initial(), evs)).1 == ChunksOf(SinceLastStart(evs))
  {
    BufferIsChunksSinceLastStart(evs);
  }

  /** The greeting round trip: the transcript and the reply are shown and the reply is what is
      spoken, in Tamil. */
  lemma GreetingScenario(s: State, transcriber: Groq.TranscriptionService, chat: Groq.ChatService)
    requires transcriber(Groq.TranscriptionForm(s.chunks)) == Groq.Received(Groq.TranscriptionReply("வணக்கம்"))
    requires chat(Groq.ChatRequestFor("வணக்கம்")) ==
      Groq.Received(Groq.ChatReply(Some([Groq.Choice(Some(Groq.ReplyMessage(Some("வணக்கம்! எவ்வளவு உதவி வேண்டும்?"))))])))
    ensures var t := Step(s, RecorderStopped(transcriber, chat));
      && t.transcript == "வணக்கம்"
      && t.response == "வணக்கம்! எவ்வளவு உதவி வேண்டும்?"
      && t.currentUtterance == Some(Utterance("வணக்கம்! எவ்வளவு உதவி வேண்டும்?", SpeechLang))
      && t.isSpeaking && !t.isProcessing
  {
  }

  /** Events that neither start a recording nor run the pipeline. */
  predicate KeepsTexts(e: Event)
  {
    !IsGrantedStart(e) && !e.RecorderStopped?
  }

  /** After a successful start, until the pipeline runs, both texts stay empty and the buffer
      holds exactly the chunks delivered since. */
  lemma {:induction false} TextsStayClearedUntilPipeline(s: State, mid: seq<Event>)
    requires forall i :: 0 <= i < |mid| ==> KeepsTexts(mid[i])
    ensures var t := Run(StartRecording(s, true), mid);
      t.transcript == "" && t.response == "" && t.chunks == ChunksOf(mid)
    decreases |mid|
  {
    if mid != [] {
      var prefix := mid[..|mid| - 1];
      forall i | 0 <= i < |prefix|
        ensures KeepsTexts(prefix[i])
      {
        assert prefix[i] == mid[i];
      }
      TextsStayClearedUntilPipeline(s, prefix);
      assert KeepsTexts(mid[|mid| - 1]);
    }
  }

  /** A recording started, fed any chunks and stopped, whose transcription fails: the clip sent
      is exactly the chunks delivered, the transcript stays empty, and the apology is shown and
      spoken. */
  lemma FailedTranscriptionAfterStart(s: State, mid: seq<Event>,
                                      transcriber: Groq.TranscriptionService, chat: Groq.ChatService)
    requires forall i :: 0 <= i < |mid| ==> KeepsTexts(mid[i])
    requires transcriber(Groq.TranscriptionForm(ChunksOf(mid))).Failed?
    ensures var before := Run(StartRecording(s, true), mid);
      && BeginProcessing(before).1 == ChunksOf(mid)
      && var t := Step(before, RecorderStopped(transcriber, chat));
         && t.transcript == "" && t.response == Apology
         && t.currentUtterance == Some(Utterance(Apology, SpeechLang)) && t.isSpeaking
  {
    TextsStayClearedUntilPipeline(s, mid);
    FailedTranscriptionKeepsTranscript(Run(StartRecording(s, true), mid), transcriber, chat);
  }

  /** The onstop step after a failed transcription keeps the transcript and shows and speaks the
      apology. */
  lemma FailedTranscriptionKeepsTranscript(s: State, transcriber: Groq.TranscriptionService,
                                           chat: Groq.ChatService)
    requires transcriber(Groq.TranscriptionForm(s.chunks)).Failed?
    ensures var t := Step(s, RecorderStopped(transcriber, chat));
      && t.transcript == s.transcript && t.response == Apology
      && t.currentUtterance == Some(Utterance(Apology, SpeechLang)) && t.isSpeaking
  {
  }

  /** The handlers that touch only playback. */
  predicate IsPlaybackEvent(e: Event)
  {
    e.PauseClicked? || e.ResumeClicked? || e.StopSpeechClicked? || e.UtteranceEnded?
  }

  /** A playback handler (an earlier utterance's `onend`, say) that runs while the pipeline
      awaits leaves no trace: the pipeline ends as if it had not run. */
  lemma PlaybackDuringPipelineIsOverwritten(s: State, e: Event,
                                            transcriber: Groq.TranscriptionService, chat: Groq.ChatService)
    requires IsPlaybackEvent(e)
    ensures var begun := BeginProcessing(s);
      FinishPipeline(Step(begun.0, e), begun.1, transcriber, chat) == Step(s, RecorderStopped(transcriber, chat))
  {
  }
}
