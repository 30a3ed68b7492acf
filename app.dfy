/**
 * The `App` component as an object: its state hooks and refs are fields, and each handler is
 * a method that updates them field by field, proved against the transition it performs in
 * `Assistant`.
 *
 * The outside world enters as parameters: whether microphone access was granted, each chunk
 * the recorder delivers, and the two remote services the `onstop` pipeline calls.
 */
module AppComponent {
  import opened Wrappers
  import Groq
  import Assistant

  class App {
    var isRecording: bool
    var transcript: string
    var response: string
    var isProcessing: bool
    var isSpeaking: bool
    var currentUtterance: Option<Assistant.Utterance>
    /** Whether `mediaRecorderRef.current` holds a recorder. */
    var hasRecorder: bool
    /** `chunksRef.current`. */
    var chunks: seq<Groq.Chunk>

    function State(): Assistant.State
      reads this
    {
      Assistant.State(isRecording, transcript, response, isProcessing, isSpeaking,
                      currentUtterance, hasRecorder, chunks)
    }

    constructor ()
      ensures State() == Assistant.Initial()
      ensures Assistant.Invariant(State())
    {
      isRecording, transcript, response := false, "", "";
      isProcessing, isSpeaking, currentUtterance := false, false, None;
      hasRecorder, chunks := false, [];
    }

    /** `startRecording`, with the outcome of the microphone request. */
    method StartRecording(micGranted: bool)
      modifies this
      ensures State() == Assistant.Step(old(State()), Assistant.StartClicked(micGranted))
    {
      if micGranted {
        hasRecorder := true;
        chunks := [];
        isRecording := true;
        transcript := "";
        response := "";
      }
    }

    /** `ondataavailable`. */
    method OnDataAvailable(chunk: Groq.Chunk)
      modifies this
      ensures State() == Assistant.Step(old(State()), Assistant.ChunkRecorded(chunk))
    {
      chunks := chunks + [chunk];
    }

    /** `stopRecording`. */
    method StopRecording()
      modifies this
      ensures State() == Assistant.Step(old(State()), Assistant.StopClicked)
    {
      if hasRecorder && isRecording {
        isRecording := false;
      }
    }

    /** `onstop`: raise the busy flag, take the clip, then run the pipeline. */
    method OnStop(transcriber: Groq.TranscriptionService, chat: Groq.ChatService)
      modifies this
      ensures State() == Assistant.Step(old(State()), Assistant.RecorderStopped(transcriber, chat))
    {
      var clip := BeginProcessing();
      FinishPipeline(clip, transcriber, chat);
    }

    /** The synchronous start of `onstop`. */
    method BeginProcessing() returns (clip: seq<Groq.Chunk>)
      modifies this
      ensures (State(), clip) == Assistant.BeginProcessing(old(State()))
    {
      isProcessing := true;
      clip := chunks;
    }

    /** The `try`/`catch` of `onstop` and the final lowering of the busy flag. */
    method FinishPipeline(clip: seq<Groq.Chunk>, transcriber: Groq.TranscriptionService,
                          chat: Groq.ChatService)
      modifies this
      ensures State() == Assistant.FinishPipeline(old(State()), clip, transcriber, chat)
    {
      var heard := Groq.TranscribeAudio(clip, transcriber);
      if heard.Ok? {
        transcript := heard.value;
        var reply := Groq.GenerateResponse(heard.value, chat);
        if reply.Ok? {
          response := reply.value;
          Speak(reply.value);
        } else {
          response := Assistant.Apology;
          Speak(Assistant.Apology);
        }
      } else {
        response := Assistant.Apology;
        Speak(Assistant.Apology);
      }
      isProcessing := false;
    }

    /** Creating the Tamil utterance, making it current and starting it. */
    method Speak(text: string)
      modifies this
      ensures State() == Assistant.Speak(old(State()), text)
    {
      currentUtterance := Some(Assistant.Utterance(text, Assistant.SpeechLang));
      isSpeaking := true;
    }

    /** `pauseSpeech`. */
    method PauseSpeech()
      modifies this
      ensures State() == Assistant.Step(old(State()), Assistant.PauseClicked)
    {
      if currentUtterance.Some? {
        isSpeaking := false;
      }
    }

    /** `resumeSpeech`. */
    method ResumeSpeech()
      modifies this
      ensures State() == Assistant.Step(old(State()), Assistant.ResumeClicked)
    {
      if currentUtterance.Some? {
        isSpeaking := true;
      }
    }

    /** `stopSpeech`. */
    method StopSpeech()
      modifies this
      ensures State() == Assistant.Step(old(State()), Assistant.StopSpeechClicked)
    {
      isSpeaking := false;
      currentUtterance := None;
    }

    /** The utterance's `onend` callback. */
    method OnUtteranceEnd()
      modifies this
      ensures State() == Assistant.Step(old(State()), Assistant.UtteranceEnded)
    {
      isSpeaking := false;
      currentUtterance := None;
    }
  }
}
