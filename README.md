# Tamil speech assistant: a Dafny model

This is a model of a browser voice assistant for Tamil speakers. The user records speech. The
clip goes to a remote speech-to-text service. The transcript goes to a remote chat model
together with a fixed Tamil-only instruction. The reply is shown and then spoken in `ta-IN`.
If either remote step fails, a fixed Tamil apology is shown and spoken instead.

The model has five modules:

- `Wrappers` (wrappers.dfy): `Option` and a `Result` that carries an error message.
- `Groq` (groq.dfy) models the two remote clients.
  - The multipart form is a `FormData` class that is filled by appends.
  - `TranscribeAudio` is a method that builds that form, posts it and maps the outcome.
  - The chat request and reply are datatypes.
  - `ChatResult` and `GenerateResponse` are functions for the reply extraction and the error mapping.
  - A remote service is a total function from the request sent to an `HttpOutcome`: a decoded body, or a failure with a status or network reason.
- `Assistant` (assistant.dfy) models the component's state as a `State` datatype.
  - There is one transition function per handler.
  - `Invariant` says three things: speaking implies an utterance exists, every utterance is a non-empty `ta-IN` one, and recording implies a recorder exists.
  - `Playback` is the lifecycle (idle, speaking, paused) that the controls advertise.
  - `Event`, `Step` and `Run` describe any sequence of handler invocations. The lemmas over those sequences cover the invariant and the chunk buffer.
- `View` (view.dfy) derives the rendered screen from the state: the record button and the busy indicator, the transcript panel, and the response panel with its status text and its Pause/Play/Stop controls.
- `AppComponent` (app.dfy) holds the class `App`.
  - The class has one field per state hook and ref.
  - It has one method per handler. Each method updates the fields one by one, as the setters do.
  - Each method is proved to perform exactly the matching `Assistant` transition.

Each handler is one atomic step. The `onstop` handler is split into two phases:

- `BeginProcessing` runs up to the first `await`: it raises the busy flag and takes the clip.
- `FinishPipeline` runs the rest: transcribe, generate, speak, then lower the busy flag.

Behaviour the model follows from the code:

- `pauseSpeech` and `resumeSpeech` test only that an utterance exists. Pausing while already paused, or resuming while already speaking, leaves the state as it was.
- The speech controls live inside the response panel (src/App.tsx:154). They are therefore drawn only while `response` is non-empty.
- Starting a new recording while a reply is being spoken clears `response`. The speech controls then vanish while playback continues (`View.RecordingHidesSpeechControls`).
- The utterance's `onend` callback clears whatever utterance is current. It does not check that this is its own utterance.
- `stopRecording` tests only that a recorder exists and that `isRecording` is set. After the first start, the recorder ref is never cleared. Recording implies a recorder in every reachable state, so the branch where `stopRecording` does nothing while recording cannot be reached.

## Model

| member | source | states |
|---|---|---|
| Groq.FormData.constructor | src/lib/groq.ts:10 | a new form has no entries |
| Groq.FormData.Append | src/lib/groq.ts:11-13 | appending adds exactly that entry at the end of the form |
| Groq.TranscriptionForm | src/lib/groq.ts:10-13 | the form has three fields, and a receiver reads back the clip itself from the file field, with filename audio.wav |
| Groq.Transcribe | src/lib/groq.ts:9-30 | success iff the service answers the clip's form; the answer's text is returned unchanged; every failure becomes "Failed to transcribe audio" |
| Groq.TranscribeAudio | src/lib/groq.ts:9-30 | the result is the mapped outcome of posting exactly the file/model/language form built from the clip |
| Groq.TranscriptionFormReadBack | src/lib/groq.ts:10-13 | the form's field names are exactly file, model, language in that order; a receiver reads back the clip with filename audio.wav, model whisper-large-v3 and language ta |
| Groq.TranscriptionResult | src/lib/groq.ts:25-29 | success iff a reply was received; the reply's text is returned unchanged; every failure becomes "Failed to transcribe audio" |
| Groq.ChatRequestFor | src/lib/groq.ts:36-50 | the body has two messages; a receiver reads the fixed instruction as the system turn and exactly the input text as the user turn; the model is gemma2-9b-it with max_tokens 200 |
| Groq.FirstContent | src/lib/groq.ts:54 | the optional chain is present only when a first choice with a message exists, and is then that message's content |
| Groq.ChatResult | src/lib/groq.ts:54-58 | success iff a reply with a choices field was received; then the first choice's content if present and non-empty, otherwise the fixed Tamil fallback, so a success is never empty; every failure becomes "Failed to generate response" |
| Groq.GenerateResponse | src/lib/groq.ts:32-59 | success iff the service answers the request built from the text with a choices field; then the first non-empty content or the Tamil fallback, never empty; every failure becomes "Failed to generate response" |
| Groq.EmptyReplyFallsBack | src/lib/groq.ts:54 | an empty choices list or an empty content gives the fixed fallback |
| Assistant.Initial | src/App.tsx:6-13 | nothing is recorded, buffered, shown, processed or playing, and the invariant holds |
| Assistant.StartRecording | src/App.tsx:15-70 | with microphone access: recorder present, empty buffer, recording on, transcript and response empty, playback and busy flag untouched; without access: the state is unchanged; the invariant is kept |
| Assistant.DataAvailable | src/App.tsx:21-23 | the chunk is appended at the end of the buffer and nothing else changes |
| Assistant.StopRecording | src/App.tsx:73-79 | recording stays on only if there is no recorder, which the invariant rules out, so from an invariant state recording is off afterwards; only isRecording can change |
| Assistant.Speak | src/App.tsx:36-44 | the current utterance is the given text in ta-IN and speaking is on; nothing else changes |
| Assistant.BeginProcessing | src/App.tsx:25-28 | the busy flag is raised, the clip is the whole chunk buffer, nothing else changes |
| Assistant.FinishPipeline | src/App.tsx:29-61 | on success the transcript and the generated reply are shown; after a failed transcription the transcript is kept and the apology is shown; after a failed generation the transcript is shown with the apology; the shown response is non-empty and spoken in ta-IN; speaking is on and the busy flag is lowered; recording state is untouched |
| Assistant.PauseSpeech | src/App.tsx:81-86 | no utterance gives no change; with one, speaking is off whatever it was; the lifecycle moves to paused unless idle |
| Assistant.ResumeSpeech | src/App.tsx:88-93 | no utterance gives no change; with one, speaking is on whatever it was; the lifecycle moves to speaking unless idle |
| Assistant.ClearPlayback | src/App.tsx:95-99 | speaking is off and there is no utterance from every state; only those two fields change |
| Assistant.ClearPlaybackIdempotent | src/App.tsx:95-99 | stopping speech twice gives the same state as stopping it once |
| Assistant.Step | src/App.tsx:15-99 | every handler keeps the invariant; only a successful start and a new chunk change the chunk buffer; only a successful start and the pipeline change the transcript and the response |
| Assistant.Run | src/App.tsx:15-99 | every state reached from an invariant state satisfies the invariant |
| Assistant.ReachableStatesAreValid | src/App.tsx:6-13 | every state reachable from the initial hook values satisfies the invariant |
| Assistant.NeverBusyBetweenHandlers | src/App.tsx:25-61 | after any sequence of handlers run from the initial state the busy flag is down |
| Assistant.BufferIsChunksSinceLastStart | src/App.tsx:19-23 | after any sequence of handlers the buffer holds exactly the chunks received since the last successful start, in arrival order |
| Assistant.ClipIsChunksSinceLastStart | src/App.tsx:28 | the clip onstop hands to transcription is exactly the chunks received since the last successful start, in arrival order |
| Assistant.GreetingScenario | src/App.tsx:29-44 | a transcript of the Tamil greeting, with the reply the instruction asks for, shows both texts, speaks the reply in ta-IN and lowers the busy flag |
| Assistant.TextsStayClearedUntilPipeline | src/App.tsx:19-67 | after a successful start, through any events that neither start nor run the pipeline, both texts stay empty and the buffer is exactly the chunks delivered |
| Assistant.FailedTranscriptionKeepsTranscript | src/App.tsx:45-59 | after a failed transcription the transcript is kept and the apology is shown and spoken in ta-IN |
| Assistant.FailedTranscriptionAfterStart | src/App.tsx:15-59 | a start, any chunks and other events, then a failed transcription: the clip sent is exactly those chunks, the transcript stays empty, and the apology is shown and spoken |
| Assistant.PlaybackDuringPipelineIsOverwritten | src/App.tsx:38-61 | a pause, resume, stop-speech or onend that runs while the pipeline awaits leaves the same final state as when it does not run |
| View.StatusLabel | src/App.tsx:164 | the status text is Playing, Paused or empty exactly when the lifecycle is speaking, paused or idle |
| View.ControlsOf | src/App.tsx:166-195 | Pause is shown iff speaking, Play iff paused, Stop iff an utterance exists; never both Pause and Play; Stop iff one of them |
| View.Render | src/App.tsx:118-160 | the record button is disabled iff processing and wired to stop iff recording; the busy indicator follows processing; the transcript panel exists iff the transcript is non-empty and then shows exactly the transcript; the response panel exists iff the response is non-empty and then shows exactly the response with the controls |
| View.PressRecord | src/App.tsx:119-125 | a click while processing does nothing; otherwise it runs stopRecording while recording and startRecording when not; from idle without microphone access nothing changes; with access recording starts with an empty buffer, both texts are cleared and playback is untouched; while recording, from an invariant state, only recording is switched off |
| View.FailureDisplaysApology | src/App.tsx:45-160 | a recording whose transcription fails ends with no transcript panel and a response panel showing the apology |
| View.RecordButtonToggles | src/App.tsx:119 | two clicks with microphone access, outside processing, start and then stop a recording |
| View.BusyWhilePipelineRuns | src/App.tsx:125-142 | during the pipeline the record button is disabled and the busy indicator shown; afterwards the button is enabled and Pause is offered |
| View.RecordingHidesSpeechControls | src/App.tsx:154-195 | a new recording during playback keeps speaking on but removes the response panel and its controls |
| AppComponent.App.constructor | src/App.tsx:6-13 | the fields start at the initial hook values, which satisfy the invariant |
| AppComponent.App.StartRecording | src/App.tsx:15-70 | the fields change exactly as Assistant.StartRecording says |
| AppComponent.App.OnDataAvailable | src/App.tsx:21-23 | the fields change exactly as Assistant.DataAvailable says |
| AppComponent.App.StopRecording | src/App.tsx:73-79 | the fields change exactly as Assistant.StopRecording says |
| AppComponent.App.OnStop | src/App.tsx:25-62 | the fields change exactly as the onstop step says: BeginProcessing then FinishPipeline |
| AppComponent.App.BeginProcessing | src/App.tsx:26-28 | the busy flag is raised and the returned clip is the chunk buffer |
| AppComponent.App.FinishPipeline | src/App.tsx:29-61 | the fields change exactly as Assistant.FinishPipeline says |
| AppComponent.App.Speak | src/App.tsx:36-44 | the fields change exactly as Assistant.Speak says |
| AppComponent.App.PauseSpeech | src/App.tsx:81-86 | the fields change exactly as Assistant.PauseSpeech says |
| AppComponent.App.ResumeSpeech | src/App.tsx:88-93 | the fields change exactly as Assistant.ResumeSpeech says |
| AppComponent.App.StopSpeech | src/App.tsx:95-99 | the fields change exactly as Assistant.ClearPlayback says |
| AppComponent.App.OnUtteranceEnd | src/App.tsx:38-41 | the fields change exactly as Assistant.ClearPlayback says |

## Left out

- HTTP is not modelled: axios, the base URL, the bearer token and the headers are left out. Each remote call is a service function from the request to a received body or a failure.
- The `temperature: 0.7` field of the chat request is left out, because it is a floating-point value with no effect on the model.
- A transcription reply without a `text` field is not modelled. The source would return `undefined` as the transcript; the model assumes the reply always holds a string.
- JSON values of the wrong type are not modelled (for example a `content` that is not a string). Missing fields and null fields are both `None`.
- The internals of `getUserMedia`, `MediaRecorder` and track stopping are left out. These devices appear only as the outcome of the microphone request, the delivered chunks and the recorder's stop event. Whether the recorder ref holds a recorder is a boolean.
- The Blob's MIME type and the audio bytes are left out. A clip is the sequence of its chunks.
- The `window.speechSynthesis` calls `speak`, `pause`, `resume` and `cancel` are left out. Only the state flags that go with them are modelled.
- Async scheduling and React batching are left out. The model assumes each handler runs atomically. In the program, other handlers can run while `onstop` awaits. An example is the `onend` of an earlier reply that is still playing (src/App.tsx:38-41). In the model the busy flag is up only in the state that `BeginProcessing` returns: after every whole handler it is down again (`Assistant.NeverBusyBetweenHandlers`). That intermediate state is therefore the one the first clause of `View.PressRecord` (a disabled button does nothing) is about. In the program the record button stays disabled while the pipeline runs, so the handlers that can interleave touch only `isSpeaking` and `currentUtterance`. The pipeline neither reads those two fields nor leaves them unchanged: it overwrites both. `Assistant.PlaybackDuringPipelineIsOverwritten` proves that such a handler run before the first `await` leaves the same final state. The same holds at the second `await`, but that is not proved separately.
- `console.error` logging, markup, icons, colours and static text are left out.
