/**
 * The two remote clients of the assistant: speech-to-text (`transcribeAudio`) and the
 * chat completion that produces the Tamil reply (`generateResponse`).
 *
 * The HTTP exchange itself is a parameter: a service is a total function from the request
 * that is sent to the outcome that comes back (a decoded body, or a failure).
 */
module Groq {
  import opened Wrappers

  /** One recorded audio chunk; its bytes are opaque to the assistant. */
  type Chunk = seq<bv8>

  // ---------------------------------------------------------------------------
  // HTTP outcomes
  // ---------------------------------------------------------------------------

  /** Why a request failed: a non-success status, or no response at all. */
  datatype FailureReason = HttpStatus(code: int) | NetworkError

  datatype HttpOutcome<T> = Received(body: T) | Failed(reason: FailureReason)

  // ---------------------------------------------------------------------------
  // Transcription
  // ---------------------------------------------------------------------------

  /** An entry of a multipart form: a file part (name, blob, filename) or a text part. */
  datatype FormEntry =
    | FileEntry(name: string, blob: seq<Chunk>, filename: string)
    | TextEntry(name: string, value: string)

  /** The multipart form, filled in place by successive appends. */
  class FormData {
    var entries: seq<FormEntry>

    constructor ()
      ensures entries == []
    {
      entries := [];
    }

    method Append(entry: FormEntry)
      modifies this
      ensures entries == old(entries) + [entry]
    {
      entries := entries + [entry];
    }
  }

  /** The JSON body of a successful transcription: `{ text }`. */
  datatype TranscriptionReply = TranscriptionReply(text: string)

  type TranscriptionService = seq<FormEntry> -> HttpOutcome<TranscriptionReply>

  const AudioFilename: string := "audio.wav"
  const TranscriptionModel: string := "whisper-large-v3"
  const TranscriptionLanguage: string := "ta"
  const TranscriptionFailure: string := "Failed to transcribe audio"

  /** The form `transcribeAudio` sends for a clip: three fields, the first of which a receiver
      reads back as the clip itself, under the filename audio.wav. */
  function TranscriptionForm(clip: seq<Chunk>): (form: seq<FormEntry>)
    ensures |form| == 3
    ensures FormFile(form, "file") == Some((clip, AudioFilename))
  {
    [ FileEntry("file", clip, AudioFilename),
      TextEntry("model", TranscriptionModel),
      TextEntry("language", TranscriptionLanguage) ]
  }

  /** The names of a form's entries, in order. */
  function FieldNames(form: seq<FormEntry>): (names: seq<string>)
    ensures |names| == |form|
    ensures forall i :: 0 <= i < |form| ==> names[i] == form[i].name
  {
    if form == [] then [] else [form[0].name] + FieldNames(form[1..])
  }

  /** How a receiver reads the first text field called `name`. */
  function FormText(form: seq<FormEntry>, name: string): Option<string>
  {
    if form == [] then None
    else if form[0].TextEntry? && form[0].name == name then Some(form[0].value)
    else FormText(form[1..], name)
  }

  /** How a receiver reads the first file field called `name`: its blob and filename. */
  function FormFile(form: seq<FormEntry>, name: string): Option<(seq<Chunk>, string)>
  {
    if form == [] then None
    else if form[0].FileEntry? && form[0].name == name then Some((form[0].blob, form[0].filename))
    else FormFile(form[1..], name)
  }

  /** The error mapping of `transcribeAudio`: the reply's text is returned unchanged and
      every failure becomes the same message. */
  function TranscriptionResult(outcome: HttpOutcome<TranscriptionReply>): (r: Result<string>)
    ensures r.Ok? <==> outcome.Received?
    ensures r.Ok? ==> r.value == outcome.body.text
    ensures r.Err? ==> r.message == TranscriptionFailure
  {
    match outcome
    case Received(reply) => Ok(reply.text)
    case Failed(_) => Err(TranscriptionFailure)
  }

  /** What `transcribeAudio` returns for a clip, given the remote service: the text of the
      reply to the clip's form, unchanged, or the one fixed error on any failure. */
  function Transcribe(clip: seq<Chunk>, service: TranscriptionService): (r: Result<string>)
    ensures r.Ok? <==> service(TranscriptionForm(clip)).Received?
    ensures r.Ok? ==> r.value == service(TranscriptionForm(clip)).body.text
    ensures r.Err? ==> r.message == TranscriptionFailure
  {
    TranscriptionResult(service(TranscriptionForm(clip)))
  }

  /** `transcribeAudio`: builds the form by three appends, posts it, maps the outcome. */
  method TranscribeAudio(clip: seq<Chunk>, service: TranscriptionService) returns (r: Result<string>)
    ensures r == Transcribe(clip, service)
  {
    var form := new FormData();
    form.Append(FileEntry("file", clip, AudioFilename));
    form.Append(TextEntry("model", TranscriptionModel));
    form.Append(TextEntry("language", TranscriptionLanguage));
    assert form.entries == TranscriptionForm(clip);
    var outcome := service(form.entries);
    r := TranscriptionResult(outcome);
  }

  /** The transcription form has exactly the fields file, model and language, in that order,
      and a receiver reads back the clip, the model and the language from it. */
  lemma TranscriptionFormReadBack(clip: seq<Chunk>)
    ensures FieldNames(TranscriptionForm(clip)) == ["file", "model", "language"]
    ensures FormFile(TranscriptionForm(clip), "file") == Some((clip, AudioFilename))
    ensures FormText(TranscriptionForm(clip), "model") == Some(TranscriptionModel)
    ensures FormText(TranscriptionForm(clip), "language") == Some(TranscriptionLanguage)
  {
    var form := TranscriptionForm(clip);
    assert form[1..][1..] == [TextEntry("language", TranscriptionLanguage)];
    assert "model" != "language" by { assert "model"[0] != "language"[0]; }
    assert FormText(form[1..][1..], "language") == Some(TranscriptionLanguage);
  }

  // ---------------------------------------------------------------------------
  // Response generation
  // ---------------------------------------------------------------------------

  datatype Role = System | User

  datatype ChatMessage = ChatMessage(role: Role, content: string)

  /** The JSON body of the chat request (the float `temperature` is not modelled). */
  datatype ChatRequest = ChatRequest(messages: seq<ChatMessage>, model: string, maxTokens: nat)

  /** `choices[i].message`, whose `content` may be missing. */
  datatype ReplyMessage = ReplyMessage(content: Option<string>)

  datatype Choice = Choice(message: Option<ReplyMessage>)

  /** The JSON body of a chat reply; `choices` may be missing altogether. */
  datatype ChatReply = ChatReply(choices: Option<seq<Choice>>)

  type ChatService = ChatRequest -> HttpOutcome<ChatReply>

  const SystemPrompt: string :=
    "You are a helpful Tamil language assistant. Always respond in Tamil language only. If someone greets with \"வணக்கம்\", respond with \"வணக்கம்! எவ்வளவு உதவி வேண்டும்?\". Keep responses concise and natural."
  const ChatModel: string := "gemma2-9b-it"
  const MaxTokens: nat := 200
  const NoReplyFallback: string := "மன்னிக்கவும், பதில் கிடைக்கவில்லை."
  const GenerationFailure: string := "Failed to generate response"

  /** The body `generateResponse` posts for a transcript: two messages, from which a receiver
      reads the fixed instruction as the system turn and the transcript, unchanged, as the user
      turn; model gemma2-9b-it with at most 200 tokens. */
  function ChatRequestFor(text: string): (r: ChatRequest)
    ensures |r.messages| == 2
    ensures SystemTurn(r) == Some(SystemPrompt)
    ensures UserTurn(r) == Some(text)
    ensures r.model == ChatModel && r.maxTokens == 200
  {
    ChatRequest([ChatMessage(System, SystemPrompt), ChatMessage(User, text)], ChatModel, MaxTokens)
  }

  /** How a receiver reads the instruction of a chat request: its first message, if a system one. */
  function SystemTurn(request: ChatRequest): Option<string>
  {
    if |request.messages| > 0 && request.messages[0].role == System
    then Some(request.messages[0].content) else None
  }

  /** How a receiver reads the question of a chat request: its last message, if a user one. */
  function UserTurn(request: ChatRequest): Option<string>
  {
    var n := |request.messages|;
    if n > 0 && request.messages[n - 1].role == User
    then Some(request.messages[n - 1].content) else None
  }

  /** `choices[0]?.message?.content`: present only when the first choice exists and has a
      message, and then that message's content. */
  function FirstContent(choices: seq<Choice>): (r: Option<string>)
    ensures r.Some? ==> |choices| > 0 && choices[0].message.Some?
    ensures |choices| > 0 && choices[0].message.Some? ==> r == choices[0].message.value.content
  {
    if |choices| == 0 then None
    else match choices[0].message
      case None => None
      case Some(m) => m.content
  }

  /** The reply extraction and error mapping of `generateResponse`. A missing `choices` field
      throws inside the `try` and so is a failure like any other. */
  function ChatResult(outcome: HttpOutcome<ChatReply>): (r: Result<string>)
    ensures r.Ok? <==> outcome.Received? && outcome.body.choices.Some?
    ensures r.Err? ==> r.message == GenerationFailure
    ensures r.Ok? ==> r.value != ""
    ensures r.Ok? ==>
      var c := FirstContent(outcome.body.choices.value);
      r.value == if c.Some? && c.value != "" then c.value else NoReplyFallback
  {
    match outcome
    case Failed(_) => Err(GenerationFailure)
    case Received(reply) =>
      match reply.choices
      case None => Err(GenerationFailure)
      case Some(choices) =>
        var c := FirstContent(choices);
        if c.Some? && c.value != "" then Ok(c.value) else Ok(NoReplyFallback)
  }

  /** What `generateResponse` returns for a transcript, given the remote service: on a reply
      with a `choices` field, its first non-empty content or the fallback, never empty; on
      every failure, the one fixed error. */
  function GenerateResponse(text: string, service: ChatService): (r: Result<string>)
    ensures var outcome := service(ChatRequestFor(text));
      r.Ok? <==> outcome.Received? && outcome.body.choices.Some?
    ensures r.Err? ==> r.message == GenerationFailure
    ensures r.Ok? ==> r.value != ""
    ensures r.Ok? ==>
      var c := FirstContent(service(ChatRequestFor(text)).body.choices.value);
      r.value == if c.Some? && c.value != "" then c.value else NoReplyFallback
  {
    ChatResult(service(ChatRequestFor(text)))
  }

  /** An empty choice list and an empty content both give the fixed fallback. */
  lemma EmptyReplyFallsBack(text: string, service: ChatService)
    requires service(ChatRequestFor(text)).Received?
    requires var cs := service(ChatRequestFor(text)).body.choices;
      cs.Some? && (cs.value == [] || FirstContent(cs.value) == Some(""))
    ensures GenerateResponse(text, service) == Ok(NoReplyFallback)
  {
  }
}
