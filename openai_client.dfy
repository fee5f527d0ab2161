/** The browser-side completion client (frontend/src/lib/openai.ts): builds the
    two-message chat request for a memo kind and reads the upstream reply. The
    `fetch` itself is the boundary: its outcome comes in as a `Reply` value, so
    reading it is a pure function. */
module OpenAIClient {
  import opened Wrappers
  import opened Text
  import opened Prompting
  import opened MemoTypes

  datatype Role = System | User | Assistant

  datatype Message = Message(role: Role, content: string)

  const Endpoint: string := "https://api.openai.com/v1/chat/completions"
  const Model: string := "gpt-3.5-turbo"
  const MaxTokens: nat := 1000
  /** The sampling temperature 0.7, in hundredths. */
  const TemperatureHundredths: nat := 70

  /** The POST the client sends: bearer header, model, messages and sampling limits. */
  datatype ChatRequest = ChatRequest(
    url: string,
    authorization: string,
    model: string,
    messages: seq<Message>,
    maxTokens: nat,
    temperatureHundredths: nat)

  /** The persona message for each kind. */
  function SystemPrompt(kind: Kind): string
  {
    match kind
    case QA => "당신은 정확하고 신뢰할 수 있는 질의응답 AI입니다. 사실에 기반한 정확한 정보만 제공하고, 추측이나 불확실한 내용은 피합니다."
    case CriticalThinking => "당신은 비판적 사고와 창의적 분석을 전문으로 하는 AI입니다. 객관적이고 균형잡힌 관점에서 주제를 분석하고 개선방안을 제시합니다."
    case Summary => "당신은 전문적인 문서 편집자 AI입니다. 내용을 HTML 표준에 맞춰 깔끔하고 구조화된 형태로 정리합니다."
  }

  /** The user-message template for each kind: a task line, the labelled input, the
      instruction slot and the list of requirements (abbreviated to its heading). */
  function UserTemplate(kind: Kind): Template
  {
    match kind
    case QA => Template("\n다음 질문에 대해 정확하고 도움이 되는 답변을 제공해주세요:\n\n질문: ", "\n\n", "\n\n답변 요구사항:\n")
    case CriticalThinking => Template("\n다음 주제에 대해 비판적이고 창의적인 관점에서 분석하고 평가해주세요:\n\n주제/질문: ", "\n\n", "\n\n분석 요구사항:\n")
    case Summary => Template("\n다음 내용을 HTML 표준 양식에 맞춰 깔끔하게 정리해주세요:\n\n내용: ", "\n\n", "\n\n정리 요구사항:\n")
  }

  /** The confidence each kind reports, in percent: 90 for questions and summaries,
      85 for critical thinking. */
  function Confidence(kind: Kind): nat
  {
    match kind
    case QA => 90
    case CriticalThinking => 85
    case Summary => 90
  }

  /** The messages of `generateQA`, `generateCriticalThinking` and `generateSummary`:
      exactly two, the kind's system message and then a user message that holds the
      input, holds the labelled instruction exactly when there is one, and from
      which the custom prompt can be read back. */
  function Messages(kind: Kind, text: string, customPrompt: string): (messages: seq<Message>)
    ensures |messages| == 2
    ensures messages[0] == Message(System, SystemPrompt(kind)) && messages[1].role == User
    ensures Contains(messages[1].content, text)
    ensures customPrompt != "" ==> Contains(messages[1].content, InstructionLabel + customPrompt)
    ensures ReadCustomPrompt(UserTemplate(kind), text, messages[1].content) == Some(customPrompt)
  {
    FillRoundTrip(UserTemplate(kind), text, customPrompt);
    [Message(System, SystemPrompt(kind)), Message(User, Fill(UserTemplate(kind), text, customPrompt))]
  }

  const BearerPrefix: string := "Bearer "

  /** The request `callOpenAI` sends for these messages with this key: the key can be
      read back from the bearer header, and the custom prompt from the user message. */
  function Request(apiKey: string, kind: Kind, text: string, customPrompt: string): (request: ChatRequest)
    ensures request.url == Endpoint && request.model == Model
    ensures StartsWith(request.authorization, BearerPrefix) && request.authorization[|BearerPrefix|..] == apiKey
    ensures |request.messages| == 2 && request.messages[0].role == System && request.messages[1].role == User
    ensures Contains(request.messages[1].content, text)
    ensures ReadCustomPrompt(UserTemplate(kind), text, request.messages[1].content) == Some(customPrompt)
  {
    assert (BearerPrefix + apiKey)[|BearerPrefix|..] == apiKey;
    ChatRequest(Endpoint, BearerPrefix + apiKey, Model, Messages(kind, text, customPrompt), MaxTokens, TemperatureHundredths)
  }

  /** The body of a reply as the client sees it: not JSON at all, or JSON with an
      optional `error.message` and the `choices`, each with an optional
      `message.content`. */
  datatype Body = Unparseable(reason: string) | Json(errorMessage: Option<string>, choices: seq<Option<string>>)

  /** What `fetch` produced: no response at all, or a status and a body. */
  datatype Reply = NetworkFailure(reason: string) | HttpReply(status: nat, body: Body)

  /** The error `callOpenAI` throws: the upstream's own message or the status
      message, the network error, or the JSON parse error of a success body. */
  datatype Failure = UpstreamError(message: string) | TransportError(message: string) | MalformedBody(message: string)

  /** `response.ok`. */
  predicate IsOk(status: nat) {
    200 <= status <= 299
  }

  const StatusErrorPrefix: string := "OpenAI API 오류: "
  const EmptyReplyFallback: string := "응답을 생성할 수 없습니다."

  /** The generic message for a failed status. */
  function StatusError(status: nat): string
  {
    StatusErrorPrefix + NatToString(status)
  }

  /** Reads the status back out of a generic status message. */
  function ReadStatusError(message: string): Option<nat>
  {
    if StartsWith(message, StatusErrorPrefix) && |message| > |StatusErrorPrefix|
       && forall i :: |StatusErrorPrefix| <= i < |message| ==> '0' <= message[i] <= '9'
    then Some(ParseNat(message[|StatusErrorPrefix|..]))
    else None
  }

  /** The generic status message loses nothing: the status can be read back. */
  lemma StatusErrorRoundTrip(status: nat)
    ensures ReadStatusError(StatusError(status)) == Some(status)
  {
    var message := StatusError(status);
    assert message[|StatusErrorPrefix|..] == NatToString(status);
    ParseNatToString(status);
  }

  /** `errorData.error?.message || \`OpenAI API 오류: ${status}\``: a missing or
      empty message falls back to the status message, from which the status can be
      read back. The message is never empty. */
  function ErrorMessage(status: nat, body: Body): (message: string)
    ensures message != ""
    ensures body.Json? && body.errorMessage.Some? && body.errorMessage.value != "" ==> message == body.errorMessage.value
    ensures !(body.Json? && body.errorMessage.Some? && body.errorMessage.value != "") ==>
              message == StatusError(status) && ReadStatusError(message) == Some(status)
  {
    StatusErrorRoundTrip(status);
    if body.Json? && body.errorMessage.Some? && body.errorMessage.value != "" then body.errorMessage.value
    else StatusError(status)
  }

  /** `data.choices[0]?.message?.content || '응답을 생성할 수 없습니다.'`. */
  function FirstChoiceContent(choices: seq<Option<string>>): (content: string)
    ensures content != ""
    ensures content == EmptyReplyFallback || (|choices| > 0 && choices[0] == Some(content))
  {
    if |choices| > 0 && choices[0].Some? && choices[0].value != "" then choices[0].value
    else EmptyReplyFallback
  }

  /** How `callOpenAI` reads a reply. A network failure is rethrown as it is; a
      failed status is an error carrying the upstream's message when it has a
      non-empty one and the status message otherwise; a success with a JSON body
      always yields non-empty content, the first choice's or the fallback literal. */
  function Interpret(reply: Reply): (r: Result<string, Failure>)
    ensures reply.NetworkFailure? ==> r == Err(TransportError(reply.reason))
    ensures reply.HttpReply? && !IsOk(reply.status) ==> r.Err? && r.error.UpstreamError?
    ensures (reply.HttpReply? && !IsOk(reply.status) && reply.body.Json? && reply.body.errorMessage.Some?
             && reply.body.errorMessage.value != "") ==> r == Err(UpstreamError(reply.body.errorMessage.value))
    ensures (reply.HttpReply? && !IsOk(reply.status)
             && (reply.body.Unparseable? || reply.body.errorMessage.None? || reply.body.errorMessage.value == ""))
            ==> r == Err(UpstreamError(StatusError(reply.status))) && ReadStatusError(r.error.message) == Some(reply.status)
    ensures reply.HttpReply? && IsOk(reply.status) && reply.body.Unparseable? ==> r == Err(MalformedBody(reply.body.reason))
    ensures reply.HttpReply? && IsOk(reply.status) && reply.body.Json? ==> r.Ok?
    ensures r.Ok? ==> r.value != ""
    ensures (r.Ok? && (|reply.body.choices| == 0 || reply.body.choices[0].None? || reply.body.choices[0].value == ""))
            ==> r.value == EmptyReplyFallback
    ensures (r.Ok? && |reply.body.choices| > 0 && reply.body.choices[0].Some? && reply.body.choices[0].value != "")
            ==> r.value == reply.body.choices[0].value
  {
    match reply
    case NetworkFailure(reason) => Err(TransportError(reason))
    case HttpReply(status, body) =>
      if !IsOk(status) then Err(UpstreamError(ErrorMessage(status, body)))
      else if body.Unparseable? then Err(MalformedBody(body.reason))
      else Ok(FirstChoiceContent(body.choices))
  }

  /** A generate method over the network `respond`: the one request it sends is
      `Request(apiKey, kind, text, customPrompt)`, and the reply to that request
      becomes a completion whose metadata echoes the custom prompt and the kind's
      confidence and has no sources; any failure is passed on unchanged, and the
      one reply is all that is read (no retry). */
  function Generate(apiKey: string, kind: Kind, text: string, customPrompt: string, respond: ChatRequest -> Reply)
    : (r: Result<Completion, Failure>)
    ensures r.Ok? <==> Interpret(respond(Request(apiKey, kind, text, customPrompt))).Ok?
    ensures r.Ok? ==> r.value.content == Interpret(respond(Request(apiKey, kind, text, customPrompt))).value
                      && r.value.metadata == Metadata(None, Confidence(kind), Some(customPrompt))
    ensures r.Err? ==> r.error == Interpret(respond(Request(apiKey, kind, text, customPrompt))).error
  {
    match Interpret(respond(Request(apiKey, kind, text, customPrompt)))
    case Ok(content) => Ok(Completion(content, Metadata(None, Confidence(kind), Some(customPrompt))))
    case Err(e) => Err(e)
  }

  /** The request tells the kinds apart: two kinds never send the same system
      message, so a request for one kind is never a request for another. */
  lemma RequestIdentifiesKind(apiKey: string, kind: Kind, text: string, customPrompt: string,
                              apiKey': string, kind': Kind, text': string, customPrompt': string)
    requires kind != kind'
    ensures Request(apiKey, kind, text, customPrompt).messages[0] != Request(apiKey', kind', text', customPrompt').messages[0]
  {
    assert SystemPrompt(QA) != SystemPrompt(CriticalThinking);
    assert SystemPrompt(QA) != SystemPrompt(Summary);
    assert SystemPrompt(CriticalThinking) != SystemPrompt(Summary);
  }
}
