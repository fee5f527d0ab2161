/** The memo orchestration of the home page (frontend/src/app/page.tsx): the memo
    list, the loading flag and the current selection, the choice between the
    completion client and the canned mock, and deletion by id. The network comes in
    as a function from the request sent to the reply it gets; the fresh id
    (`Date.now()`) and the timestamp come in as parameters. */
module MemoPage {
  import opened Wrappers
  import opened Text
  import opened MemoTypes
  import opened ApiKeyHook
  import OpenAIClient

  /** The editor's selection as TipTap reports it. */
  datatype Selection = Selection(empty: bool, from: int, to: int)

  /** A non-empty selection's bounds. */
  datatype Range = Range(from: int, to: int)

  /** `onSelectionUpdate`: an empty selection is remembered as no selection at all. */
  function CurrentSelection(sel: Selection): (r: Option<Range>)
    ensures r.None? <==> sel.empty
    ensures r.Some? ==> r.value.from == sel.from && r.value.to == sel.to
  {
    if sel.empty then None else Some(Range(sel.from, sel.to))
  }

  /** `currentSelection?.from`: the anchor of a new memo. */
  function Anchor(selection: Option<Range>): (anchor: Option<int>)
    ensures anchor.None? <==> selection.None?
    ensures anchor.Some? ==> anchor.value == selection.value.from
  {
    match selection
    case None => None
    case Some(range) => Some(range.from)
  }

  /** The anchor of a memo is the start of the selection last reported, and there is
      none when that selection was empty. */
  lemma AnchorOfSelection(sel: Selection)
    ensures Anchor(CurrentSelection(sel)) == if sel.empty then None else Some(sel.from)
  {
  }

  const DocumentId: string := "current-document"
  const ErrorAlertPrefix: string := "AI 메모 생성 중 오류가 발생했습니다: "
  const MockSources: seq<string> := ["웹 검색 결과 1", "웹 검색 결과 2"]
  /** The mock's confidence 0.85, in percent. */
  const MockConfidence: nat := 85

  const QAMockHead: string := "\n          <p><strong>질문:</strong> "
  const QAMockTail: string := "</p>\n          <p>이 질문에 대한 답변을 제공하기 위해 정확한 정보를 검토하고 있습니다.</p>\n          <p><em>※ 이는 목업 응답입니다.</em></p>\n        "
  const CriticalMockHead: string := "\n          <h4>비판적 분석</h4>\n          <p><strong>주제:</strong> "
  const CriticalMockTail: string := "</p>\n          <div><strong>• 객관적 평가:</strong></div>\n          <div><strong>• 장점:</strong></div>\n          <div><strong>• 단점:</strong></div>\n          <div><strong>• 개선방안:</strong></div>\n        "
  const SummaryMock: string := "\n          <h2>정리된 문서</h2>\n          <h3>개요</h3>\n          <h3>주요 내용</h3>\n          <ul>\n            <li>핵심 포인트 1</li>\n          </ul>\n        "

  /** `generateMockResponse`: a total switch over the kind. The question and the
      critical-thinking mocks embed the request's text as it is (no escaping); the
      summary mock is one fixed page whatever the text. */
  function GenerateMockResponse(request: AIRequest): (html: string)
    ensures html != ""
    ensures request.kind != Summary ==> Contains(html, request.content)
    ensures request.kind == Summary ==> html == SummaryMock
  {
    match request.kind
    case QA =>
      ContainsInfix(QAMockHead, request.content, QAMockTail);
      QAMockHead + request.content + QAMockTail
    case CriticalThinking =>
      ContainsInfix(CriticalMockHead, request.content, CriticalMockTail);
      CriticalMockHead + request.content + CriticalMockTail
    case Summary => SummaryMock
  }

  /** The summary mock does not depend on the request's text or prompt. */
  lemma SummaryMockIgnoresContent(a: AIRequest, b: AIRequest)
    requires a.kind == Summary && b.kind == Summary
    ensures GenerateMockResponse(a) == GenerateMockResponse(b)
  {
  }

  /** The mock result: sources only for summaries, one confidence for every kind,
      and the request's prompt as it came (absent when it was absent). */
  function MockCompletion(request: AIRequest): (c: Completion)
    ensures c.content == GenerateMockResponse(request)
    ensures c.metadata.sources.Some? <==> request.kind == Summary
    ensures c.metadata.sources.Some? ==> c.metadata.sources.value == MockSources
    ensures c.metadata.confidence == MockConfidence && c.metadata.prompt == request.prompt
  {
    var sources := if request.kind == Summary then Some(MockSources) else None;
    Completion(GenerateMockResponse(request), Metadata(sources, MockConfidence, request.prompt))
  }

  /** `hasValidAPIKey && apiKey`, with `hasValidAPIKey` as the key hook computes it
      for the same key: the completion client is used exactly for a well-formed key. */
  function UsesRealClient(apiKey: string): (r: bool)
    ensures r <==> IsValidAPIKey(apiKey)
  {
    HasValidAPIKey(apiKey) && apiKey != ""
  }

  /** The request the completion client sends for a memo request: its kind's
      messages, its text, and `request.prompt || ''`. */
  function RequestFor(apiKey: string, request: AIRequest): (sent: OpenAIClient.ChatRequest)
    ensures |sent.messages| == 2 && Contains(sent.messages[1].content, request.content)
    ensures sent.messages[0] == OpenAIClient.Message(OpenAIClient.System, OpenAIClient.SystemPrompt(request.kind))
  {
    OpenAIClient.Request(apiKey, request.kind, request.content, request.prompt.GetOr(""))
  }

  /** The `try` block up to the new memo, over the network `respond`: when the key
      is valid, the completion client for the request's kind sends
      `RequestFor(apiKey, request)` and its reply decides the outcome; otherwise the
      mock answers. A failure carries the thrown error's message. */
  function Dispatch(apiKey: string, request: AIRequest, respond: OpenAIClient.ChatRequest -> OpenAIClient.Reply)
    : (r: Result<Completion, string>)
    ensures !UsesRealClient(apiKey) ==> r == Ok(MockCompletion(request))
    ensures UsesRealClient(apiKey) ==>
              (r.Ok? <==> OpenAIClient.Interpret(respond(RequestFor(apiKey, request))).Ok?)
    ensures UsesRealClient(apiKey) && r.Ok? ==>
              r.value == Completion(OpenAIClient.Interpret(respond(RequestFor(apiKey, request))).value,
                                    Metadata(None, OpenAIClient.Confidence(request.kind), Some(request.prompt.GetOr(""))))
    ensures UsesRealClient(apiKey) && r.Err? ==>
              r.error == OpenAIClient.Interpret(respond(RequestFor(apiKey, request))).error.message
  {
    if UsesRealClient(apiKey) then
      match OpenAIClient.Generate(apiKey, request.kind, request.content, request.prompt.GetOr(""), respond)
      case Ok(completion) => Ok(completion)
      case Err(failure) => Err(failure.message)
    else Ok(MockCompletion(request))
  }

  /** The mock path never fails, so without a valid key a memo is always added. */
  lemma MockNeverFails(apiKey: string, request: AIRequest, respond: OpenAIClient.ChatRequest -> OpenAIClient.Reply)
    requires !IsValidAPIKey(apiKey)
    ensures Dispatch(apiKey, request, respond).Ok?
    ensures Dispatch(apiKey, request, respond).value.metadata.prompt == request.prompt
  {
  }

  /** Without a valid key the network is never consulted: any two networks give the
      same outcome. */
  lemma MockIgnoresNetwork(apiKey: string, request: AIRequest,
                           respond: OpenAIClient.ChatRequest -> OpenAIClient.Reply,
                           respond': OpenAIClient.ChatRequest -> OpenAIClient.Reply)
    requires !IsValidAPIKey(apiKey)
    ensures Dispatch(apiKey, request, respond) == Dispatch(apiKey, request, respond')
  {
  }

  /** With a valid key the outcome depends only on the reply to the request sent:
      two networks that answer that one request alike give the same outcome. */
  lemma DispatchReadsOnlyItsReply(apiKey: string, request: AIRequest,
                                  respond: OpenAIClient.ChatRequest -> OpenAIClient.Reply,
                                  respond': OpenAIClient.ChatRequest -> OpenAIClient.Reply)
    requires respond(RequestFor(apiKey, request)) == respond'(RequestFor(apiKey, request))
    ensures Dispatch(apiKey, request, respond) == Dispatch(apiKey, request, respond')
  {
  }

  /** Dispatch is by kind: requests of two kinds never send the same request. */
  lemma DispatchByKind(apiKey: string, request: AIRequest, other: AIRequest)
    requires request.kind != other.kind
    ensures RequestFor(apiKey, request) != RequestFor(apiKey, other)
  {
    OpenAIClient.RequestIdentifiesKind(apiKey, request.kind, request.content, request.prompt.GetOr(""),
                                       apiKey, other.kind, other.content, other.prompt.GetOr(""));
  }

  /** `prev.filter(memo => memo.id !== memoId)`: every memo with that id goes, every
      other memo stays. */
  function RemoveMemo(memos: seq<Memo>, id: string): (r: seq<Memo>)
    ensures |r| <= |memos|
    ensures forall k :: 0 <= k < |r| ==> r[k].id != id && r[k] in memos
    ensures forall m :: m in memos && m.id != id ==> m in r
  {
    if memos == [] then []
    else if memos[0].id == id then RemoveMemo(memos[1..], id)
    else [memos[0]] + RemoveMemo(memos[1..], id)
  }

  /** The filter keeps the order: removing from a concatenation is removing from
      each part. */
  lemma {:induction false} RemoveMemoAppend(a: seq<Memo>, b: seq<Memo>, id: string)
    ensures RemoveMemo(a + b, id) == RemoveMemo(a, id) + RemoveMemo(b, id)
    decreases |a|
  {
    if a == [] {
      assert a + b == b;
    } else {
      assert (a + b)[0] == a[0];
      assert (a + b)[1..] == a[1..] + b;
      RemoveMemoAppend(a[1..], b, id);
    }
  }

  /** Deleting an id no memo has leaves the list as it was. */
  lemma {:induction false} RemoveAbsentMemo(memos: seq<Memo>, id: string)
    requires forall k :: 0 <= k < |memos| ==> memos[k].id != id
    ensures RemoveMemo(memos, id) == memos
    decreases |memos|
  {
    if memos != [] {
      RemoveAbsentMemo(memos[1..], id);
      assert memos == [memos[0]] + memos[1..];
    }
  }

  /** Deleting twice is deleting once. */
  lemma RemoveMemoIdempotent(memos: seq<Memo>, id: string)
    ensures RemoveMemo(RemoveMemo(memos, id), id) == RemoveMemo(memos, id)
  {
    RemoveAbsentMemo(RemoveMemo(memos, id), id);
  }

  /** Deleting a freshly added memo, whose id no older memo has, restores the list. */
  lemma RemoveNewMemo(m: Memo, memos: seq<Memo>)
    requires forall k :: 0 <= k < |memos| ==> memos[k].id != m.id
    ensures RemoveMemo([m] + memos, m.id) == memos
  {
    assert ([m] + memos)[1..] == memos;
    RemoveAbsentMemo(memos, m.id);
  }

  /** What `handleGenerateMemo` closes over when it starts: the request, the key and
      the anchor taken from the selection at that moment. */
  datatype Pending = Pending(request: AIRequest, apiKey: string, anchor: Option<int>)

  /** The page's state. `editorReady` is `editor` being non-null. */
  class Page {
    var memos: seq<Memo>
    var isLoading: bool
    var selection: Option<Range>
    var editorReady: bool

    /** First render: no memos, not loading, nothing selected. */
    constructor (editorReady: bool)
      ensures memos == [] && !isLoading && selection == None && this.editorReady == editorReady
    {
      memos := [];
      isLoading := false;
      selection := None;
      this.editorReady := editorReady;
    }

    method OnSelectionUpdate(sel: Selection)
      modifies this`selection
      ensures selection == CurrentSelection(sel)
    {
      selection := CurrentSelection(sel);
    }

    /** The start of `handleGenerateMemo`: without an editor it returns at once and
        touches nothing; otherwise `isLoading` is set before anything is dispatched. */
    method Begin(apiKey: string, request: AIRequest) returns (pending: Option<Pending>)
      modifies this`isLoading
      ensures !editorReady ==> pending == None && isLoading == old(isLoading)
      ensures editorReady ==> isLoading && pending == Some(Pending(request, apiKey, Anchor(selection)))
    {
      if !editorReady {
        return None;
      }
      isLoading := true;
      pending := Some(Pending(request, apiKey, Anchor(selection)));
    }

    /** The TipTap editor becoming available after the first render. */
    method EditorMounted()
      modifies this`editorReady
      ensures editorReady
    {
      editorReady := true;
    }

    /** The rest of `handleGenerateMemo`, once the reply is in: on success one memo
        of the request's kind, with the result's content and metadata and the
        captured anchor, goes in front of the list; on failure the list stays as it
        was and the alert carries the error's message; `isLoading` is cleared on
        both paths. */
    method Finish(p: Pending, respond: OpenAIClient.ChatRequest -> OpenAIClient.Reply, id: string, now: int) returns (alert: Option<string>)
      modifies this`memos, this`isLoading
      ensures !isLoading
      ensures Dispatch(p.apiKey, p.request, respond).Ok? ==>
                alert == None && |memos| == |old(memos)| + 1 && memos[1..] == old(memos)
                && memos[0] == Memo(id, DocumentId, p.request.kind, Dispatch(p.apiKey, p.request, respond).value.content,
                                    p.anchor, now, Dispatch(p.apiKey, p.request, respond).value.metadata)
      ensures Dispatch(p.apiKey, p.request, respond).Err? ==>
                memos == old(memos) && alert == Some(ErrorAlertPrefix + Dispatch(p.apiKey, p.request, respond).error)
    {
      var outcome := Dispatch(p.apiKey, p.request, respond);
      match outcome {
        case Ok(result) =>
          var memo := Memo(id, DocumentId, p.request.kind, result.content, p.anchor, now, result.metadata);
          memos := [memo] + memos;
          alert := None;
        case Err(message) =>
          alert := Some(ErrorAlertPrefix + message);
      }
      isLoading := false;
    }

    /** `handleGenerateMemo` from start to end, when nothing else happens in between. */
    method HandleGenerateMemo(apiKey: string, request: AIRequest, respond: OpenAIClient.ChatRequest -> OpenAIClient.Reply, id: string, now: int)
      returns (alert: Option<string>)
      modifies this`memos, this`isLoading
      ensures !editorReady ==> memos == old(memos) && isLoading == old(isLoading) && alert == None
      ensures editorReady ==> !isLoading
      ensures editorReady && Dispatch(apiKey, request, respond).Ok? ==>
                alert == None && |memos| == |old(memos)| + 1 && memos[1..] == old(memos) && memos[0].kind == request.kind
                && memos[0].content == Dispatch(apiKey, request, respond).value.content
                && memos[0].anchorPosition == Anchor(selection)
      ensures editorReady && Dispatch(apiKey, request, respond).Err? ==> memos == old(memos) && alert.Some?
    {
      var pending := Begin(apiKey, request);
      if pending.Some? {
        alert := Finish(pending.value, respond, id, now);
      } else {
        alert := None;
      }
    }

    /** `handleDeleteMemo`. */
    method HandleDeleteMemo(id: string)
      modifies this`memos
      ensures memos == RemoveMemo(old(memos), id)
    {
      memos := RemoveMemo(memos, id);
    }
  }
}
