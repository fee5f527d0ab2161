/** The backend AI service (backend/app/services/ai_service.py): three generators
    that call the completion API and fall back to a canned result whenever that call
    raises. This is the `summary | brainstorm | publish` kind set, kept apart from the
    frontend's. The completion API is the boundary: it comes in as a function from
    the call made to its `Upstream` outcome. */
module AiService {
  import opened Wrappers
  import opened Text
  import opened Prompting

  /** The service's three operations: `generate_summary`, `generate_brainstorm`,
      `generate_publish_format`. */
  datatype ServiceKind = Summarize | Brainstorm | Publish

  /** What `chat.completions.create` did: raised, or replied with these choices'
      message contents. */
  datatype Upstream = Raised(reason: string) | Replied(choices: seq<string>)

  /** The dictionary a generator returns: content, the optional `sources`, the
      confidence in percent and the custom prompt. */
  datatype ServiceResult = ServiceResult(content: string, sources: Option<seq<string>>, confidence: nat, prompt: string)

  /** The chat call a generator makes: system message, user message, token limit and
      temperature (in hundredths). */
  datatype ChatCall = ChatCall(system: string, user: string, maxTokens: nat, temperatureHundredths: nat)

  const Sources: seq<string> := ["웹 검색 결과 1", "웹 검색 결과 2"]

  /** `_search_web`: a simulated search that only quotes the query. */
  function SearchWeb(query: string): (results: string)
    ensures Contains(results, query)
  {
    ContainsInfix("'", query, "'에 대한 웹 검색 결과 시뮬레이션");
    "'" + query + "'에 대한 웹 검색 결과 시뮬레이션"
  }

  /** `_extract_sources`: the same two sources whatever the results say. */
  function ExtractSources(searchResults: string): (sources: seq<string>)
    ensures |sources| == 2
  {
    Sources
  }

  /** The sources of a real summary are those of the canned one, for any search
      results, content and prompt. */
  lemma ExtractSourcesAreMockSources(searchResults: string, content: string, customPrompt: string)
    ensures ExtractSources(searchResults) == Mock(Summarize, content, customPrompt).sources.value
  {
  }

  /** The user-prompt template of each operation; the summary's tail carries the
      search results for the content. */
  function ServiceTemplate(kind: ServiceKind, content: string): Template
  {
    match kind
    case Summarize =>
      Template("\n다음 내용을 요약하고, 관련 정보를 추가해주세요:\n\n내용: ", "\n\n",
               "\n\n웹 검색 결과:\n" + SearchWeb(content) + "\n\n요약을 HTML 형식으로 작성해주세요.\n")
    case Brainstorm =>
      Template("\n다음 주제에 대해 창의적이고 혁신적인 아이디어를 제안해주세요:\n\n주제: ", "\n\n",
               "\n\n다양한 관점에서 3-5개의 구체적인 아이디어를 제안해주세요.\n")
    case Publish =>
      Template("\n다음 내용을 전문적인 출판물 형태로 다듬어주세요:\n\n내용: ", "\n\n",
               "\n\n출판물에 적합한 구조와 형식을 제안해주세요.\n")
  }

  /** The call each operation makes: its own system message, the filled template,
      1000 tokens at 0.3 for summaries, 1200 at 0.7 for brainstorming and 1000 at 0.4
      for publishing. The user message holds the input, the labelled instruction
      when there is one, and the custom prompt can be read back out of it. */
  function Call(kind: ServiceKind, content: string, customPrompt: string): (call: ChatCall)
    ensures Contains(call.user, content)
    ensures customPrompt != "" ==> Contains(call.user, InstructionLabel + customPrompt)
    ensures ReadCustomPrompt(ServiceTemplate(kind, content), content, call.user) == Some(customPrompt)
  {
    FillRoundTrip(ServiceTemplate(kind, content), content, customPrompt);
    var user := Fill(ServiceTemplate(kind, content), content, customPrompt);
    match kind
    case Summarize => ChatCall("당신은 전문적인 문서 요약 AI입니다. 한국어로 명확하고 정확한 요약을 제공합니다.", user, 1000, 30)
    case Brainstorm => ChatCall("당신은 창의적인 브레인스토밍 AI입니다. 혁신적이고 실용적인 아이디어를 제안합니다.", user, 1200, 70)
    case Publish => ChatCall("당신은 전문적인 편집자 AI입니다. 출판물에 적합한 형식과 구조를 제안합니다.", user, 1000, 40)
  }

  /** The summary prompt also quotes the search results for the content. */
  lemma SummaryPromptQuotesSearch(content: string)
    ensures Contains(ServiceTemplate(Summarize, content).tail, SearchWeb(content))
  {
    ContainsInfix("\n\n웹 검색 결과:\n", SearchWeb(content), "\n\n요약을 HTML 형식으로 작성해주세요.\n");
  }

  /** The confidence each operation reports, real or canned: 85, 80 and 90. */
  function Confidence(kind: ServiceKind): nat
  {
    match kind
    case Summarize => 85
    case Brainstorm => 80
    case Publish => 90
  }

  /** `content[:50]`: the first 50 characters, or all of a shorter content. */
  function Prefix50(content: string): (p: string)
    ensures |p| == if |content| <= 50 then |content| else 50
    ensures p == content[..|p|]
  {
    if |content| <= 50 then content else content[..50]
  }

  const MockSummaryHead: string := "\n            <h4>요약</h4>\n            <p>입력하신 내용에 대한 요약입니다:</p>\n            <ul>\n                <li>주요 포인트 1: "
  const MockSummaryTail: string := "</li>\n                <li>주요 포인트 2: 관련된 중요한 정보</li>\n            </ul>\n            <p><strong>출처:</strong> 웹 검색 결과 1, 웹 검색 결과 2</p>\n            "
  const MockBrainstormHead: string := "\n            <h4>브레인스토밍 아이디어</h4>\n            <p><strong>주제:</strong> "
  const MockBrainstormTail: string := "</p>\n            <div class=\"space-y-2\">\n                <strong>💡 아이디어 1:</strong> 혁신적인 접근 방식\n            </div>\n            "
  const MockPublishContent: string := "\n            <h4>출판 형식 제안</h4>\n            <ol>\n                <li><strong>제목:</strong> 명확하고 매력적인 제목</li>\n            </ol>\n            "

  /** `_generate_mock_summary`, `_generate_mock_brainstorm`, `_generate_mock_publish`:
      each echoes the custom prompt with the operation's confidence, and only the
      summary names sources. */
  function Mock(kind: ServiceKind, content: string, customPrompt: string): (r: ServiceResult)
    ensures r.prompt == customPrompt && r.confidence == Confidence(kind)
    ensures r.sources.Some? <==> kind == Summarize
    ensures r.content != ""
  {
    match kind
    case Summarize =>
      ServiceResult(MockSummaryHead + Prefix50(content) + "..." + MockSummaryTail, Some(Sources), Confidence(kind), customPrompt)
    case Brainstorm =>
      ServiceResult(MockBrainstormHead + content + MockBrainstormTail, None, Confidence(kind), customPrompt)
    case Publish =>
      ServiceResult(MockPublishContent, None, Confidence(kind), customPrompt)
  }

  /** The canned summary quotes at most the first 50 characters of the content
      followed by "...", and so the whole content when it is that short; the canned
      brainstorm quotes the topic whole; the canned publishing advice ignores the
      content. */
  lemma MockContents(content: string, other: string, customPrompt: string)
    ensures Contains(Mock(Summarize, content, customPrompt).content, Prefix50(content) + "...")
    ensures |content| <= 50 ==> Contains(Mock(Summarize, content, customPrompt).content, content + "...")
    ensures Contains(Mock(Brainstorm, content, customPrompt).content, content)
    ensures Mock(Publish, content, customPrompt).content == Mock(Publish, other, customPrompt).content
  {
    var p := Prefix50(content);
    assert MockSummaryHead + p + "..." + MockSummaryTail == MockSummaryHead + (p + "...") + MockSummaryTail;
    ContainsInfix(MockSummaryHead, p + "...", MockSummaryTail);
    ContainsInfix(MockBrainstormHead, content, MockBrainstormTail);
  }

  /** The three generators over the completion API `upstream`: each makes the one
      call `Call(kind, content, customPrompt)`; when that call replies, the first
      choice's content with the operation's metadata, and when it raises, the canned
      result. An empty choice list raises `IndexError` inside the same `try`, so it
      falls back too. */
  function Generate(kind: ServiceKind, content: string, customPrompt: string, upstream: ChatCall -> Upstream)
    : (r: ServiceResult)
    ensures upstream(Call(kind, content, customPrompt)).Raised? || |upstream(Call(kind, content, customPrompt)).choices| == 0
            ==> r == Mock(kind, content, customPrompt)
    ensures upstream(Call(kind, content, customPrompt)).Replied? && |upstream(Call(kind, content, customPrompt)).choices| > 0 ==>
              r.content == upstream(Call(kind, content, customPrompt)).choices[0]
              && r.sources == (if kind == Summarize then Some(ExtractSources(SearchWeb(content))) else None)
              && r.confidence == Confidence(kind)
  {
    var outcome := upstream(Call(kind, content, customPrompt));
    if outcome.Raised? || |outcome.choices| == 0 then Mock(kind, content, customPrompt)
    else
      var sources := if kind == Summarize then Some(ExtractSources(SearchWeb(content))) else None;
      ServiceResult(outcome.choices[0], sources, Confidence(kind), customPrompt)
  }

  /** The result depends only on the outcome of the call made: two upstreams that
      answer that call alike give the same result. */
  lemma GenerateReadsOnlyItsCall(kind: ServiceKind, content: string, customPrompt: string,
                                 upstream: ChatCall -> Upstream, upstream': ChatCall -> Upstream)
    requires upstream(Call(kind, content, customPrompt)) == upstream'(Call(kind, content, customPrompt))
    ensures Generate(kind, content, customPrompt, upstream) == Generate(kind, content, customPrompt, upstream')
  {
  }

  /** Each operation makes its own call: the three system messages differ. */
  lemma CallIdentifiesKind(kind: ServiceKind, content: string, customPrompt: string,
                           kind': ServiceKind, content': string, customPrompt': string)
    requires kind != kind'
    ensures Call(kind, content, customPrompt).system != Call(kind', content', customPrompt').system
  {
  }

  /** Whether the call replied or raised, the metadata is the same: the custom
      prompt is echoed, only summaries carry sources, and the sources and the
      confidence of a real result are those of the canned one. */
  lemma MetadataAgreesWithMock(kind: ServiceKind, content: string, customPrompt: string, upstream: ChatCall -> Upstream)
    ensures Generate(kind, content, customPrompt, upstream).prompt == customPrompt
    ensures Generate(kind, content, customPrompt, upstream).sources.Some? <==> kind == Summarize
    ensures Generate(kind, content, customPrompt, upstream).sources == Mock(kind, content, customPrompt).sources
    ensures Generate(kind, content, customPrompt, upstream).confidence == Mock(kind, content, customPrompt).confidence
  {
  }
}
