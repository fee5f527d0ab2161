/** The frontend's shared records (frontend/src/types/index.ts). This is the
    `qa | critical-thinking | summary` kind set; the backend service's
    `summary | brainstorm | publish` set is a different one and is not merged in. */
module MemoTypes {
  import opened Wrappers

  /** The closed set of memo kinds the frontend offers. */
  datatype Kind = QA | CriticalThinking | Summary {
    /** The string the kind has on the wire and in `switch` statements. */
    function Name(): string {
      match this
      case QA => "qa"
      case CriticalThinking => "critical-thinking"
      case Summary => "summary"
    }
  }

  /** Recognises a kind name; any other string is not a kind. */
  function ParseKind(name: string): (k: Option<Kind>)
    ensures k.Some? ==> k.value.Name() == name
    ensures k.None? ==> name !in {"qa", "critical-thinking", "summary"}
  {
    if name == "qa" then Some(QA)
    else if name == "critical-thinking" then Some(CriticalThinking)
    else if name == "summary" then Some(Summary)
    else None
  }

  lemma ParseKindName(k: Kind)
    ensures ParseKind(k.Name()) == Some(k)
  {
  }

  /** `memo_metadata`: the sources (summaries only), a confidence as a whole
      percentage (the source's 0.9 is 90), and the custom prompt when one was sent. */
  datatype Metadata = Metadata(sources: Option<seq<string>>, confidence: nat, prompt: Option<string>)

  /** `{ content, metadata }` as produced by either the completion client or the mock. */
  datatype Completion = Completion(content: string, metadata: Metadata)

  /** `AIRequest`: the kind, the text to work on and the optional custom prompt. */
  datatype AIRequest = AIRequest(kind: Kind, content: string, prompt: Option<string>)

  /** `AIMemo`; `createdAt` is the timestamp handed in by the caller. */
  datatype Memo = Memo(
    id: string,
    documentId: string,
    kind: Kind,
    content: string,
    anchorPosition: Option<int>,
    createdAt: int,
    metadata: Metadata)
}
