/** The AI memo routes (backend/app/api/ai_memos.py) over the map store: creation
    dispatched on the kind string, listing by document, partial update and delete. */
module AiMemosApi {
  import opened Wrappers
  import opened Text
  import opened Store

  /** The body of `POST /ai-memos/generate`. */
  datatype GenerateRequest = GenerateRequest(kind: string, content: string, prompt: Option<string>)

  /** A stored memo and its id, as returned in `data.memo`. */
  datatype StoredMemo = StoredMemo(id: int, row: MemoRow)

  /** `AIResponse`: success flag, the stored memo, the error text. */
  datatype AIResponse = AIResponse(success: bool, memo: Option<StoredMemo>, error: Option<string>)

  /** The canned content and metadata of a generated memo. */
  datatype Draft = Draft(content: string, metadata: MemoMetadata)

  /** Every generated memo goes to document 1. */
  const GeneratedDocumentId: int := 1
  /** `str()` of `HTTPException(status_code=400, detail="Invalid AI memo type")`. */
  const InvalidTypeError: string := "400: Invalid AI memo type"
  const MemoNotFound: HttpError := HttpError(404, "AI memo not found")
  const MemoDeleted: string := "AI memo deleted successfully"

  const QAHead: string := "\n                <p><strong>질문:</strong> "
  const QATail: string := "</p>\n                <p>이 질문에 대한 답변을 제공하기 위해 정확한 정보를 검토하고 있습니다.</p>\n                "
  const CriticalHead: string := "\n                <h4>비판적 분석</h4>\n                <p><strong>주제:</strong> "
  const CriticalTail: string := "</p>\n                <div><strong>• 객관적 평가:</strong></div>\n                "
  const SummaryContent: string := "\n                <h2>정리된 문서</h2>\n                <h3>개요</h3>\n                <ul>\n                    <li>핵심 포인트 1</li>\n                </ul>\n                "

  /** The `if`/`elif` chain on `request.type`: a draft for the three known kinds,
      none for any other string. Question and critical-thinking drafts quote the
      request's text; every draft echoes the request's prompt and has no sources. */
  function DraftFor(request: GenerateRequest): (d: Option<Draft>)
    ensures d.Some? <==> request.kind == "qa" || request.kind == "critical-thinking" || request.kind == "summary"
    ensures d.Some? && request.kind != "summary" ==> Contains(d.value.content, request.content)
    ensures d.Some? ==> d.value.metadata.prompt == request.prompt && d.value.metadata.sources.None?
    ensures d.Some? ==> d.value.metadata.confidence == if request.kind == "critical-thinking" then 85 else 90
  {
    if request.kind == "qa" then
      ContainsInfix(QAHead, request.content, QATail);
      Some(Draft(QAHead + request.content + QATail, MemoMetadata(None, 90, request.prompt)))
    else if request.kind == "critical-thinking" then
      ContainsInfix(CriticalHead, request.content, CriticalTail);
      Some(Draft(CriticalHead + request.content + CriticalTail, MemoMetadata(None, 85, request.prompt)))
    else if request.kind == "summary" then
      Some(Draft(SummaryContent, MemoMetadata(None, 90, request.prompt)))
    else None
  }

  /** The summary draft is the same page whatever text was sent. */
  lemma SummaryDraftIgnoresContent(a: GenerateRequest, b: GenerateRequest)
    requires a.kind == "summary" && b.kind == "summary"
    ensures DraftFor(a).value.content == DraftFor(b).value.content
  {
  }

  /** `generate_ai_memo`: an unknown kind stores nothing and answers with the
      caught exception's text; a known kind stores exactly one memo, for document 1,
      of the request's kind, with the draft and without an anchor. */
  method GenerateAiMemo(db: Db, request: GenerateRequest, now: int) returns (response: AIResponse)
    requires db.Valid()
    modifies db`memos, db`nextMemoId
    ensures db.Valid()
    ensures DraftFor(request).None? ==>
              response == AIResponse(false, None, Some(InvalidTypeError)) && db.memos == old(db.memos)
    ensures DraftFor(request).Some? ==>
              response.success && response.error.None? && response.memo.Some?
              && response.memo.value.id !in old(db.memos)
              && response.memo.value.row == MemoRow(GeneratedDocumentId, request.kind, DraftFor(request).value.content,
                                                    None, now, Some(DraftFor(request).value.metadata))
              && db.memos == old(db.memos)[response.memo.value.id := response.memo.value.row]
  {
    var draft := DraftFor(request);
    if draft.None? {
      return AIResponse(false, None, Some(InvalidTypeError));
    }
    var row := MemoRow(GeneratedDocumentId, request.kind, draft.value.content, None, now, Some(draft.value.metadata));
    var id := db.InsertMemo(row);
    response := AIResponse(true, Some(StoredMemo(id, row)), None);
  }

  /** `get_ai_memos`: exactly the memos of that document. */
  method GetAiMemos(db: Db, documentId: int) returns (memos: map<int, MemoRow>)
    ensures forall id :: id in memos <==> id in db.memos && db.memos[id].documentId == documentId
    ensures forall id :: id in memos ==> memos[id] == db.memos[id]
  {
    memos := MemosOf(db.memos, documentId);
  }

  /** The body of `PUT /ai-memos/{id}`: each field left out or sent. */
  datatype MemoPatch = MemoPatch(content: Field<string>, metadata: Field<Option<MemoMetadata>>)

  /** One `setattr` of the update loop. */
  datatype MemoAssignment = AssignContent(content: string) | AssignMetadata(metadata: Option<MemoMetadata>)

  /** `memo_update.dict(exclude_unset=True).items()`: the fields that were sent, in
      declaration order. */
  function UpdateItems(patch: MemoPatch): (items: seq<MemoAssignment>)
    ensures |items| == (if patch.content.Set? then 1 else 0) + (if patch.metadata.Set? then 1 else 0)
  {
    (if patch.content.Set? then [AssignContent(patch.content.value)] else [])
    + (if patch.metadata.Set? then [AssignMetadata(patch.metadata.value)] else [])
  }

  function Assign(row: MemoRow, a: MemoAssignment): MemoRow
  {
    match a
    case AssignContent(content) => row.(content := content)
    case AssignMetadata(metadata) => row.(metadata := metadata)
  }

  /** A partial update changes exactly the fields that were sent: the content and
      the metadata take the sent values, everything else keeps its value. */
  lemma {:induction false} UpdateChangesOnlySentFields(row: MemoRow, patch: MemoPatch)
    ensures AssignAll(Assign, row, UpdateItems(patch)).content == if patch.content.Set? then patch.content.value else row.content
    ensures AssignAll(Assign, row, UpdateItems(patch)).metadata == if patch.metadata.Set? then patch.metadata.value else row.metadata
    ensures AssignAll(Assign, row, UpdateItems(patch)).(content := row.content, metadata := row.metadata) == row
  {
    var items := UpdateItems(patch);
    if |items| == 2 {
      assert items[..1][..0] == [];
      assert AssignAll(Assign, row, items[..1]) == Assign(row, items[0]);
      assert AssignAll(Assign, row, items) == Assign(Assign(row, items[0]), items[1]);
    } else if |items| == 1 {
      assert items[..0] == [];
    }
  }

  /** `update_ai_memo`: 404 for an unknown id, and otherwise only that memo changes,
      as the update loop leaves it. */
  method UpdateAiMemo(db: Db, memoId: int, patch: MemoPatch) returns (r: Result<MemoRow, HttpError>)
    requires db.Valid()
    modifies db`memos
    ensures db.Valid()
    ensures memoId !in old(db.memos) ==> r == Err(MemoNotFound) && db.memos == old(db.memos)
    ensures memoId in old(db.memos) ==>
              r == Ok(AssignAll(Assign, old(db.memos)[memoId], UpdateItems(patch)))
              && db.memos == old(db.memos)[memoId := r.value]
  {
    if memoId !in db.memos {
      return Err(MemoNotFound);
    }
    var updated := ApplyUpdate(Assign, db.memos[memoId], UpdateItems(patch));
    db.memos := db.memos[memoId := updated];
    r := Ok(updated);
  }

  /** `delete_ai_memo`: 404 and no change for an unknown id, otherwise exactly that
      memo goes. */
  method DeleteAiMemo(db: Db, memoId: int) returns (r: Result<string, HttpError>)
    requires db.Valid()
    modifies db`memos
    ensures db.Valid()
    ensures memoId !in old(db.memos) ==> r == Err(MemoNotFound) && db.memos == old(db.memos)
    ensures memoId in old(db.memos) ==> r == Ok(MemoDeleted) && db.memos == old(db.memos) - {memoId}
  {
    if memoId !in db.memos {
      return Err(MemoNotFound);
    }
    db.memos := db.memos - {memoId};
    r := Ok(MemoDeleted);
  }
}
