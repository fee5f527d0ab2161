/** The backend's two tables (backend/app/models/document.py,
    backend/app/models/ai_memo.py) as maps from integer id to row, held by one
    session object, together with the `exclude_unset` partial updates of
    backend/app/schemas/ai_memo.py and backend/app/schemas/document.py. */
module Store {
  import opened Wrappers

  /** `memo_metadata`: sources, a confidence in percent and the prompt. */
  datatype MemoMetadata = MemoMetadata(sources: Option<seq<string>>, confidence: nat, prompt: Option<string>)

  /** A row of `ai_memos`. The kind is a plain string column. */
  datatype MemoRow = MemoRow(
    documentId: int,
    kind: string,
    content: string,
    anchorPosition: Option<int>,
    createdAt: int,
    metadata: Option<MemoMetadata>)

  /** A row of `documents`. */
  datatype DocumentRow = DocumentRow(title: string, content: string, createdAt: int, userId: Option<int>)

  /** An `HTTPException`: status code and detail. */
  datatype HttpError = HttpError(status: nat, detail: string)

  /** A field of a pydantic update body: left out of the request, or sent. */
  datatype Field<T> = Unset | Set(value: T)

  /** The memos that belong to one document (the `document_id` filter). */
  function MemosOf(memos: map<int, MemoRow>, documentId: int): (r: map<int, MemoRow>)
    ensures forall id :: id in r <==> id in memos && memos[id].documentId == documentId
    ensures forall id :: id in r ==> r[id] == memos[id]
  {
    map id | id in memos && memos[id].documentId == documentId :: memos[id]
  }

  /** The memos left when a document goes: `cascade="all, delete-orphan"` takes its
      memos with it. */
  function WithoutDocument(memos: map<int, MemoRow>, documentId: int): (r: map<int, MemoRow>)
    ensures forall id :: id in r <==> id in memos && memos[id].documentId != documentId
    ensures forall id :: id in r ==> r[id] == memos[id]
  {
    map id | id in memos && memos[id].documentId != documentId :: memos[id]
  }

  /** Deleting a document's memos leaves it none and leaves every other document's
      memos exactly as they were; the two parts make up the whole table. */
  lemma CascadeSeparatesDocuments(memos: map<int, MemoRow>, documentId: int, other: int)
    requires other != documentId
    ensures MemosOf(WithoutDocument(memos, documentId), documentId) == map[]
    ensures MemosOf(WithoutDocument(memos, documentId), other) == MemosOf(memos, other)
    ensures WithoutDocument(memos, documentId).Keys + MemosOf(memos, documentId).Keys == memos.Keys
    ensures WithoutDocument(memos, documentId).Keys !! MemosOf(memos, documentId).Keys
  {
    var rest := WithoutDocument(memos, documentId);
    assert MemosOf(rest, documentId).Keys == {};
  }

  /** A row after a sequence of field assignments, applied one after another: the
      first item is assigned first, and the rest to the row it leaves. */
  function AssignAll<R, A>(assign: (R, A) -> R, row: R, items: seq<A>): (r: R)
    ensures items != [] ==> r == AssignAll(assign, assign(row, items[0]), items[1..])
  {
    if items == [] then row
    else
      var n := |items|;
      if n == 1 then
        assert items[1..] == [] && items[..0] == [];
        assign(row, items[0])
      else
        assert items[..n - 1][1..] == items[1..][..n - 2];
        assert items[1..][n - 2] == items[n - 1];
        assign(AssignAll(assign, row, items[..n - 1]), items[n - 1])
  }

  /** The `for field, value in update_data.items(): setattr(row, field, value)` loop
      that both update routes run. */
  method ApplyUpdate<R, A>(assign: (R, A) -> R, row: R, items: seq<A>) returns (updated: R)
    ensures updated == AssignAll(assign, row, items)
  {
    updated := row;
    for i := 0 to |items|
      invariant updated == AssignAll(assign, row, items[..i])
    {
      assert items[..i + 1][..i] == items[..i];
      updated := assign(updated, items[i]);
    }
    assert items[..|items|] == items;
  }

  /** The database session: both tables and the next id each one hands out. */
  class Db {
    var documents: map<int, DocumentRow>
    var memos: map<int, MemoRow>
    var nextDocumentId: int
    var nextMemoId: int

    /** Every id in use is below the next one handed out, so new ids are fresh. */
    ghost predicate Valid()
      reads this
    {
      (forall id :: id in documents ==> id < nextDocumentId)
      && (forall id :: id in memos ==> id < nextMemoId)
    }

    /** An empty database; ids start at 1. */
    constructor ()
      ensures Valid() && documents == map[] && memos == map[]
    {
      documents := map[];
      memos := map[];
      nextDocumentId := 1;
      nextMemoId := 1;
    }

    /** `db.add` and `db.commit` of a new memo: it gets a fresh id and nothing else
        changes. */
    method InsertMemo(row: MemoRow) returns (id: int)
      requires Valid()
      modifies this`memos, this`nextMemoId
      ensures Valid()
      ensures id !in old(memos) && memos == old(memos)[id := row]
    {
      id := nextMemoId;
      memos := memos[id := row];
      nextMemoId := nextMemoId + 1;
    }

    /** `db.add` and `db.commit` of a new document. */
    method InsertDocument(row: DocumentRow) returns (id: int)
      requires Valid()
      modifies this`documents, this`nextDocumentId
      ensures Valid()
      ensures id !in old(documents) && documents == old(documents)[id := row]
    {
      id := nextDocumentId;
      documents := documents[id := row];
      nextDocumentId := nextDocumentId + 1;
    }
  }
}
