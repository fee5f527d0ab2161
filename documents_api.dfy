/** The document routes (backend/app/api/documents.py) over the map store: list,
    fetch with memos, create, partial update, and delete with its memo cascade. */
module DocumentsApi {
  import opened Wrappers
  import opened Store

  const DocumentNotFound: HttpError := HttpError(404, "Document not found")
  const DocumentDeleted: string := "Document deleted successfully"

  /** `DocumentWithMemos`: the document and the memos that belong to it. */
  datatype DocumentWithMemos = DocumentWithMemos(id: int, document: DocumentRow, memos: map<int, MemoRow>)

  /** `get_documents`: every stored document. */
  method GetDocuments(db: Db) returns (documents: map<int, DocumentRow>)
    ensures documents.Keys == db.documents.Keys
    ensures forall id :: id in documents ==> documents[id] == db.documents[id]
  {
    documents := db.documents;
  }

  /** `get_document`: 404 for an unknown id, otherwise the document with exactly
      its memos. */
  method GetDocument(db: Db, documentId: int) returns (r: Result<DocumentWithMemos, HttpError>)
    ensures documentId !in db.documents ==> r == Err(DocumentNotFound)
    ensures documentId in db.documents ==>
              r.Ok? && r.value.id == documentId && r.value.document == db.documents[documentId]
              && (forall id :: id in r.value.memos <==> id in db.memos && db.memos[id].documentId == documentId)
              && (forall id :: id in r.value.memos ==> r.value.memos[id] == db.memos[id])
  {
    if documentId !in db.documents {
      return Err(DocumentNotFound);
    }
    r := Ok(DocumentWithMemos(documentId, db.documents[documentId], MemosOf(db.memos, documentId)));
  }

  /** `create_document`: one new document with the given title and content under a
      fresh id, no owner; every existing document stays as it was. */
  method CreateDocument(db: Db, title: string, content: string, now: int) returns (id: int, created: DocumentRow)
    requires db.Valid()
    modifies db`documents, db`nextDocumentId
    ensures db.Valid()
    ensures created == DocumentRow(title, content, now, None)
    ensures id !in old(db.documents) && db.documents == old(db.documents)[id := created]
  {
    created := DocumentRow(title, content, now, None);
    id := db.InsertDocument(created);
  }

  /** The body of `PUT /documents/{id}`: each field left out or sent. */
  datatype DocumentPatch = DocumentPatch(title: Field<string>, content: Field<string>)

  /** One `setattr` of the update loop. */
  datatype DocumentAssignment = AssignTitle(title: string) | AssignContent(content: string)

  /** `document_update.dict(exclude_unset=True).items()`, in declaration order. */
  function UpdateItems(patch: DocumentPatch): (items: seq<DocumentAssignment>)
    ensures |items| == (if patch.title.Set? then 1 else 0) + (if patch.content.Set? then 1 else 0)
  {
    (if patch.title.Set? then [AssignTitle(patch.title.value)] else [])
    + (if patch.content.Set? then [AssignContent(patch.content.value)] else [])
  }

  function Assign(row: DocumentRow, a: DocumentAssignment): DocumentRow
  {
    match a
    case AssignTitle(title) => row.(title := title)
    case AssignContent(content) => row.(content := content)
  }

  /** A partial update changes exactly the fields that were sent. */
  lemma {:induction false} UpdateChangesOnlySentFields(row: DocumentRow, patch: DocumentPatch)
    ensures AssignAll(Assign, row, UpdateItems(patch)).title == if patch.title.Set? then patch.title.value else row.title
    ensures AssignAll(Assign, row, UpdateItems(patch)).content == if patch.content.Set? then patch.content.value else row.content
    ensures AssignAll(Assign, row, UpdateItems(patch)).(title := row.title, content := row.content) == row
  {
    var items := UpdateItems(patch);
    if |items| == 2 {
      assert items[..1][..0] == [];
      assert AssignAll(Assign, row, items[..1]) == Assign(row, items[0]);
      assert AssignAll(Assign, row, items) == Assign(Assign(row, items[0]), items[1]);
    } else if |items| == 1 {
      assert items[..0] == [];
    }
  }

  /** `update_document`: 404 for an unknown id, and otherwise only that document
      changes, as the update loop leaves it. */
  method UpdateDocument(db: Db, documentId: int, patch: DocumentPatch) returns (r: Result<DocumentRow, HttpError>)
    requires db.Valid()
    modifies db`documents
    ensures db.Valid()
    ensures documentId !in old(db.documents) ==> r == Err(DocumentNotFound) && db.documents == old(db.documents)
    ensures documentId in old(db.documents) ==>
              r == Ok(AssignAll(Assign, old(db.documents)[documentId], UpdateItems(patch)))
              && db.documents == old(db.documents)[documentId := r.value]
  {
    if documentId !in db.documents {
      return Err(DocumentNotFound);
    }
    var updated := ApplyUpdate(Assign, db.documents[documentId], UpdateItems(patch));
    db.documents := db.documents[documentId := updated];
    r := Ok(updated);
  }

  /** `delete_document`: 404 and no change for an unknown id; otherwise the document
      goes and its memos go with it, while every other memo stays. */
  method DeleteDocument(db: Db, documentId: int) returns (r: Result<string, HttpError>)
    requires db.Valid()
    modifies db`documents, db`memos
    ensures db.Valid()
    ensures documentId !in old(db.documents) ==>
              r == Err(DocumentNotFound) && db.documents == old(db.documents) && db.memos == old(db.memos)
    ensures documentId in old(db.documents) ==>
              r == Ok(DocumentDeleted) && db.documents == old(db.documents) - {documentId}
              && db.memos == WithoutDocument(old(db.memos), documentId)
  {
    if documentId !in db.documents {
      return Err(DocumentNotFound);
    }
    db.documents := db.documents - {documentId};
    db.memos := WithoutDocument(db.memos, documentId);
    r := Ok(DocumentDeleted);
  }
}
