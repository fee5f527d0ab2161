# AI note app: memo pipeline, key handling and stores

This project models the core of a note-taking app that attaches AI-generated
memos to a document. On the frontend it covers five parts:

- the home page's orchestrator: the memo list, the loading flag, the editor
  selection, the choice between the real completion client and a canned mock,
  and deletion by id;
- the API-key hook and the key dialog's save and key-press handlers;
- the side panel's submit guard, button enablement and kind-to-title and
  kind-to-icon mappings;
- the browser-side completion client: how it builds prompts and how it reads a reply.

On the backend it covers four parts:

- the AI service's three generators and their canned fallbacks;
- the memo routes and the document routes over an in-memory table store;
- the cascade from a document to its memos;
- the CORS origin list setting.

Modules follow the source files. `Wrappers` holds `Option` and `Result`.
`Text` holds whitespace trimming, comma splitting and joining, and decimal
rendering. `Prompting` holds the shared template shape: fixed text, the input,
fixed text, an optional `추가 지시사항: ` line, fixed text. `MemoTypes` holds the
frontend records. `ApiKeyHook`, `ApiKeyModal`, `AiPanel`, `OpenAIClient` and
`MemoPage` model the frontend files. `AiService`, `Store`, `AiMemosApi`,
`DocumentsApi` and `Config` model the backend files.

The frontend's kinds are `qa | critical-thinking | summary`, modelled as
`MemoTypes.Kind`. The backend service's kinds are `summary | brainstorm | publish`,
modelled as `AiService.ServiceKind`. The two sets are kept apart, and the
backend tables store the kind as a plain string.

State that the source changes in place is a class with `modifies` clauses:

- `ApiKeyHook.KeyStore`, which holds `apiKey`, `isLoaded` and local storage;
- `ApiKeyModal.KeyDialog`;
- `AiPanel.Panel`;
- `MemoPage.Page`, which holds the memo list, the loading flag and the selection;
- `Store.Db`, which holds both tables and their id counters.

The backend routes are methods over a `Db`. The two `setattr` update loops are one
generic method, `Store.ApplyUpdate`, whose loop invariant ties it to a fold
function.

Several things the source gets from the outside world come in as parameters:

- the network behind `fetch` is a function `respond` from the `OpenAIClient.ChatRequest`
  sent to the `OpenAIClient.Reply` it gets, so every contract speaks of the reply to
  the exact request built;
- the Python OpenAI client is a function `upstream` from the `AiService.ChatCall` made
  to its `AiService.Upstream` outcome;
- `Date.now()` ids and timestamps are `id` and `now`;
- whether the TipTap editor exists is `editorReady`, which `MemoPage.Page.EditorMounted` sets once the editor arrives;
- the selection is a `MemoPage.Selection`.

Confidences are whole percentages: 0.85 is 85. Temperatures are in hundredths.

Two behaviours of the code that the model keeps as they are:

- The page never rejects a submission while another one is in flight. Only the
  panel's button is disabled while loading
  (frontend/src/components/AIPanel.tsx:186). `MemoPage.Page` therefore has no
  busy rejection.
- Neither summary mock quotes the submitted text. The frontend's summary mock
  (frontend/src/app/page.tsx:183-195) and the backend's summary draft
  (backend/app/api/ai_memos.py:60-78) are fixed pages.
  `MemoPage.SummaryMockIgnoresContent` and
  `AiMemosApi.SummaryDraftIgnoresContent` state that.

## Model

| member | source | states |
|---|---|---|
| Text.Trim | frontend/src/components/APIKeyModal.tsx:27-42 | the trimmed text is never longer than the original, and it is empty exactly when the original is all whitespace |
| Text.TrimSpec | frontend/src/components/APIKeyModal.tsx:27-42 | the trimmed text sits in the original with only whitespace before it and only whitespace after it, and it neither starts nor ends with whitespace |
| Text.Utf16Length | frontend/src/hooks/useAPIKey.ts:34 | JavaScript's `length` lies between the number of characters and twice that number |
| Text.Utf16LengthOfBmp | frontend/src/hooks/useAPIKey.ts:34 | for text of Basic Multilingual Plane characters, `length` is the number of characters |
| Text.Utf16LengthOfAstral | frontend/src/hooks/useAPIKey.ts:34 | each character outside the Basic Multilingual Plane adds two to `length` |
| Text.Utf16LengthAppend | frontend/src/hooks/useAPIKey.ts:34 | the `length` of two texts put together is the sum of their lengths |
| Text.TrimKeepsPrefix | frontend/src/components/APIKeyModal.tsx:37-42 | trimming a text that starts with a non-space prefix keeps that prefix |
| Text.Split | backend/app/core/config.py:28 | `split(",")` gives one piece more than there are separators, and no piece holds the separator |
| Text.JoinSplit | backend/app/core/config.py:28 | joining the pieces of a split with the separator gives back the original text |
| Text.SplitJoin | backend/app/core/config.py:28 | splitting a join of separator-free pieces gives back the pieces |
| Text.ParseNatToString | frontend/src/lib/openai.ts:141 | the decimal rendering of a status code parses back to the same number |
| Prompting.InstructionLine | frontend/src/lib/openai.ts:27 | the instruction slot is empty exactly when the custom prompt is empty, and is otherwise the label followed by the custom prompt |
| Prompting.ReadInstructionLine | frontend/src/lib/openai.ts:27 | the custom prompt can be read back from its instruction slot |
| Prompting.Fill | frontend/src/lib/openai.ts:22-35 | a filled template holds the input, holds `추가 지시사항: ` plus the custom prompt when that prompt is non-empty, and otherwise has no instruction text; its length adds up |
| Prompting.FillRoundTrip | backend/app/services/ai_service.py:19-31 | the custom prompt can be recovered from a filled template, so distinct custom prompts give distinct prompts |
| MemoTypes.ParseKind | frontend/src/types/index.ts:13 | exactly `qa`, `critical-thinking` and `summary` name a kind, and each parses to the kind with that name |
| MemoTypes.ParseKindName | frontend/src/types/index.ts:25 | every kind's name parses back to it |
| ApiKeyHook.IsValidAPIKey | frontend/src/hooks/useAPIKey.ts:33-37 | a valid key begins `s`, `k`, `-` and has at least ten characters; every key of twenty characters or more with the `sk-` prefix is valid |
| ApiKeyHook.HasValidAPIKey | frontend/src/hooks/useAPIKey.ts:39 | `apiKey && isValidAPIKey(apiKey)` holds exactly when the key is well-formed, so the emptiness test adds nothing |
| ApiKeyHook.BmpKeyValidity | frontend/src/hooks/useAPIKey.ts:33-37 | a key of Basic Multilingual Plane characters is rejected exactly when it has fewer than 20 characters or lacks the `sk-` prefix |
| ApiKeyHook.AstralKeyAccepted | frontend/src/hooks/useAPIKey.ts:34 | because `length` counts UTF-16 code units, some key with fewer than 20 characters is accepted |
| ApiKeyHook.KeyStore.constructor | frontend/src/hooks/useAPIKey.ts:6-7 | the hook starts with an empty key, not loaded |
| ApiKeyHook.KeyStore.Load | frontend/src/hooks/useAPIKey.ts:10-17 | a stored key is adopted only when present and non-empty; `isLoaded` becomes true in every case |
| ApiKeyHook.KeyStore.Save | frontend/src/hooks/useAPIKey.ts:20-24 | the key is stored verbatim under `openai_api_key`, unvalidated, and becomes the current key |
| ApiKeyHook.KeyStore.Delete | frontend/src/hooks/useAPIKey.ts:27-30 | the stored entry is removed and the key emptied, so the hook no longer reports a valid key |
| ApiKeyHook.SaveThenReload | frontend/src/hooks/useAPIKey.ts:10-24 | any saved key is the key a fresh mount over the same storage starts with; an empty key is skipped by the load and reads back empty |
| ApiKeyModal.SaveOutcomeOf | frontend/src/components/APIKeyModal.tsx:26-50 | `handleSave` makes either no callback or `onSave` with the trimmed text followed by `onClose`; the error is empty exactly when the callbacks are made |
| ApiKeyModal.SaveOutcomeSpec | frontend/src/components/APIKeyModal.tsx:26-50 | blank input gives the empty-key error and no callback; a badly formed untrimmed input gives the format error and no callback; `onSave` is called exactly for a well-formed input, with the trimmed text, followed by `onClose`, and the error is cleared |
| ApiKeyModal.ValidKeyNotBlank | frontend/src/components/APIKeyModal.tsx:27-37 | a well-formed key is never blank, so the blank check and the format check never both apply |
| ApiKeyModal.SavedKeyKeepsPrefix | frontend/src/components/APIKeyModal.tsx:37-42 | whatever `onSave` receives still starts with `sk-` |
| ApiKeyModal.PaddedKeySavedInvalid | frontend/src/components/APIKeyModal.tsx:37-42 | some input passes the untrimmed check and yet is saved, after trimming, as a key the hook judges invalid |
| ApiKeyModal.KeyDialog.constructor | frontend/src/components/APIKeyModal.tsx:19-22 | the field starts with the current key, or empty; no error, not validating |
| ApiKeyModal.KeyDialog.SetInput | frontend/src/components/APIKeyModal.tsx:106 | the key field's `onChange` makes the typed text the dialog's input |
| ApiKeyModal.KeyDialog.HandleSave | frontend/src/components/APIKeyModal.tsx:26-50 | the error and the callbacks are those of `SaveOutcomeOf` for the current text; `isValidating` is false on every path past the blank check |
| ApiKeyModal.KeyDialog.HandleKeyPress | frontend/src/components/APIKeyModal.tsx:52-58 | Enter does what `handleSave` does, error, callbacks and `isValidating` alike; Escape calls `onClose` only; any other key changes nothing |
| OpenAIClient.Messages | frontend/src/lib/openai.ts:21-112 | every generate method sends exactly two messages, system then user; the user message holds the input, holds the labelled instruction when there is one, and the custom prompt can be read back from it |
| OpenAIClient.Request | frontend/src/lib/openai.ts:122-134 | the request goes to the chat completions endpoint with `gpt-3.5-turbo`; the key can be read back from the `Bearer` header; there are two messages, system then user, and the custom prompt can be read back from the user message |
| OpenAIClient.ErrorMessage | frontend/src/lib/openai.ts:141 | the thrown message is never empty: the body's non-empty `error.message`, or else exactly `OpenAI API 오류: <status>`, from which the status can be read back |
| OpenAIClient.FirstChoiceContent | frontend/src/lib/openai.ts:146 | the content is never empty: the first choice's content, or else the fallback literal |
| OpenAIClient.RequestIdentifiesKind | frontend/src/lib/openai.ts:21-112 | requests for two different kinds never carry the same system message |
| OpenAIClient.StatusErrorRoundTrip | frontend/src/lib/openai.ts:141 | the generic status message `OpenAI API 오류: <status>` carries the status so it can be read back |
| OpenAIClient.Interpret | frontend/src/lib/openai.ts:138-150 | a network failure is rethrown as is; a non-OK status throws the body's non-empty `error.message`, else exactly `OpenAI API 오류: <status>`; an OK JSON reply never yields empty content, with the fallback literal when the first choice is missing or empty |
| OpenAIClient.Generate | frontend/src/lib/openai.ts:21-150 | the outcome is read from the reply to exactly `Request(apiKey, kind, text, customPrompt)`; a successful generate returns that reply's content with no sources, confidence 90 for questions and summaries and 85 for critical thinking, and the custom prompt echoed; every failure is passed on unchanged, with no retry |
| MemoPage.CurrentSelection | frontend/src/app/page.tsx:72-76 | an empty editor selection is stored as none; any other selection keeps its bounds |
| MemoPage.Anchor | frontend/src/app/page.tsx:137 | the anchor is absent exactly when there is no selection and is otherwise the selection's start |
| MemoPage.AnchorOfSelection | frontend/src/app/page.tsx:72-76 | a memo's anchor is the start of the last reported selection, and none when that selection was empty |
| MemoPage.GenerateMockResponse | frontend/src/app/page.tsx:156-200 | the mock is a total switch: never empty; the question and critical-thinking mocks contain the request's text verbatim; the summary mock is one fixed page |
| MemoPage.SummaryMockIgnoresContent | frontend/src/app/page.tsx:183-195 | any two summary requests get the same mock page |
| MemoPage.MockCompletion | frontend/src/app/page.tsx:119-126 | the mock metadata has sources exactly for summaries, the two fixed sources, confidence 85 for every kind, and the request's prompt as it came |
| MemoPage.UsesRealClient | frontend/src/app/page.tsx:101 | `hasValidAPIKey && apiKey` holds exactly for a well-formed key |
| MemoPage.RequestFor | frontend/src/app/page.tsx:104-111 | the request sent carries the memo request's kind in its system message and its text in the user message |
| MemoPage.Dispatch | frontend/src/app/page.tsx:98-130 | without a valid key the result is the mock; with one, the outcome is read from the reply to `RequestFor(apiKey, request)`, the completion client's request for the memo's kind, text and prompt (empty when absent), with a failure carried as the error's message |
| MemoPage.MockIgnoresNetwork | frontend/src/app/page.tsx:116-130 | without a valid key any two networks give the same outcome, so the network is never consulted |
| MemoPage.DispatchReadsOnlyItsReply | frontend/src/app/page.tsx:98-111 | two networks that answer the request sent alike give the same outcome |
| MemoPage.DispatchByKind | frontend/src/app/page.tsx:104-111 | memo requests of two different kinds never send the same request |
| MemoPage.MockNeverFails | frontend/src/app/page.tsx:116-130 | without a valid key the generation always succeeds and echoes the request's prompt |
| MemoPage.RemoveMemo | frontend/src/app/page.tsx:152-154 | no remaining memo has the deleted id, every remaining memo was in the list, and every memo with another id remains |
| MemoPage.RemoveMemoAppend | frontend/src/app/page.tsx:153 | deleting from a concatenation deletes from each part, so the order of the kept memos is preserved |
| MemoPage.RemoveAbsentMemo | frontend/src/app/page.tsx:153 | deleting an id that no memo has leaves the list unchanged |
| MemoPage.RemoveMemoIdempotent | frontend/src/app/page.tsx:153 | deleting the same id twice is deleting it once |
| MemoPage.RemoveNewMemo | frontend/src/app/page.tsx:142-154 | deleting a just-prepended memo whose id is new restores the previous list |
| MemoPage.Page.constructor | frontend/src/app/page.tsx:33-35 | the page starts with no memos, not loading, no selection |
| MemoPage.Page.OnSelectionUpdate | frontend/src/app/page.tsx:72-76 | the stored selection is the reported one, or none when it is empty |
| MemoPage.Page.EditorMounted | frontend/src/app/page.tsx:39-84 | once `useEditor` has produced an editor, the page has one |
| MemoPage.Page.Begin | frontend/src/app/page.tsx:85-88 | without an editor nothing is touched; otherwise `isLoading` is set before dispatch and the request, key and anchor are captured |
| MemoPage.Page.Finish | frontend/src/app/page.tsx:98-149 | on success one memo goes in front of the old list, with the request's kind, the result's content and metadata, the captured anchor and `current-document`; on failure the list is unchanged and the alert carries the error message; `isLoading` is cleared on both paths |
| MemoPage.Page.HandleGenerateMemo | frontend/src/app/page.tsx:85-150 | without an editor nothing changes; otherwise success prepends a memo of the request's kind and content at the selection's start, failure leaves the list and alerts, and loading ends false |
| MemoPage.Page.HandleDeleteMemo | frontend/src/app/page.tsx:152-154 | the list becomes the list with that id filtered out |
| AiPanel.MemoTitle | frontend/src/components/AIPanel.tsx:56-63 | the title is never empty, and a name that is not a kind gets `AI 메모` |
| AiPanel.MemoIcon | frontend/src/components/AIPanel.tsx:47-54 | the lightbulb is shown exactly for `critical-thinking` and the document icon exactly for `summary` |
| AiPanel.MemoTitleIdentifiesKind | frontend/src/components/AIPanel.tsx:56-63 | two kind names share a title exactly when they are equal or neither is a kind; only a non-kind gets the default `AI 메모` |
| AiPanel.MemoIconDefault | frontend/src/components/AIPanel.tsx:47-54 | the question icon is shown exactly for `qa` and for non-kinds |
| AiPanel.GenerateDisabled | frontend/src/components/AIPanel.tsx:186 | the button is disabled whenever loading, and otherwise exactly when the text is blank |
| AiPanel.RequestOf | frontend/src/components/AIPanel.tsx:37-41 | the request has the selected kind and the untrimmed text, and its prompt is absent exactly when the custom prompt is empty |
| AiPanel.RequestPromptRoundTrip | frontend/src/components/AIPanel.tsx:40 | the page's empty-string default for a missing prompt gives back the custom prompt as typed |
| AiPanel.GenerateAction | frontend/src/components/AIPanel.tsx:29-41 | blank text is ignored exactly; non-blank text without a valid key opens the key dialog exactly; otherwise the request is submitted |
| AiPanel.EnabledExactlyWhenHeard | frontend/src/components/AIPanel.tsx:186 | an enabled button's click is never ignored; while not loading, the button is disabled exactly when a click would be ignored |
| AiPanel.Panel.constructor | frontend/src/components/AIPanel.tsx:22-25 | the question kind is selected and both fields are empty |
| AiPanel.Panel.SelectKind | frontend/src/components/AIPanel.tsx:100-122 | a kind button's `onClick` makes that kind the selected one |
| AiPanel.Panel.SetContext | frontend/src/components/AIPanel.tsx:147 | the text area's `onChange` makes the typed text the context |
| AiPanel.Panel.SetCustomPrompt | frontend/src/components/AIPanel.tsx:172 | the prompt field's `onChange` makes the typed text the custom prompt |
| AiPanel.Panel.HandleGenerate | frontend/src/components/AIPanel.tsx:29-45 | blank text changes nothing; a missing valid key opens the dialog and keeps the text; otherwise the request goes out and both fields are emptied |
| AiService.SearchWeb | backend/app/services/ai_service.py:132-136 | the simulated search result quotes the query |
| AiService.ExtractSources | backend/app/services/ai_service.py:138-141 | two sources are returned |
| AiService.ExtractSourcesAreMockSources | backend/app/services/ai_service.py:138-161 | whatever the search results, the sources are the two that the canned summary names |
| AiService.Call | backend/app/services/ai_service.py:12-117 | each generator's user prompt holds the input, holds the labelled instruction when there is one, and the custom prompt can be read back from it |
| AiService.SummaryPromptQuotesSearch | backend/app/services/ai_service.py:16-31 | the summary prompt also quotes the search results for the content |
| AiService.Prefix50 | backend/app/services/ai_service.py:150 | `content[:50]` is the first 50 characters, or the whole of a shorter content |
| AiService.Mock | backend/app/services/ai_service.py:143-209 | every canned result is non-empty, echoes the custom prompt, has the operation's confidence, and names sources exactly for a summary |
| AiService.MockContents | backend/app/services/ai_service.py:143-209 | the canned summary holds `content[:50]` followed by `...`, and so the whole content when it is 50 characters or fewer; the canned brainstorm holds the topic; the canned publish output does not depend on the content |
| AiService.Generate | backend/app/services/ai_service.py:12-130 | the outcome is that of exactly `Call(kind, content, customPrompt)`; a raised call, or an empty choice list (which raises inside the same `try`), gives the canned result; a reply gives its first choice with the generator's sources and confidence |
| AiService.GenerateReadsOnlyItsCall | backend/app/services/ai_service.py:12-130 | two upstreams that answer the call made alike give the same result |
| AiService.CallIdentifiesKind | backend/app/services/ai_service.py:12-117 | the three operations make calls with different system messages |
| AiService.MetadataAgreesWithMock | backend/app/services/ai_service.py:45-209 | real or canned, the prompt is echoed, only summaries carry sources, and the sources and confidence equal the canned ones |
| Store.MemosOf | backend/app/api/ai_memos.py:15 | exactly the memos whose `document_id` is the given one, unchanged |
| Store.WithoutDocument | backend/app/models/document.py:18 | exactly the memos of other documents, unchanged |
| Store.CascadeSeparatesDocuments | backend/app/models/document.py:18 | after the cascade the document has no memos, every other document's memos are as before, and the removed and kept memos partition the table |
| Store.AssignAll | backend/app/api/ai_memos.py:117-119 | applying a list of assignments is applying the first to the row and then the rest to the row it leaves, as the `for` loop does |
| Store.ApplyUpdate | backend/app/api/ai_memos.py:117-119 | the `setattr` loop, shared by both update routes (also backend/app/api/documents.py:45-47), leaves the row as the sent assignments, applied in order, leave it |
| Store.Db.InsertMemo | backend/app/api/ai_memos.py:90-93 | a new memo gets a fresh id and nothing else changes |
| Store.Db.InsertDocument | backend/app/api/documents.py:28-31 | a new document gets a fresh id and nothing else changes |
| AiMemosApi.DraftFor | backend/app/api/ai_memos.py:25-80 | exactly the three known kind strings get a draft; question and critical-thinking drafts contain the request's text; every draft echoes the request's prompt, has no sources, and has confidence 85 for critical thinking and 90 otherwise |
| AiMemosApi.SummaryDraftIgnoresContent | backend/app/api/ai_memos.py:60-78 | any two summary requests get the same content |
| AiMemosApi.GenerateAiMemo | backend/app/api/ai_memos.py:18-104 | an unknown kind stores nothing and answers `success=False` with `400: Invalid AI memo type`; a known kind stores exactly one memo under a fresh id, for document 1, of the request's kind, without an anchor, and answers `success=True` |
| AiMemosApi.GetAiMemos | backend/app/api/ai_memos.py:12-16 | exactly the memos of the given document |
| AiMemosApi.UpdateItems | backend/app/schemas/ai_memo.py:14-16 | `exclude_unset` yields one assignment per field that was sent |
| AiMemosApi.UpdateChangesOnlySentFields | backend/app/api/ai_memos.py:113-123 | the content and metadata take the sent values, and every other field keeps its value |
| AiMemosApi.UpdateAiMemo | backend/app/api/ai_memos.py:106-123 | an unknown id gives 404 `AI memo not found` and no change; otherwise only that memo changes, as the loop leaves it |
| AiMemosApi.DeleteAiMemo | backend/app/api/ai_memos.py:125-134 | an unknown id gives 404 and no change; otherwise exactly that memo is removed |
| DocumentsApi.GetDocuments | backend/app/api/documents.py:11-15 | every stored document, unchanged |
| DocumentsApi.GetDocument | backend/app/api/documents.py:17-23 | an unknown id gives 404 `Document not found`; otherwise the document with exactly its memos |
| DocumentsApi.CreateDocument | backend/app/api/documents.py:25-32 | one document with the given title and content is added under a fresh id, with no owner, and existing documents are unchanged |
| DocumentsApi.UpdateItems | backend/app/schemas/document.py:12-14 | `exclude_unset` yields one assignment per field that was sent |
| DocumentsApi.UpdateChangesOnlySentFields | backend/app/api/documents.py:41-51 | the title and content take the sent values, and every other field keeps its value |
| DocumentsApi.UpdateDocument | backend/app/api/documents.py:34-51 | an unknown id gives 404 and no change; otherwise only that document changes, as the loop leaves it |
| DocumentsApi.DeleteDocument | backend/app/api/documents.py:53-62 | an unknown id gives 404 and no change; otherwise the document and, by cascade, exactly its memos are removed |
| Config.CorsOriginsList | backend/app/core/config.py:25-28 | one entry per comma-separated piece, that is one more than the number of commas, each the piece stripped, in order, with empty pieces kept and no entry holding a comma |
| Config.TrimHasNo | backend/app/core/config.py:28 | stripping adds no character that the piece lacked |
| Config.TrimUnpadded | backend/app/core/config.py:28 | stripping leaves an origin with no surrounding whitespace unchanged |
| Config.CorsOriginsRoundTrip | backend/app/core/config.py:28 | a list of comma-free, unpadded origins joined with commas parses back to the same list |
| Config.DefaultCorsOriginsList | backend/app/core/config.py:19-28 | the default setting yields `http://localhost:3000` and `http://127.0.0.1:3000`, in that order |

## Left out

- The network, local storage, `console` logging, `alert` and the 2000 ms mock delay are not modelled as effects. A function from request to reply, the storage map or the alert text stands in for each, and the delay is a no-op.
- `Date.now()` ids and `new Date()` or `server_default=func.now()` timestamps are parameters. The model does not assume that ids are unique.
- The unsupported-type `throw` in `handleGenerateMemo` (frontend/src/app/page.tsx:112-114) and the mock's `default` branch (frontend/src/app/page.tsx:197-198) cannot be reached with the closed `Kind` datatype, which the TypeScript types also enforce.
- Errors that are not `Error` objects, and so would show the `알 수 없는 오류` text, do not arise in the model. Every failure carries a message.
- Concurrency: overlapping submissions, interleaving across `await`, and stale closures beyond the captured request, key and anchor. `HandleGenerateMemo` is `Begin` followed directly by `Finish`.
- Text.Trim: only the six ASCII whitespace characters are stripped. JavaScript `trim` and Python `strip` also strip Unicode spaces such as U+00A0 and U+3000.
- OpenAIClient.Interpret: a JSON success body with no `choices` array, which raises a `TypeError`, is not modelled. The body always has a choice list.
- AiService.Generate: a choice whose `message.content` is `None` is not modelled. Choices are strings.
- The long Korean requirement lists and the mock HTML bodies are shortened to their headings and structure. The interpolated slots, labels, constants and system messages are exact.
- AiMemosApi.UpdateAiMemo: an update that explicitly sets `content` to null would fail the NOT NULL constraint at commit. It is not modelled: `content` is sent as a string or not at all.
- DocumentsApi.UpdateDocument: the `updated_at` column that the database refreshes on update is not modelled.
- DocumentsApi.UpdateDocument: an explicit `null` for `title` or `content`, which the update schema accepts (backend/app/schemas/document.py:12-14), is not modelled. A null `title` fails the NOT NULL constraint at commit and answers 500 with no change. A null `content` is committed, and then the response model rejects the row with a 500. The patch fields are strings sent or left out.
- The `AIRequest.context` field, the document `user_id` owner relation and the `users` table are not used by the modelled operations.
- No HTML escaping is modelled, because the source interpolates content raw.
- Rendering, JSX, icons as components, the TipTap editor, the `api.ts` fetch wrapper, `main.py` and settings loading from the environment are outside the core.
