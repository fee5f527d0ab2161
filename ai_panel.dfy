/** The AI side panel (frontend/src/components/AIPanel.tsx): the submit guard of
    the generate button, its enablement, and the kind-to-title and kind-to-icon
    mappings. The memo kind arrives at the mappings as a plain string. */
module AiPanel {
  import opened Wrappers
  import opened Text
  import opened MemoTypes

  /** The three icons a memo can carry. */
  datatype Icon = Brain | Lightbulb | FileText

  const DefaultTitle: string := "AI 메모"

  /** `getMemoIcon`: one icon per kind, the question icon for anything else. The
      lightbulb and the document icon each belong to exactly one kind. */
  function MemoIcon(kindName: string): (icon: Icon)
    ensures icon == Lightbulb <==> ParseKind(kindName) == Some(CriticalThinking)
    ensures icon == FileText <==> ParseKind(kindName) == Some(Summary)
  {
    if kindName == "qa" then Brain
    else if kindName == "critical-thinking" then Lightbulb
    else if kindName == "summary" then FileText
    else Brain
  }

  /** `getMemoTitle`: one title per kind, the generic title for anything else;
      never an empty title. */
  function MemoTitle(kindName: string): (title: string)
    ensures title != ""
    ensures ParseKind(kindName).None? ==> title == DefaultTitle
  {
    if kindName == "qa" then "질의응답"
    else if kindName == "critical-thinking" then "비판 및 창의적 사고"
    else if kindName == "summary" then "요약 및 정리"
    else DefaultTitle
  }

  /** The title tells the kinds apart: two kind names share a title exactly when
      they are the same name or neither is a kind, and a kind's title is never the
      generic one. */
  lemma MemoTitleIdentifiesKind(a: string, b: string)
    ensures MemoTitle(a) == MemoTitle(b) <==> a == b || (ParseKind(a).None? && ParseKind(b).None?)
    ensures MemoTitle(a) == DefaultTitle <==> ParseKind(a).None?
  {
  }

  /** The icon does not tell the kinds apart the same way: an unknown name shows the
      question icon, and only the question kind and unknown names share it. */
  lemma MemoIconDefault(kindName: string)
    ensures MemoIcon(kindName) == Brain <==> kindName == "qa" || ParseKind(kindName).None?
    ensures ParseKind(kindName).Some? && ParseKind(kindName).value != QA ==> MemoIcon(kindName) != Brain
  {
  }

  /** `disabled={isLoading || !context.trim()}`: while loading the button is always
      disabled, otherwise exactly when the text is blank. */
  function GenerateDisabled(isLoading: bool, context: string): (disabled: bool)
    ensures isLoading ==> disabled
    ensures !isLoading ==> (disabled <==> IsBlank(context))
  {
    isLoading || Trim(context) == ""
  }

  /** `{ type, content, prompt: customPrompt || undefined }`: the text is sent
      untrimmed and an empty custom prompt is sent as no prompt. */
  function RequestOf(kind: Kind, context: string, customPrompt: string): (r: AIRequest)
    ensures r.kind == kind && r.content == context
    ensures r.prompt.None? <==> customPrompt == ""
    ensures r.prompt.Some? ==> r.prompt.value == customPrompt
  {
    AIRequest(kind, context, if customPrompt == "" then None else Some(customPrompt))
  }

  /** The page reads the prompt back with `request.prompt || ''`, which gives the
      custom prompt as typed: nothing is lost between panel and client. */
  lemma RequestPromptRoundTrip(kind: Kind, context: string, customPrompt: string)
    ensures RequestOf(kind, context, customPrompt).prompt.GetOr("") == customPrompt
  {
  }

  /** What a click on the generate button leads to. */
  datatype Action = Ignored | AskForKey | Submit(request: AIRequest)

  /** `handleGenerate`'s decision: blank text is ignored, a missing valid key opens
      the key dialog, anything else submits the request. */
  function GenerateAction(kind: Kind, context: string, customPrompt: string, hasValidKey: bool): (a: Action)
    ensures a.Ignored? <==> IsBlank(context)
    ensures a.AskForKey? <==> !IsBlank(context) && !hasValidKey
    ensures a.Submit? ==> a.request == RequestOf(kind, context, customPrompt) && Contains(a.request.content, Trim(context))
  {
    TrimSpec(context);
    if Trim(context) == "" then Ignored
    else if !hasValidKey then AskForKey
    else Submit(RequestOf(kind, context, customPrompt))
  }

  /** While nothing is loading, the button is disabled exactly when a click would be
      ignored; an enabled button never has its click ignored. */
  lemma EnabledExactlyWhenHeard(kind: Kind, context: string, customPrompt: string, hasValidKey: bool, isLoading: bool)
    ensures !GenerateDisabled(isLoading, context) ==> !GenerateAction(kind, context, customPrompt, hasValidKey).Ignored?
    ensures !isLoading ==>
              (GenerateDisabled(isLoading, context) <==> GenerateAction(kind, context, customPrompt, hasValidKey).Ignored?)
  {
    TrimSpec(context);
  }

  /** The panel's own state. */
  class Panel {
    var selectedKind: Kind
    var customPrompt: string
    var context: string
    var showAPIKeyModal: bool

    /** The question kind is selected first; both text fields are empty. */
    constructor ()
      ensures selectedKind == QA && customPrompt == "" && context == "" && !showAPIKeyModal
    {
      selectedKind := QA;
      customPrompt := "";
      context := "";
      showAPIKeyModal := false;
    }

    method SelectKind(kind: Kind)
      modifies this`selectedKind
      ensures selectedKind == kind
    {
      selectedKind := kind;
    }

    method SetContext(text: string)
      modifies this`context
      ensures context == text
    {
      context := text;
    }

    method SetCustomPrompt(text: string)
      modifies this`customPrompt
      ensures customPrompt == text
    {
      customPrompt := text;
    }

    /** `handleGenerate`: returns the request handed to `onGenerateMemo`, if any.
        Blank text changes nothing; without a valid key the dialog opens and the text
        stays; otherwise the request goes out and both text fields are emptied. */
    method HandleGenerate(hasValidKey: bool) returns (sent: Option<AIRequest>)
      modifies this`showAPIKeyModal, this`context, this`customPrompt
      ensures GenerateAction(selectedKind, old(context), old(customPrompt), hasValidKey).Ignored? ==>
                sent == None && context == old(context) && customPrompt == old(customPrompt)
                && showAPIKeyModal == old(showAPIKeyModal)
      ensures GenerateAction(selectedKind, old(context), old(customPrompt), hasValidKey).AskForKey? ==>
                sent == None && showAPIKeyModal && context == old(context) && customPrompt == old(customPrompt)
      ensures GenerateAction(selectedKind, old(context), old(customPrompt), hasValidKey).Submit? ==>
                sent == Some(GenerateAction(selectedKind, old(context), old(customPrompt), hasValidKey).request)
                && context == "" && customPrompt == "" && showAPIKeyModal == old(showAPIKeyModal)
    {
      if Trim(context) == "" {
        return None;
      }
      if !hasValidKey {
        showAPIKeyModal := true;
        return None;
      }
      sent := Some(RequestOf(selectedKind, context, customPrompt));
      context := "";
      customPrompt := "";
    }
  }
}
