/** The prompt templates of the completion client and of the backend service share
    one shape: fixed text, the user's input, fixed text, an optional
    "additional instructions" line, fixed text. */
module Prompting {
  import opened Wrappers
  import opened Text

  /** The label in front of the user's extra instructions. */
  const InstructionLabel: string := "추가 지시사항: "

  /** The instruction slot: the labelled instruction, or nothing when the custom
      prompt is empty (`customPrompt ? ... : ''`, `... if custom_prompt else ""`). */
  function InstructionLine(customPrompt: string): (line: string)
    ensures line == "" <==> customPrompt == ""
    ensures customPrompt != "" ==> StartsWith(line, InstructionLabel) && line[|InstructionLabel|..] == customPrompt
  {
    if customPrompt == "" then "" else InstructionLabel + customPrompt
  }

  /** Reads the custom prompt back out of an instruction slot. */
  function ReadInstruction(line: string): Option<string>
  {
    if line == "" then Some("")
    else if StartsWith(line, InstructionLabel) && |line| > |InstructionLabel| then Some(line[|InstructionLabel|..])
    else None
  }

  lemma ReadInstructionLine(customPrompt: string)
    ensures ReadInstruction(InstructionLine(customPrompt)) == Some(customPrompt)
  {
    if customPrompt != "" {
      assert |InstructionLine(customPrompt)| == |InstructionLabel| + |customPrompt|;
    }
  }

  /** The fixed parts of a template: before the input, between the input and the
      instruction slot, and after the slot. */
  datatype Template = Template(head: string, mid: string, tail: string)

  /** Fills a template. The filled prompt always holds the input, holds the labelled
      instruction exactly when the custom prompt is non-empty, and otherwise is the
      template without any instruction text. */
  function Fill(t: Template, text: string, customPrompt: string): (prompt: string)
    ensures Contains(prompt, text)
    ensures customPrompt != "" ==> Contains(prompt, InstructionLabel + customPrompt)
    ensures customPrompt == "" ==> prompt == t.head + text + t.mid + t.tail
    ensures |prompt| == |t.head| + |text| + |t.mid| + |t.tail|
                        + (if customPrompt == "" then 0 else |InstructionLabel| + |customPrompt|)
  {
    var line := InstructionLine(customPrompt);
    ContainsInfix(t.head, text, t.mid + line + t.tail);
    assert t.head + text + (t.mid + line + t.tail) == t.head + text + t.mid + line + t.tail;
    ContainsInfix(t.head + text + t.mid, line, t.tail);
    t.head + text + t.mid + line + t.tail
  }

  /** Reads the custom prompt back out of a filled template, given the input. */
  function ReadCustomPrompt(t: Template, text: string, prompt: string): Option<string>
  {
    var front := t.head + text + t.mid;
    if StartsWith(prompt, front) && |front| + |t.tail| <= |prompt| && EndsWith(prompt, t.tail)
    then ReadInstruction(prompt[|front|..|prompt| - |t.tail|])
    else None
  }

  /** Filling loses nothing: the custom prompt can be recovered from the prompt, so
      different custom prompts give different prompts. */
  lemma FillRoundTrip(t: Template, text: string, customPrompt: string)
    ensures ReadCustomPrompt(t, text, Fill(t, text, customPrompt)) == Some(customPrompt)
  {
    var front := t.head + text + t.mid;
    var line := InstructionLine(customPrompt);
    var prompt := Fill(t, text, customPrompt);
    assert prompt == front + line + t.tail;
    assert prompt[..|front|] == front;
    assert prompt[|prompt| - |t.tail|..] == t.tail;
    assert prompt[|front|..|prompt| - |t.tail|] == line;
    ReadInstructionLine(customPrompt);
  }
}
