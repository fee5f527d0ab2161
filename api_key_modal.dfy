/** The key dialog's save and key-press handlers
    (frontend/src/components/APIKeyModal.tsx). The dialog checks the text as
    typed but hands the trimmed text to `onSave`. */
module ApiKeyModal {
  import opened Text
  import opened Wrappers
  import opened ApiKeyHook

  const EmptyKeyError: string := "API 키를 입력해주세요."
  const FormatError: string := "올바른 OpenAI API 키 형식이 아닙니다."

  /** A call the dialog makes to its parent: `onSave(key)` or `onClose()`. */
  datatype Callback = Saved(key: string) | Closed

  /** What one `handleSave` leaves behind: the error text shown and the callbacks
      made, in order. */
  datatype SaveOutcome = SaveOutcome(error: string, calls: seq<Callback>)

  /** `handleSave` as a value: the error it leaves and the callbacks it makes. The
      length is JavaScript's, in UTF-16 code units. Either no callback is made, or
      `onSave` with the trimmed text and then `onClose`; the error is empty exactly
      when the callbacks are made. */
  function SaveOutcomeOf(input: string): (o: SaveOutcome)
    ensures o.calls == [] || o.calls == [Saved(Trim(input)), Closed]
    ensures o.error == "" <==> o.calls != []
  {
    if Trim(input) == "" then SaveOutcome(EmptyKeyError, [])
    else if !StartsWith(input, KeyPrefix) || Utf16Length(input) < MinKeyLength then SaveOutcome(FormatError, [])
    else SaveOutcome("", [Saved(Trim(input)), Closed])
  }

  /** Blank input is refused before validation starts; a badly formatted input
      (judged untrimmed) is refused with the format error; a key is handed to
      `onSave` exactly when the typed text is well-formed, and then the error is
      cleared, the trimmed key is saved and the dialog closes, in that order. */
  lemma SaveOutcomeSpec(input: string)
    ensures IsBlank(input) ==> SaveOutcomeOf(input) == SaveOutcome(EmptyKeyError, [])
    ensures !IsBlank(input) && !IsValidAPIKey(input) ==> SaveOutcomeOf(input) == SaveOutcome(FormatError, [])
    ensures SaveOutcomeOf(input).calls != [] <==> IsValidAPIKey(input)
    ensures IsValidAPIKey(input) ==> SaveOutcomeOf(input) == SaveOutcome("", [Saved(Trim(input)), Closed])
  {
    ValidKeyNotBlank(input);
    TrimSpec(input);
  }

  /** A well-formed key starts with a non-space character, so it is never blank. */
  lemma ValidKeyNotBlank(key: string)
    ensures IsValidAPIKey(key) ==> !IsBlank(key)
  {
    if IsValidAPIKey(key) {
      assert !IsSpace(key[0]);
    }
  }

  /** A saved key always keeps the "sk-" prefix, because a key that passed the
      check starts with it and trimming cannot reach into it. */
  lemma SavedKeyKeepsPrefix(input: string)
    requires SaveOutcomeOf(input).calls != []
    ensures StartsWith(SaveOutcomeOf(input).calls[0].key, KeyPrefix)
  {
    assert !IsSpace(KeyPrefix[0]) && !IsSpace(KeyPrefix[1]) && !IsSpace(KeyPrefix[2]);
    TrimKeepsPrefix(input, KeyPrefix);
  }

  /** The check runs on the untrimmed text, so a key padded with trailing spaces
      passes it and is then saved too short to be valid. */
  lemma PaddedKeySavedInvalid()
    ensures exists input :: SaveOutcomeOf(input).calls != []
                            && !IsValidAPIKey(SaveOutcomeOf(input).calls[0].key)
  {
    PaddedKey("sk-0123456789abcdef ", "sk-0123456789abcdef");
  }

  /** The witness: twenty characters with a trailing space, saved as nineteen. The
      two strings come in as parameters pinned by `requires`, not as local
      constants, because the verifier unfolds functions applied to literal strings
      all the way down, and on these strings that exceeds its resource limit. */
  lemma PaddedKey(input: string, saved: string)
    requires input == "sk-0123456789abcdef " && saved == "sk-0123456789abcdef"
    ensures SaveOutcomeOf(input).calls != [] && SaveOutcomeOf(input).calls[0].key == saved
    ensures !IsValidAPIKey(saved)
  {
    assert Trim(input) == saved by {
      assert LeadingSpaces(input) == 0;
      assert TrailingStart(input) == 19 by {
        assert IsSpace(input[19]);
        assert TrailingStart(input) == TrailingStart(input[..19]);
        assert input[..19][18] == 'f';
      }
    }
    assert IsValidAPIKey(input) by {
      assert StartsWith(input, KeyPrefix);
    }
    BmpKeyValidity(saved);
    SaveOutcomeSpec(input);
  }

  /** The dialog's state: the text field, the error text, the validating flag and
      the callbacks made so far. */
  class KeyDialog {
    var input: string
    var error: string
    var isValidating: bool
    var calls: seq<Callback>

    /** `useState(currentApiKey || '')`: the field starts with the current key. */
    constructor (currentApiKey: Option<string>)
      ensures input == currentApiKey.GetOr("") && error == "" && !isValidating && calls == []
    {
      input := currentApiKey.GetOr("");
      error := "";
      isValidating := false;
      calls := [];
    }

    /** Typing into the field. */
    method SetInput(text: string)
      modifies this`input
      ensures input == text
    {
      input := text;
    }

    /** `handleSave`, step by step: the blank check, then the validating flag and a
        cleared error, the format check on the untrimmed text, `onSave` with the
        trimmed text and `onClose`; the flag is cleared on every path past the
        blank check. */
    method HandleSave()
      modifies this`error, this`isValidating, this`calls
      ensures error == SaveOutcomeOf(input).error
      ensures calls == old(calls) + SaveOutcomeOf(input).calls
      ensures isValidating == if Trim(input) == "" then old(isValidating) else false
    {
      var trimmed := Trim(input);
      if trimmed == "" {
        error := EmptyKeyError;
        assert calls == old(calls) + [];
        return;
      }
      isValidating := true;
      error := "";
      if !StartsWith(input, KeyPrefix) || Utf16Length(input) < MinKeyLength {
        error := FormatError;
        assert calls == old(calls) + [];
      } else {
        calls := calls + [Saved(trimmed)];
        calls := calls + [Closed];
        assert calls == old(calls) + [Saved(trimmed), Closed];
      }
      isValidating := false;
    }

    /** `handleKeyPress`: Enter saves, Escape closes, any other key does nothing. */
    method HandleKeyPress(key: string)
      modifies this`error, this`isValidating, this`calls
      ensures key == "Enter" ==> error == SaveOutcomeOf(input).error
                                 && calls == old(calls) + SaveOutcomeOf(input).calls
                                 && isValidating == if Trim(input) == "" then old(isValidating) else false
      ensures key == "Escape" ==> calls == old(calls) + [Closed] && error == old(error)
                                  && isValidating == old(isValidating)
      ensures key != "Enter" && key != "Escape" ==>
                calls == old(calls) && error == old(error) && isValidating == old(isValidating)
    {
      if key == "Enter" {
        HandleSave();
      } else if key == "Escape" {
        calls := calls + [Closed];
      }
    }
  }
}
