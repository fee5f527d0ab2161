/** The API key hook (frontend/src/hooks/useAPIKey.ts): a format predicate and the
    key held in component state, mirrored into the browser's local storage. */
module ApiKeyHook {
  import opened Text

  /** The local-storage entry the key is kept under. */
  const StorageKey: string := "openai_api_key"

  /** The prefix and the minimum length of a well-formed OpenAI key. */
  const KeyPrefix: string := "sk-"
  const MinKeyLength: nat := 20

  /** `isValidAPIKey`: the key starts with "sk-" and its JavaScript `length`, which
      counts UTF-16 code units, is at least 20. A valid key begins `s`, `k`, `-` and
      has at least ten characters; any key of twenty characters or more with the
      prefix is valid. */
  function IsValidAPIKey(key: string): (r: bool)
    ensures r ==> |key| >= MinKeyLength / 2 && key[0] == 's' && key[1] == 'k' && key[2] == '-'
    ensures StartsWith(key, KeyPrefix) && |key| >= MinKeyLength ==> r
  {
    StartsWith(key, KeyPrefix) && Utf16Length(key) >= MinKeyLength
  }

  /** `hasValidAPIKey = apiKey && isValidAPIKey(apiKey)`: the emptiness test adds
      nothing, because no valid key is empty. */
  function HasValidAPIKey(apiKey: string): (r: bool)
    ensures r <==> IsValidAPIKey(apiKey)
    ensures apiKey == "" ==> !r
  {
    apiKey != "" && IsValidAPIKey(apiKey)
  }

  /** For a key of Basic Multilingual Plane characters, such as every key OpenAI
      issues, the code-unit count is the character count: the key is rejected exactly
      when it is shorter than 20 characters or lacks the prefix. */
  lemma BmpKeyValidity(key: string)
    requires forall i :: 0 <= i < |key| ==> key[i] as int < 0x1_0000
    ensures !IsValidAPIKey(key) <==> |key| < MinKeyLength || !StartsWith(key, KeyPrefix)
  {
    Utf16LengthOfBmp(key);
  }

  /** Characters outside the Basic Multilingual Plane count twice: the prefix and
      nine emoji make twelve characters, and the check accepts them. */
  lemma AstralKeyAccepted()
    ensures exists key :: IsValidAPIKey(key) && |key| < MinKeyLength
  {
    var e := '\U{1F600}';
    var key := KeyPrefix + [e, e, e, e, e, e, e, e, e];
    Utf16LengthOfBmp(KeyPrefix);
    Utf16LengthOfAstral([e, e, e, e, e, e, e, e, e]);
    Utf16LengthAppend(KeyPrefix, [e, e, e, e, e, e, e, e, e]);
    assert IsValidAPIKey(key);
  }

  /** The hook's state: `apiKey` and `isLoaded`, and the local storage it writes. */
  class KeyStore {
    var storage: map<string, string>
    var apiKey: string
    var isLoaded: bool

    /** The first render: empty key, not loaded yet, storage as the browser has it. */
    constructor (initialStorage: map<string, string>)
      ensures storage == initialStorage && apiKey == "" && !isLoaded
    {
      storage := initialStorage;
      apiKey := "";
      isLoaded := false;
    }

    /** The mount effect: a stored key is adopted when present and non-empty; the
        hook is marked loaded in every case. */
    method Load()
      modifies this`apiKey, this`isLoaded
      ensures isLoaded
      ensures apiKey == if StorageKey in storage && storage[StorageKey] != "" then storage[StorageKey] else old(apiKey)
    {
      if StorageKey in storage {
        var stored := storage[StorageKey];
        if stored != "" {
          apiKey := stored;
        }
      }
      isLoaded := true;
    }

    /** `saveAPIKey`: stores the key verbatim, without checking its format. */
    method Save(newApiKey: string)
      modifies this`storage, this`apiKey
      ensures storage == old(storage)[StorageKey := newApiKey]
      ensures apiKey == newApiKey
    {
      storage := storage[StorageKey := newApiKey];
      apiKey := newApiKey;
    }

    /** `deleteAPIKey`: removes the stored entry and empties the key, so the hook no
        longer reports a valid key. */
    method Delete()
      modifies this`storage, this`apiKey
      ensures storage == old(storage) - {StorageKey}
      ensures apiKey == "" && !HasValidAPIKey(apiKey)
    {
      storage := storage - {StorageKey};
      apiKey := "";
    }
  }

  /** A saved key is what the next session starts with: saving and then mounting
      the hook afresh over the same storage yields the saved key. An empty key is
      skipped by the load and so reads back as the empty key too. */
  method SaveThenReload(initialStorage: map<string, string>, key: string) returns (reloaded: string)
    ensures reloaded == key
  {
    var first := new KeyStore(initialStorage);
    first.Save(key);
    var second := new KeyStore(first.storage);
    second.Load();
    reloaded := second.apiKey;
  }
}
