/** The display-name tables of the current generation (OpenClawKit's
    `CloudModels`): labels for known provider names and for known model ids. */
module KitModelDisplay {
  import opened Common

  /** `CloudModels.knownProviders`. */
  const KnownProviders: map<string, string> := map[
    "anthropic" := "Anthropic",
    "google-gemini-cli" := "Google Gemini",
    "openai" := "OpenAI",
    "openrouter" := "OpenRouter",
    "groq" := "Groq",
    "zai" := "Z.ai"
  ]

  /** The model-id table local to `getDisplayName`. */
  const ModelMap: map<string, string> := map[
    "gemini-3-pro-preview" := "Gemini 3.0 Pro",
    "gemini-3-flash" := "Gemini 3.0 Flash",
    "claude-opus-4-5" := "Claude Opus 4.5",
    "claude-sonnet-4-5" := "Claude Sonnet 4.5",
    "claude-sonnet-4-7" := "Claude Sonnet 4.7",
    "gpt-4o-mini" := "GPT-4o Mini",
    "llama-3.3-70b-versatile" := "Llama 3.3 70B",
    "qwen2.5-coder:14b" := "Qwen 2.5 Coder 14B",
    "qwen2.5:7b" := "Qwen 2.5 7B",
    "glm-4.7" := "GLM-4.7"
  ]

  /** `getDisplayName(from:)`: the label of the lower-cased id, or the id as given. */
  function GetDisplayName(modelId: string): (r: string)
    ensures ToLower(modelId) in ModelMap ==> r == ModelMap[ToLower(modelId)]
    ensures ToLower(modelId) !in ModelMap ==> r == modelId
  {
    LookupOr(ModelMap, ToLower(modelId), modelId)
  }

  /** Every key of both tables is already in lower case, so each key is found
      under its own spelling. */
  lemma TableKeysAreLowerCase()
    ensures forall k :: k in ModelMap ==> ToLower(k) == k
    ensures forall k :: k in KnownProviders ==> ToLower(k) == k
  {
    ModelKeysAreLowerCase();
    ProviderKeysAreLowerCase();
  }

  lemma ModelKeysAreLowerCase()
    ensures forall k :: k in ModelMap ==> ToLower(k) == k
  {
    forall k | k in ModelMap
      ensures ToLower(k) == k
    {
      if IsGeminiOrClaudeKey(k) {
        GeminiAndClaudeKeysAreLowerCase(k);
      } else {
        OtherModelKeysAreLowerCase(k);
      }
      LowerCaseFixed(k);
    }
  }

  predicate IsGeminiOrClaudeKey(k: string) {
    k == "gemini-3-pro-preview" || k == "gemini-3-flash" || k == "claude-opus-4-5"
    || k == "claude-sonnet-4-5" || k == "claude-sonnet-4-7"
  }

  lemma GeminiAndClaudeKeysAreLowerCase(k: string)
    requires IsGeminiOrClaudeKey(k)
    ensures NoUpperCase(k)
  {
  }

  lemma OtherModelKeysAreLowerCase(k: string)
    requires k in ModelMap && !IsGeminiOrClaudeKey(k)
    ensures NoUpperCase(k)
  {
  }

  lemma ProviderKeysAreLowerCase()
    ensures forall k :: k in KnownProviders ==> ToLower(k) == k
  {
    forall k | k in KnownProviders
      ensures ToLower(k) == k
    {
      assert NoUpperCase(k);
      LowerCaseFixed(k);
    }
  }

  /** A table id, spelled in any letter case, gets the table's label. */
  lemma KnownIdsGetTheirLabel(modelId: string, key: string)
    requires key in ModelMap && EqualIgnoringCase(modelId, key)
    ensures GetDisplayName(modelId) == ModelMap[key]
  {
    EqualIgnoringCaseLowers(modelId, key);
    TableKeysAreLowerCase();
  }

  /** Lookup ignores letter case: two ids that differ only in case get the same
      label when their common lower-case form is a key. */
  lemma DisplayNameIgnoresCase(a: string, b: string)
    requires EqualIgnoringCase(a, b) && ToLower(a) in ModelMap
    ensures GetDisplayName(a) == GetDisplayName(b)
  {
    EqualIgnoringCaseLowers(a, b);
  }

  /** Exactly six provider names have a label; any other name has none. */
  lemma SixKnownProviders(name: string)
    ensures |KnownProviders.Keys| == 6
    ensures name in KnownProviders <==> name in {"anthropic", "google-gemini-cli", "openai", "openrouter", "groq", "zai"}
  {
  }

  lemma ClaudeOpusExample()
    ensures GetDisplayName("claude-opus-4-5") == "Claude Opus 4.5"
    ensures GetDisplayName("Claude-Opus-4-5") == "Claude Opus 4.5"
  {
    assert ToLower("claude-opus-4-5") == "claude-opus-4-5";
    assert ToLower("Claude-Opus-4-5") == "claude-opus-4-5";
  }
}
