/** The display-name tables of the older generation (OpenClawManager's
    `CloudModels`). They hold the same entries as the current generation's. */
module ManagerModelDisplay {
  import opened Common
  import KitModelDisplay

  /** `CloudModels.knownProviders`. */
  const KnownProviders: map<string, string> := map[
    "anthropic" := "Anthropic",
    "google-gemini-cli" := "Google Gemini",
    "openai" := "OpenAI",
    "openrouter" := "OpenRouter",
    "groq" := "Groq",
    "zai" := "Z.ai"
  ]

  /** The model-id table local to `getDisplayName`. */
  const ModelMap: map<string, string> := map[
    "gemini-3-pro-preview" := "Gemini 3.0 Pro",
    "gemini-3-flash" := "Gemini 3.0 Flash",
    "claude-opus-4-5" := "Claude Opus 4.5",
    "claude-sonnet-4-5" := "Claude Sonnet 4.5",
    "claude-sonnet-4-7" := "Claude Sonnet 4.7",
    "gpt-4o-mini" := "GPT-4o Mini",
    "llama-3.3-70b-versatile" := "Llama 3.3 70B",
    "qwen2.5-coder:14b" := "Qwen 2.5 Coder 14B",
    "qwen2.5:7b" := "Qwen 2.5 7B",
    "glm-4.7" := "GLM-4.7"
  ]

  /** `getDisplayName(from:)`: the label of the lower-cased id, or the id as given. */
  function GetDisplayName(modelId: string): (r: string)
    ensures ToLower(modelId) in ModelMap ==> r == ModelMap[ToLower(modelId)]
    ensures ToLower(modelId) !in ModelMap ==> r == modelId
  {
    LookupOr(ModelMap, ToLower(modelId), modelId)
  }

  /** Both generations label the same six providers alike. */
  lemma ProvidersSameAsKit()
    ensures KnownProviders == KitModelDisplay.KnownProviders
    ensures |KnownProviders.Keys| == 6
  {
  }

  /** Both generations give every model id the same display name. */
  lemma DisplayNamesSameAsKit(modelId: string)
    ensures GetDisplayName(modelId) == KitModelDisplay.GetDisplayName(modelId)
  {
    assert ModelMap == KitModelDisplay.ModelMap;
  }

  /** Lookup ignores letter case: two ids that differ only in case get the same
      label when their common lower-case form is a key. */
  lemma DisplayNameIgnoresCase(a: string, b: string)
    requires EqualIgnoringCase(a, b) && ToLower(a) in ModelMap
    ensures GetDisplayName(a) == GetDisplayName(b)
  {
    EqualIgnoringCaseLowers(a, b);
  }
}
