/** The parts of the typed configuration that both generations of the schema
    (OpenClawKit and OpenClawManager) declare with the same fields and the same
    optionality: model providers and their models, the agent defaults (the only
    part the application edits), tools, messages, commands and hooks. Each struct
    comes with the decoder `JSONDecoder` derives for it. */
module SchemaParts {
  import opened Common
  import opened JsonTree
  import opened Decoding

  /** Per-token prices. The source's `Double` fields are integers here. */
  datatype Cost = Cost(input: int, output: int, cacheRead: int, cacheWrite: int)

  /** A model declared under a provider: `id` and `name` are required. */
  datatype Model = Model(
    id: string,
    name: string,
    reasoning: Option<bool>,
    input: Option<seq<string>>,
    cost: Option<Cost>,
    contextWindow: Option<int>,
    maxTokens: Option<int>)

  /** A model provider: only the list of models is required. */
  datatype Provider = Provider(
    baseUrl: Option<string>,
    apiKey: Option<string>,
    api: Option<string>,
    models: seq<Model>)

  /** `agents.defaults.model`: the primary model and the ordered fallbacks. */
  datatype ModelConfig = ModelConfig(primary: string, fallbacks: seq<string>)

  datatype ModelAlias = ModelAlias(alias: Option<string>)

  /** `agents.defaults`: the model selection is required; the alias map `models`
      and `workspace` are optional. */
  datatype Defaults = Defaults(
    model: ModelConfig,
    models: Option<map<string, ModelAlias>>,
    workspace: Option<string>)

  datatype Agents = Agents(defaults: Defaults)

  datatype Search = Search(apiKey: string)
  datatype Web = Web(search: Option<Search>)
  datatype Tools = Tools(web: Option<Web>)

  datatype Messages = Messages(ackReactionScope: Option<string>)

  datatype Commands = Commands(native: Option<string>, nativeSkills: Option<string>)

  datatype HookEntry = HookEntry(enabled: bool)
  datatype InternalHooks = InternalHooks(enabled: bool, entries: Option<map<string, HookEntry>>)
  datatype Hooks = Hooks(internal: Option<InternalHooks>)

  // ---------------------------------------------------------------------------
  // Decoders

  function DecodeCost(j: Json): Option<Cost> {
    if !j.JObj? then None
    else
      var m := j.fields;
      var input :- Number(At(m, "input"));
      var output :- Number(At(m, "output"));
      var cacheRead :- Number(At(m, "cacheRead"));
      var cacheWrite :- Number(At(m, "cacheWrite"));
      Some(Cost(input, output, cacheRead, cacheWrite))
  }

  function DecodeModel(j: Json): (r: Option<Model>)
    ensures r.Some? ==> j.JObj? && Str(At(j.fields, "id")) == Some(r.value.id)
                        && Str(At(j.fields, "name")) == Some(r.value.name)
  {
    if !j.JObj? then None
    else
      var m := j.fields;
      var id :- Str(At(m, "id"));
      var name :- Str(At(m, "name"));
      var reasoning :- Optional(At(m, "reasoning"), Bool);
      var input :- Optional(At(m, "input"), x => Array(x, Str));
      var cost :- Optional(At(m, "cost"), DecodeCost);
      var contextWindow :- Optional(At(m, "contextWindow"), Int);
      var maxTokens :- Optional(At(m, "maxTokens"), Int);
      Some(Model(id, name, reasoning, input, cost, contextWindow, maxTokens))
  }

  function DecodeProvider(j: Json): (r: Option<Provider>)
    ensures r.Some? ==> j.JObj? && Array(At(j.fields, "models"), DecodeModel) == Some(r.value.models)
  {
    if !j.JObj? then None
    else
      var m := j.fields;
      var baseUrl :- Optional(At(m, "baseUrl"), Str);
      var apiKey :- Optional(At(m, "apiKey"), Str);
      var api :- Optional(At(m, "api"), Str);
      var models :- Array(At(m, "models"), DecodeModel);
      Some(Provider(baseUrl, apiKey, api, models))
  }

  function DecodeModelConfig(j: Json): Option<ModelConfig> {
    if !j.JObj? then None
    else
      var m := j.fields;
      var primary :- Str(At(m, "primary"));
      var fallbacks :- Array(At(m, "fallbacks"), Str);
      Some(ModelConfig(primary, fallbacks))
  }

  function DecodeModelAlias(j: Json): Option<ModelAlias> {
    if !j.JObj? then None
    else
      var alias :- Optional(At(j.fields, "alias"), Str);
      Some(ModelAlias(alias))
  }

  function DecodeDefaults(j: Json): Option<Defaults> {
    if !j.JObj? then None
    else
      var m := j.fields;
      var model :- DecodeModelConfig(At(m, "model"));
      var models :- Optional(At(m, "models"), x => Dict(x, DecodeModelAlias));
      var workspace :- Optional(At(m, "workspace"), Str);
      Some(Defaults(model, models, workspace))
  }

  function DecodeAgents(j: Json): Option<Agents> {
    if !j.JObj? then None
    else
      var defaults :- DecodeDefaults(At(j.fields, "defaults"));
      Some(Agents(defaults))
  }

  function DecodeSearch(j: Json): Option<Search> {
    if !j.JObj? then None
    else
      var apiKey :- Str(At(j.fields, "apiKey"));
      Some(Search(apiKey))
  }

  function DecodeWeb(j: Json): Option<Web> {
    if !j.JObj? then None
    else
      var search :- Optional(At(j.fields, "search"), DecodeSearch);
      Some(Web(search))
  }

  function DecodeTools(j: Json): Option<Tools> {
    if !j.JObj? then None
    else
      var web :- Optional(At(j.fields, "web"), DecodeWeb);
      Some(Tools(web))
  }

  function DecodeMessages(j: Json): Option<Messages> {
    if !j.JObj? then None
    else
      var scope :- Optional(At(j.fields, "ackReactionScope"), Str);
      Some(Messages(scope))
  }

  function DecodeCommands(j: Json): Option<Commands> {
    if !j.JObj? then None
    else
      var native :- Optional(At(j.fields, "native"), Str);
      var nativeSkills :- Optional(At(j.fields, "nativeSkills"), Str);
      Some(Commands(native, nativeSkills))
  }

  function DecodeHookEntry(j: Json): Option<HookEntry> {
    if !j.JObj? then None
    else
      var enabled :- Bool(At(j.fields, "enabled"));
      Some(HookEntry(enabled))
  }

  function DecodeInternalHooks(j: Json): Option<InternalHooks> {
    if !j.JObj? then None
    else
      var enabled :- Bool(At(j.fields, "enabled"));
      var entries :- Optional(At(j.fields, "entries"), x => Dict(x, DecodeHookEntry));
      Some(InternalHooks(enabled, entries))
  }

  function DecodeHooks(j: Json): Option<Hooks> {
    if !j.JObj? then None
    else
      var internal :- Optional(At(j.fields, "internal"), DecodeInternalHooks);
      Some(Hooks(internal))
  }

  // ---------------------------------------------------------------------------
  // Properties of the shared parts

  /** A model decodes exactly when `id` and `name` are strings and every optional
      field is absent, null or well-typed. */
  lemma ModelRequiresIdAndName(j: Json)
    requires DecodeModel(j).Some?
    ensures j.JObj? && At(j.fields, "id").JStr? && At(j.fields, "name").JStr?
  {
  }

  /** A model with only `id` and `name` decodes, all other fields absent. */
  lemma MinimalModelDecodes(id: string, name: string)
    ensures DecodeModel(JObj(map["id" := JStr(id), "name" := JStr(name)]))
         == Some(Model(id, name, None, None, None, None, None))
  {
  }

  /** `agents.defaults.model` needs both `primary` and `fallbacks`. */
  lemma ModelConfigRequiresBoth(j: Json)
    requires DecodeModelConfig(j).Some?
    ensures j.JObj? && At(j.fields, "primary").JStr? && At(j.fields, "fallbacks").JArr?
  {
  }

  /** Only the model selection is required in `agents.defaults`. */
  lemma MinimalDefaultsDecode(primary: string, fallbacks: seq<string>)
    ensures DecodeDefaults(JObj(map["model" := JObj(map["primary" := JStr(primary),
                                                          "fallbacks" := StringArray(fallbacks)])]))
         == Some(Defaults(ModelConfig(primary, fallbacks), None, None))
  {
    StringArrayRoundTrip(fallbacks);
  }

  // ---------------------------------------------------------------------------
  // The one edit the application makes: the model selection

  /** `agents.defaults.model.primary = primary`. */
  function WithPrimary(a: Agents, primary: string): Agents {
    a.(defaults := a.defaults.(model := a.defaults.model.(primary := primary)))
  }

  /** `agents.defaults.model.fallbacks = fallbacks`. */
  function WithFallbacks(a: Agents, fallbacks: seq<string>): Agents {
    a.(defaults := a.defaults.(model := a.defaults.model.(fallbacks := fallbacks)))
  }

  /** Writing a new primary model into the untyped `agents` mapping at
      `defaults.model.primary` and decoding it gives the decoded section with only
      the primary model replaced. */
  lemma PrimaryWriteDecodes(m: map<string, Json>, primary: string)
    requires DecodeAgents(JObj(m)).Some?
    ensures DecodeAgents(JObj(SetPath(m, ["defaults", "model", "primary"], JStr(primary))))
         == Some(WithPrimary(DecodeAgents(JObj(m)).value, primary))
  {
    var defaults := m["defaults"].fields;
    var model := defaults["model"].fields;
    var newModel := model["primary" := JStr(primary)];
    assert ["defaults", "model", "primary"][1..] == ["model", "primary"];
    assert ["model", "primary"][1..] == ["primary"];
    assert SetPath(m, ["defaults", "model", "primary"], JStr(primary))
        == m["defaults" := JObj(defaults["model" := JObj(newModel)])];
    assert At(newModel, "fallbacks") == At(model, "fallbacks");
  }

  /** The same for the fallback list, written as an array of strings. */
  lemma FallbacksWriteDecodes(m: map<string, Json>, fallbacks: seq<string>)
    requires DecodeAgents(JObj(m)).Some?
    ensures DecodeAgents(JObj(SetPath(m, ["defaults", "model", "fallbacks"], StringArray(fallbacks))))
         == Some(WithFallbacks(DecodeAgents(JObj(m)).value, fallbacks))
  {
    var defaults := m["defaults"].fields;
    var model := defaults["model"].fields;
    var newModel := model["fallbacks" := StringArray(fallbacks)];
    assert ["defaults", "model", "fallbacks"][1..] == ["model", "fallbacks"];
    assert ["model", "fallbacks"][1..] == ["fallbacks"];
    assert SetPath(m, ["defaults", "model", "fallbacks"], StringArray(fallbacks))
        == m["defaults" := JObj(defaults["model" := JObj(newModel)])];
    assert At(newModel, "primary") == At(model, "primary");
    StringArrayRoundTrip(fallbacks);
  }
}
