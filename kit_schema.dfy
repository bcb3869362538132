/** The typed configuration of the current generation (OpenClawKit's
    `MoltbotConfig`): only `models`, `agents` and `gateway` are required at the
    top level; the other nine sections are optional, and so are most fields
    inside them. */
module KitSchema {
  import opened Common
  import opened JsonTree
  import opened Decoding
  import opened SchemaParts

  datatype Meta = Meta(lastTouchedVersion: Option<string>, lastTouchedAt: Option<string>)

  datatype Wizard = Wizard(
    lastRunAt: Option<string>,
    lastRunVersion: Option<string>,
    lastRunCommand: Option<string>,
    lastRunMode: Option<string>)

  datatype Profile = Profile(provider: Option<string>, mode: Option<string>)
  datatype Auth = Auth(profiles: Option<map<string, Profile>>)

  /** `models`: the provider dictionary is required, `mode` is optional. */
  datatype Models = Models(mode: Option<string>, providers: map<string, Provider>)

  datatype Telegram = Telegram(
    enabled: bool,
    dmPolicy: Option<string>,
    botToken: string,
    allowFrom: Option<seq<string>>,
    groupPolicy: Option<string>,
    streamMode: Option<string>)

  datatype DirectMessages = DirectMessages(policy: Option<string>, allowFrom: Option<seq<string>>)

  datatype Discord = Discord(
    enabled: bool,
    token: string,
    groupPolicy: Option<string>,
    dm: Option<DirectMessages>)

  datatype Slack = Slack(
    enabled: bool,
    botToken: string,
    appToken: Option<string>,
    signingSecret: Option<string>,
    dm: Option<DirectMessages>,
    dmPolicy: Option<string>,
    groupPolicy: Option<string>,
    userTokenReadOnly: Option<bool>)

  datatype Channels = Channels(telegram: Option<Telegram>, discord: Option<Discord>, slack: Option<Slack>)

  datatype GatewayAuth = GatewayAuth(mode: Option<string>, token: Option<string>)
  datatype Tailscale = Tailscale(mode: Option<string>, resetOnExit: Option<bool>)

  /** `gateway`: only the port is required. */
  datatype Gateway = Gateway(
    port: int,
    mode: Option<string>,
    bind: Option<string>,
    auth: Option<GatewayAuth>,
    tailscale: Option<Tailscale>)

  datatype PluginEntry = PluginEntry(enabled: bool)
  datatype Plugins = Plugins(entries: Option<map<string, PluginEntry>>)

  /** The whole document. `agents` is the one section the source declares `var`. */
  datatype Config = Config(
    meta: Option<Meta>,
    wizard: Option<Wizard>,
    auth: Option<Auth>,
    models: Models,
    agents: Agents,
    tools: Option<Tools>,
    messages: Option<Messages>,
    commands: Option<Commands>,
    hooks: Option<Hooks>,
    channels: Option<Channels>,
    gateway: Gateway,
    plugins: Option<Plugins>)

  /** The top-level keys the typed model declares. */
  const SectionKeys: set<string> :=
    {"meta", "wizard", "auth", "models", "agents", "tools", "messages", "commands",
     "hooks", "channels", "gateway", "plugins"}

  /** The top-level sections that may be absent. */
  const OptionalSectionKeys: set<string> :=
    {"meta", "wizard", "auth", "tools", "messages", "commands", "hooks", "channels", "plugins"}

  // ---------------------------------------------------------------------------
  // Decoders

  function DecodeMeta(j: Json): Option<Meta> {
    if !j.JObj? then None
    else
      var version :- Optional(At(j.fields, "lastTouchedVersion"), Str);
      var at :- Optional(At(j.fields, "lastTouchedAt"), Str);
      Some(Meta(version, at))
  }

  function DecodeWizard(j: Json): Option<Wizard> {
    if !j.JObj? then None
    else
      var m := j.fields;
      var runAt :- Optional(At(m, "lastRunAt"), Str);
      var runVersion :- Optional(At(m, "lastRunVersion"), Str);
      var runCommand :- Optional(At(m, "lastRunCommand"), Str);
      var runMode :- Optional(At(m, "lastRunMode"), Str);
      Some(Wizard(runAt, runVersion, runCommand, runMode))
  }

  function DecodeProfile(j: Json): Option<Profile> {
    if !j.JObj? then None
    else
      var provider :- Optional(At(j.fields, "provider"), Str);
      var mode :- Optional(At(j.fields, "mode"), Str);
      Some(Profile(provider, mode))
  }

  function DecodeAuth(j: Json): Option<Auth> {
    if !j.JObj? then None
    else
      var profiles :- Optional(At(j.fields, "profiles"), x => Dict(x, DecodeProfile));
      Some(Auth(profiles))
  }

  function DecodeModels(j: Json): Option<Models> {
    if !j.JObj? then None
    else
      var mode :- Optional(At(j.fields, "mode"), Str);
      var providers :- Dict(At(j.fields, "providers"), DecodeProvider);
      Some(Models(mode, providers))
  }

  function DecodeTelegram(j: Json): Option<Telegram> {
    if !j.JObj? then None
    else
      var m := j.fields;
      var enabled :- Bool(At(m, "enabled"));
      var dmPolicy :- Optional(At(m, "dmPolicy"), Str);
      var botToken :- Str(At(m, "botToken"));
      var allowFrom :- Optional(At(m, "allowFrom"), x => Array(x, Str));
      var groupPolicy :- Optional(At(m, "groupPolicy"), Str);
      var streamMode :- Optional(At(m, "streamMode"), Str);
      Some(Telegram(enabled, dmPolicy, botToken, allowFrom, groupPolicy, streamMode))
  }

  function DecodeDirectMessages(j: Json): Option<DirectMessages> {
    if !j.JObj? then None
    else
      var policy :- Optional(At(j.fields, "policy"), Str);
      var allowFrom :- Optional(At(j.fields, "allowFrom"), x => Array(x, Str));
      Some(DirectMessages(policy, allowFrom))
  }

  function DecodeDiscord(j: Json): Option<Discord> {
    if !j.JObj? then None
    else
      var m := j.fields;
      var enabled :- Bool(At(m, "enabled"));
      var token :- Str(At(m, "token"));
      var groupPolicy :- Optional(At(m, "groupPolicy"), Str);
      var dm :- Optional(At(m, "dm"), DecodeDirectMessages);
      Some(Discord(enabled, token, groupPolicy, dm))
  }

  function DecodeSlack(j: Json): Option<Slack> {
    if !j.JObj? then None
    else
      var m := j.fields;
      var enabled :- Bool(At(m, "enabled"));
      var botToken :- Str(At(m, "botToken"));
      var appToken :- Optional(At(m, "appToken"), Str);
      var signingSecret :- Optional(At(m, "signingSecret"), Str);
      var dm :- Optional(At(m, "dm"), DecodeDirectMessages);
      var dmPolicy :- Optional(At(m, "dmPolicy"), Str);
      var groupPolicy :- Optional(At(m, "groupPolicy"), Str);
      var readOnly :- Optional(At(m, "userTokenReadOnly"), Bool);
      Some(Slack(enabled, botToken, appToken, signingSecret, dm, dmPolicy, groupPolicy, readOnly))
  }

  function DecodeChannels(j: Json): Option<Channels> {
    if !j.JObj? then None
    else
      var telegram :- Optional(At(j.fields, "telegram"), DecodeTelegram);
      var discord :- Optional(At(j.fields, "discord"), DecodeDiscord);
      var slack :- Optional(At(j.fields, "slack"), DecodeSlack);
      Some(Channels(telegram, discord, slack))
  }

  function DecodeGatewayAuth(j: Json): Option<GatewayAuth> {
    if !j.JObj? then None
    else
      var mode :- Optional(At(j.fields, "mode"), Str);
      var token :- Optional(At(j.fields, "token"), Str);
      Some(GatewayAuth(mode, token))
  }

  function DecodeTailscale(j: Json): Option<Tailscale> {
    if !j.JObj? then None
    else
      var mode :- Optional(At(j.fields, "mode"), Str);
      var resetOnExit :- Optional(At(j.fields, "resetOnExit"), Bool);
      Some(Tailscale(mode, resetOnExit))
  }

  function DecodeGateway(j: Json): Option<Gateway> {
    if !j.JObj? then None
    else
      var m := j.fields;
      var port :- Int(At(m, "port"));
      var mode :- Optional(At(m, "mode"), Str);
      var bind :- Optional(At(m, "bind"), Str);
      var auth :- Optional(At(m, "auth"), DecodeGatewayAuth);
      var tailscale :- Optional(At(m, "tailscale"), DecodeTailscale);
      Some(Gateway(port, mode, bind, auth, tailscale))
  }

  function DecodePluginEntry(j: Json): Option<PluginEntry> {
    if !j.JObj? then None
    else
      var enabled :- Bool(At(j.fields, "enabled"));
      Some(PluginEntry(enabled))
  }

  function DecodePlugins(j: Json): Option<Plugins> {
    if !j.JObj? then None
    else
      var entries :- Optional(At(j.fields, "entries"), x => Dict(x, DecodePluginEntry));
      Some(Plugins(entries))
  }

  /** The value under each top-level key of a document (`null` when absent). */
  datatype Sections = Sections(
    meta: Json, wizard: Json, auth: Json, models: Json, agents: Json, tools: Json,
    messages: Json, commands: Json, hooks: Json, channels: Json, gateway: Json, plugins: Json)

  function SectionsOf(m: map<string, Json>): Sections {
    Sections(At(m, "meta"), At(m, "wizard"), At(m, "auth"), At(m, "models"), At(m, "agents"),
             At(m, "tools"), At(m, "messages"), At(m, "commands"), At(m, "hooks"),
             At(m, "channels"), At(m, "gateway"), At(m, "plugins"))
  }

  /** Decoding the sections, in declaration order; the first failure fails the whole. */
  function DecodeSections(s: Sections): Option<Config> {
    var meta :- Optional(s.meta, DecodeMeta);
    var wizard :- Optional(s.wizard, DecodeWizard);
    var auth :- Optional(s.auth, DecodeAuth);
    var models :- DecodeModels(s.models);
    var agents :- DecodeAgents(s.agents);
    var tools :- Optional(s.tools, DecodeTools);
    var messages :- Optional(s.messages, DecodeMessages);
    var commands :- Optional(s.commands, DecodeCommands);
    var hooks :- Optional(s.hooks, DecodeHooks);
    var channels :- Optional(s.channels, DecodeChannels);
    var gateway :- DecodeGateway(s.gateway);
    var plugins :- Optional(s.plugins, DecodePlugins);
    Some(Config(meta, wizard, auth, models, agents, tools, messages, commands, hooks, channels, gateway, plugins))
  }

  /** Whatever the sections decode to has the decoded core sections as fields. */
  lemma CoreSectionsOfDecoded(s: Sections)
    ensures DecodeSections(s).Some? ==>
              DecodeModels(s.models) == Some(DecodeSections(s).value.models)
              && DecodeAgents(s.agents) == Some(DecodeSections(s).value.agents)
              && DecodeGateway(s.gateway) == Some(DecodeSections(s).value.gateway)
  {
    if DecodeSections(s).Some? {
      CoreSectionsDecode(s);
    }
  }

  /** `JSONDecoder().decode(MoltbotConfig.self, ...)` on a parsed document. */
  function Decode(j: Json): (r: Option<Config>)
    ensures !j.JObj? ==> r.None?
    ensures r.Some? ==> j.JObj?
                        && DecodeModels(At(j.fields, "models")) == Some(r.value.models)
                        && DecodeAgents(At(j.fields, "agents")) == Some(r.value.agents)
                        && DecodeGateway(At(j.fields, "gateway")) == Some(r.value.gateway)
  {
    if !j.JObj? then None
    else
      var s := SectionsOf(j.fields);
      CoreSectionsOfDecoded(s);
      DecodeSections(s)
  }

  // ---------------------------------------------------------------------------
  // Properties of the schema

  /** Sections that decode have their three core sections decoding. */
  lemma CoreSectionsDecode(s: Sections)
    requires DecodeSections(s).Some?
    ensures DecodeModels(s.models).Some? && DecodeAgents(s.agents).Some? && DecodeGateway(s.gateway).Some?
    ensures DecodeSections(s).value.models == DecodeModels(s.models).value
    ensures DecodeSections(s).value.agents == DecodeAgents(s.agents).value
    ensures DecodeSections(s).value.gateway == DecodeGateway(s.gateway).value
  {
  }

  /** A document decodes only if it is a mapping whose `models`, `agents` and
      `gateway` sections are mappings, with a providers dictionary, a model
      selection and a port that fits a 64-bit `Int`. */
  lemma DecodeNeedsCoreSections(j: Json)
    requires Decode(j).Some?
    ensures j.JObj? && "models" in j.fields && "agents" in j.fields && "gateway" in j.fields
    ensures j.fields["models"].JObj? && At(j.fields["models"].fields, "providers").JObj?
    ensures j.fields["agents"].JObj? && DecodeDefaults(At(j.fields["agents"].fields, "defaults")).Some?
    ensures j.fields["gateway"].JObj? && At(j.fields["gateway"].fields, "port").JNum?
    ensures IntMin <= At(j.fields["gateway"].fields, "port").n <= IntMax
  {
    CoreSectionsDecode(SectionsOf(j.fields));
  }

  /** The configuration with every optional section dropped. */
  function CoreOnly(c: Config): Config {
    Config(None, None, None, c.models, c.agents, None, None, None, None, None, c.gateway, None)
  }

  /** The sections with every optional one absent. */
  function CoreSections(s: Sections): Sections {
    Sections(JNull, JNull, JNull, s.models, s.agents, JNull, JNull, JNull, JNull, JNull, s.gateway, JNull)
  }

  lemma CoreSectionsDecodeAlone(s: Sections)
    requires DecodeSections(s).Some?
    ensures DecodeSections(CoreSections(s)) == Some(CoreOnly(DecodeSections(s).value))
  {
    CoreSectionsDecode(s);
  }

  /** Removing the optional keys leaves exactly the core sections. */
  lemma OmittedSections(m: map<string, Json>)
    ensures SectionsOf(m - OptionalSectionKeys) == CoreSections(SectionsOf(m))
  {
    var n := m - OptionalSectionKeys;
    assert "meta" !in n && "wizard" !in n && "auth" !in n && "tools" !in n && "messages" !in n;
    assert "commands" !in n && "hooks" !in n && "channels" !in n && "plugins" !in n;
    assert At(n, "models") == At(m, "models");
    assert At(n, "agents") == At(m, "agents");
    assert At(n, "gateway") == At(m, "gateway");
  }

  /** The optional sections never have to be present: removing all of them from a
      document that decodes still decodes, to the same configuration with those
      sections absent. */
  lemma OptionalSectionsMayBeOmitted(m: map<string, Json>)
    requires Decode(JObj(m)).Some?
    ensures Decode(JObj(m - OptionalSectionKeys)) == Some(CoreOnly(Decode(JObj(m)).value))
  {
    var n := m - OptionalSectionKeys;
    OmittedSections(m);
    CoreSectionsDecodeAlone(SectionsOf(m));
  }

  /** Sections holding only the three core sections decode when those three do. */
  lemma CoreSectionsOnly(s: Sections)
    requires s == CoreSections(s)
    requires DecodeModels(s.models).Some? && DecodeAgents(s.agents).Some? && DecodeGateway(s.gateway).Some?
    ensures DecodeSections(s) == Some(Config(None, None, None, DecodeModels(s.models).value, DecodeAgents(s.agents).value,
                                             None, None, None, None, None, DecodeGateway(s.gateway).value, None))
  {
  }

  /** A `models` section with an empty provider dictionary. */
  const NoProviders: Json := JObj(map["providers" := JObj(map[])])

  /** An `agents` section holding only a model selection. */
  function SelectionOnly(primary: string, fallbacks: seq<string>): Json {
    JObj(map["defaults" := JObj(map["model" := JObj(map["primary" := JStr(primary),
                                                          "fallbacks" := StringArray(fallbacks)])])])
  }

  /** A `gateway` section holding only a port. */
  function PortOnly(port: int): Json {
    JObj(map["port" := JNum(port)])
  }

  /** A document holding nothing but the three core sections, with no providers. */
  function CoreDocument(primary: string, fallbacks: seq<string>, port: int): Json {
    JObj(map["models" := NoProviders, "agents" := SelectionOnly(primary, fallbacks), "gateway" := PortOnly(port)])
  }

  lemma CoreDocumentSections(primary: string, fallbacks: seq<string>, port: int)
    ensures SectionsOf(CoreDocument(primary, fallbacks, port).fields)
         == Sections(JNull, JNull, JNull, NoProviders, SelectionOnly(primary, fallbacks),
                     JNull, JNull, JNull, JNull, JNull, PortOnly(port), JNull)
  {
  }

  lemma CorePartsDecode(primary: string, fallbacks: seq<string>, port: int)
    requires IntMin <= port <= IntMax
    ensures DecodeModels(NoProviders) == Some(Models(None, map[]))
    ensures DecodeAgents(SelectionOnly(primary, fallbacks)) == Some(Agents(Defaults(ModelConfig(primary, fallbacks), None, None)))
    ensures DecodeGateway(PortOnly(port)) == Some(Gateway(port, None, None, None, None))
  {
    MinimalDefaultsDecode(primary, fallbacks);
  }

  /** A document holding only the three core sections, with a port in the range
      of `Int`, decodes. */
  lemma CoreSectionsSuffice(primary: string, fallbacks: seq<string>, port: int)
    requires IntMin <= port <= IntMax
    ensures Decode(CoreDocument(primary, fallbacks, port))
         == Some(Config(None, None, None, Models(None, map[]),
                        Agents(Defaults(ModelConfig(primary, fallbacks), None, None)),
                        None, None, None, None, None, Gateway(port, None, None, None, None), None))
  {
    CoreDocumentSections(primary, fallbacks, port);
    CorePartsDecode(primary, fallbacks, port);
    CoreSectionsOnly(SectionsOf(CoreDocument(primary, fallbacks, port).fields));
  }

  /** Keys the typed model does not declare play no part in decoding. */
  lemma UnknownKeysIgnored(m: map<string, Json>, k: string, v: Json)
    requires k !in SectionKeys
    ensures Decode(JObj(m[k := v])) == Decode(JObj(m))
  {
    assert SectionsOf(m[k := v]) == SectionsOf(m);
  }

  /** Decoding sections whose `agents` is replaced by one that decodes. */
  lemma ReplaceAgents(s: Sections, agents: Json)
    requires DecodeSections(s).Some? && DecodeAgents(agents).Some?
    ensures DecodeSections(s.(agents := agents)) == Some(DecodeSections(s).value.(agents := DecodeAgents(agents).value))
  {
  }

  /** Replacing the `agents` section of a document that decodes by one that
      decodes changes the decoded configuration in `agents` only. */
  lemma ReplaceAgentsSection(m: map<string, Json>, agents: Json)
    requires Decode(JObj(m)).Some? && DecodeAgents(agents).Some?
    ensures Decode(JObj(m["agents" := agents]))
         == Some(Decode(JObj(m)).value.(agents := DecodeAgents(agents).value))
  {
    assert SectionsOf(m["agents" := agents]) == SectionsOf(m).(agents := agents);
    ReplaceAgents(SectionsOf(m), agents);
  }
}
