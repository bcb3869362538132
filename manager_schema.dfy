/** The typed configuration of the older generation (OpenClawManager's
    `MoltbotConfig`): all eleven top-level sections are required, there is no
    `plugins` section, and `meta`, `wizard`, the auth profiles, the gateway and
    a present telegram channel require every field. */
module ManagerSchema {
  import opened Common
  import opened JsonTree
  import opened Decoding
  import opened SchemaParts

  datatype Meta = Meta(lastTouchedVersion: string, lastTouchedAt: string)

  datatype Wizard = Wizard(lastRunAt: string, lastRunVersion: string, lastRunCommand: string, lastRunMode: string)

  datatype Profile = Profile(provider: string, mode: string)
  datatype Auth = Auth(profiles: map<string, Profile>)

  /** `models`: both `mode` and the provider dictionary are required. */
  datatype Models = Models(mode: string, providers: map<string, Provider>)

  datatype Telegram = Telegram(
    enabled: bool,
    dmPolicy: string,
    botToken: string,
    allowFrom: seq<string>,
    groupPolicy: string,
    streamMode: string)

  /** `channels` declares only telegram. */
  datatype Channels = Channels(telegram: Option<Telegram>)

  datatype GatewayAuth = GatewayAuth(mode: string, token: string)
  datatype Tailscale = Tailscale(mode: string, resetOnExit: bool)
  datatype Gateway = Gateway(port: int, mode: string, bind: string, auth: GatewayAuth, tailscale: Tailscale)

  /** The whole document. `agents` is the one section the source declares `var`. */
  datatype Config = Config(
    meta: Meta,
    wizard: Wizard,
    auth: Auth,
    models: Models,
    agents: Agents,
    tools: Tools,
    messages: Messages,
    commands: Commands,
    hooks: Hooks,
    channels: Channels,
    gateway: Gateway)

  /** The top-level keys the typed model declares; every one is required. */
  const SectionKeys: set<string> :=
    {"meta", "wizard", "auth", "models", "agents", "tools", "messages", "commands",
     "hooks", "channels", "gateway"}

  /** The fields of a telegram channel, all required. */
  const TelegramKeys: set<string> :=
    {"enabled", "dmPolicy", "botToken", "allowFrom", "groupPolicy", "streamMode"}

  // ---------------------------------------------------------------------------
  // Decoders

  function DecodeMeta(j: Json): Option<Meta> {
    if !j.JObj? then None
    else
      var version :- Str(At(j.fields, "lastTouchedVersion"));
      var at :- Str(At(j.fields, "lastTouchedAt"));
      Some(Meta(version, at))
  }

  function DecodeWizard(j: Json): Option<Wizard> {
    if !j.JObj? then None
    else
      var m := j.fields;
      var runAt :- Str(At(m, "lastRunAt"));
      var runVersion :- Str(At(m, "lastRunVersion"));
      var runCommand :- Str(At(m, "lastRunCommand"));
      var runMode :- Str(At(m, "lastRunMode"));
      Some(Wizard(runAt, runVersion, runCommand, runMode))
  }

  function DecodeProfile(j: Json): Option<Profile> {
    if !j.JObj? then None
    else
      var provider :- Str(At(j.fields, "provider"));
      var mode :- Str(At(j.fields, "mode"));
      Some(Profile(provider, mode))
  }

  function DecodeAuth(j: Json): Option<Auth> {
    if !j.JObj? then None
    else
      var profiles :- Dict(At(j.fields, "profiles"), DecodeProfile);
      Some(Auth(profiles))
  }

  function DecodeModels(j: Json): Option<Models> {
    if !j.JObj? then None
    else
      var mode :- Str(At(j.fields, "mode"));
      var providers :- Dict(At(j.fields, "providers"), DecodeProvider);
      Some(Models(mode, providers))
  }

  function DecodeTelegram(j: Json): Option<Telegram> {
    if !j.JObj? then None
    else
      var m := j.fields;
      var enabled :- Bool(At(m, "enabled"));
      var dmPolicy :- Str(At(m, "dmPolicy"));
      var botToken :- Str(At(m, "botToken"));
      var allowFrom :- Array(At(m, "allowFrom"), Str);
      var groupPolicy :- Str(At(m, "groupPolicy"));
      var streamMode :- Str(At(m, "streamMode"));
      Some(Telegram(enabled, dmPolicy, botToken, allowFrom, groupPolicy, streamMode))
  }

  function DecodeChannels(j: Json): Option<Channels> {
    if !j.JObj? then None
    else
      var telegram :- Optional(At(j.fields, "telegram"), DecodeTelegram);
      Some(Channels(telegram))
  }

  function DecodeGatewayAuth(j: Json): Option<GatewayAuth> {
    if !j.JObj? then None
    else
      var mode :- Str(At(j.fields, "mode"));
      var token :- Str(At(j.fields, "token"));
      Some(GatewayAuth(mode, token))
  }

  function DecodeTailscale(j: Json): Option<Tailscale> {
    if !j.JObj? then None
    else
      var mode :- Str(At(j.fields, "mode"));
      var resetOnExit :- Bool(At(j.fields, "resetOnExit"));
      Some(Tailscale(mode, resetOnExit))
  }

  function DecodeGateway(j: Json): Option<Gateway> {
    if !j.JObj? then None
    else
      var m := j.fields;
      var port :- Int(At(m, "port"));
      var mode :- Str(At(m, "mode"));
      var bind :- Str(At(m, "bind"));
      var auth :- DecodeGatewayAuth(At(m, "auth"));
      var tailscale :- DecodeTailscale(At(m, "tailscale"));
      Some(Gateway(port, mode, bind, auth, tailscale))
  }

  /** The value under each top-level key of a document (`null` when absent). */
  datatype Sections = Sections(
    meta: Json, wizard: Json, auth: Json, models: Json, agents: Json, tools: Json,
    messages: Json, commands: Json, hooks: Json, channels: Json, gateway: Json)

  function SectionsOf(m: map<string, Json>): Sections {
    Sections(At(m, "meta"), At(m, "wizard"), At(m, "auth"), At(m, "models"), At(m, "agents"),
             At(m, "tools"), At(m, "messages"), At(m, "commands"), At(m, "hooks"),
             At(m, "channels"), At(m, "gateway"))
  }

  /** Decoding the sections, in declaration order; every one is required. */
  function DecodeSections(s: Sections): Option<Config> {
    var meta :- DecodeMeta(s.meta);
    var wizard :- DecodeWizard(s.wizard);
    var auth :- DecodeAuth(s.auth);
    var models :- DecodeModels(s.models);
    var agents :- DecodeAgents(s.agents);
    var tools :- DecodeTools(s.tools);
    var messages :- DecodeMessages(s.messages);
    var commands :- DecodeCommands(s.commands);
    var hooks :- DecodeHooks(s.hooks);
    var channels :- DecodeChannels(s.channels);
    var gateway :- DecodeGateway(s.gateway);
    Some(Config(meta, wizard, auth, models, agents, tools, messages, commands, hooks, channels, gateway))
  }

  /** Whatever the sections decode to has the decoded core sections as fields. */
  lemma CoreSectionsOfDecoded(s: Sections)
    ensures DecodeSections(s).Some? ==>
              DecodeModels(s.models) == Some(DecodeSections(s).value.models)
              && DecodeAgents(s.agents) == Some(DecodeSections(s).value.agents)
              && DecodeGateway(s.gateway) == Some(DecodeSections(s).value.gateway)
  {
    if DecodeSections(s).Some? {
      EverySectionDecodes(s);
    }
  }

  /** `JSONDecoder().decode(MoltbotConfig.self, ...)` on a parsed document. */
  function Decode(j: Json): (r: Option<Config>)
    ensures !j.JObj? ==> r.None?
    ensures r.Some? ==> j.JObj?
                        && DecodeModels(At(j.fields, "models")) == Some(r.value.models)
                        && DecodeAgents(At(j.fields, "agents")) == Some(r.value.agents)
                        && DecodeGateway(At(j.fields, "gateway")) == Some(r.value.gateway)
  {
    if !j.JObj? then None
    else
      var s := SectionsOf(j.fields);
      CoreSectionsOfDecoded(s);
      DecodeSections(s)
  }

  // ---------------------------------------------------------------------------
  // Properties of the schema

  /** Every one of the eleven sections must be present as a mapping. */
  lemma DecodeNeedsEverySection(j: Json)
    requires Decode(j).Some?
    ensures j.JObj? && forall k :: k in SectionKeys ==> k in j.fields && j.fields[k].JObj?
  {
    EverySectionIsObject(SectionsOf(j.fields));
    SectionsObjects(j.fields);
  }

  /** Sections that decode are all mappings. */
  lemma EverySectionIsObject(s: Sections)
    requires DecodeSections(s).Some?
    ensures s.meta.JObj? && s.wizard.JObj? && s.auth.JObj? && s.models.JObj? && s.agents.JObj? && s.tools.JObj?
    ensures s.messages.JObj? && s.commands.JObj? && s.hooks.JObj? && s.channels.JObj? && s.gateway.JObj?
  {
    EverySectionDecodes(s);
  }

  /** When every section picked from a mapping is a mapping, every section key is present. */
  lemma SectionsObjects(m: map<string, Json>)
    requires var s := SectionsOf(m);
             s.meta.JObj? && s.wizard.JObj? && s.auth.JObj? && s.models.JObj? && s.agents.JObj? && s.tools.JObj?
             && s.messages.JObj? && s.commands.JObj? && s.hooks.JObj? && s.channels.JObj? && s.gateway.JObj?
    ensures forall k :: k in SectionKeys ==> k in m && m[k].JObj?
  {
  }

  /** Sections that decode have every section decoding. */
  lemma EverySectionDecodes(s: Sections)
    requires DecodeSections(s).Some?
    ensures DecodeMeta(s.meta).Some? && DecodeWizard(s.wizard).Some? && DecodeAuth(s.auth).Some?
    ensures DecodeModels(s.models).Some? && DecodeAgents(s.agents).Some? && DecodeTools(s.tools).Some?
    ensures DecodeMessages(s.messages).Some? && DecodeCommands(s.commands).Some? && DecodeHooks(s.hooks).Some?
    ensures DecodeChannels(s.channels).Some? && DecodeGateway(s.gateway).Some?
  {
  }

  /** `meta`, `wizard` and every auth profile need all their fields, as strings. */
  lemma RecordSectionsNeedEveryString(j: Json)
    requires Decode(j).Some?
    ensures j.JObj? && "meta" in j.fields && "wizard" in j.fields && "auth" in j.fields
    ensures var meta := j.fields["meta"];
            meta.JObj? && At(meta.fields, "lastTouchedVersion").JStr? && At(meta.fields, "lastTouchedAt").JStr?
    ensures var wizard := j.fields["wizard"];
            wizard.JObj? && At(wizard.fields, "lastRunAt").JStr? && At(wizard.fields, "lastRunVersion").JStr?
            && At(wizard.fields, "lastRunCommand").JStr? && At(wizard.fields, "lastRunMode").JStr?
    ensures var auth := j.fields["auth"];
            auth.JObj? && At(auth.fields, "profiles").JObj?
            && forall p :: p in At(auth.fields, "profiles").fields ==>
                 var profile := At(auth.fields, "profiles").fields[p];
                 profile.JObj? && At(profile.fields, "provider").JStr? && At(profile.fields, "mode").JStr?
  {
    DecodeNeedsEverySection(j);
    EverySectionDecodes(SectionsOf(j.fields));
    var profiles := At(j.fields["auth"].fields, "profiles");
    assert Dict(profiles, DecodeProfile).Some?;
  }

  /** The gateway needs its port, mode, bind address, auth and tailscale settings,
      and each nested field of the last two. */
  lemma GatewayNeedsEveryField(j: Json)
    requires DecodeGateway(j).Some?
    ensures j.JObj? && At(j.fields, "port").JNum? && At(j.fields, "mode").JStr?
         && At(j.fields, "bind").JStr?
    ensures IntMin <= At(j.fields, "port").n <= IntMax
    ensures DecodeGatewayAuth(At(j.fields, "auth")).Some? && DecodeTailscale(At(j.fields, "tailscale")).Some?
  {
  }

  /** A present (non-null) telegram channel needs all six of its fields. */
  lemma TelegramNeedsEveryField(j: Json)
    requires DecodeTelegram(j).Some?
    ensures j.JObj? && forall k :: k in TelegramKeys ==> k in j.fields && !j.fields[k].JNull?
  {
  }

  /** Keys the typed model does not declare play no part in decoding. In
      particular `plugins`, which this schema lacks, is invisible to it. */
  lemma UnknownKeysIgnored(m: map<string, Json>, k: string, v: Json)
    requires k !in SectionKeys
    ensures Decode(JObj(m[k := v])) == Decode(JObj(m))
  {
    assert SectionsOf(m[k := v]) == SectionsOf(m);
  }

  /** Two documents that differ only in keys outside the schema decode alike, so
      anything written from the decoded value alone cannot tell them apart. */
  lemma PluginsInvisible(m: map<string, Json>, plugins: Json)
    ensures Decode(JObj(m["plugins" := plugins])) == Decode(JObj(m - {"plugins"}))
  {
    UnknownKeysIgnored(m - {"plugins"}, "plugins", plugins);
    assert (m - {"plugins"})["plugins" := plugins] == m["plugins" := plugins];
  }
}
