/** The configuration manager of the current generation (OpenClawKit's
    `ConfigManager`).

    The file system is not modelled: the set of existing paths, the parsed
    content of the configuration file, the success of a write, the log
    directory listing and the log modification times are parameters. Edits go
    through the untyped document (`modifyConfigJson`), so keys the typed schema
    does not declare survive them. */
module OpenClawKit {
  import opened Common
  import opened JsonTree
  import opened Decoding
  import opened SchemaParts
  import KitSchema
  import opened Locator
  import opened GatewayProbe
  import opened Catalog
  import KitModelDisplay

  // ---------------------------------------------------------------------------
  // Editing the untyped document

  /** The two closures handed to `modifyConfigJson`: write the primary model, or
      write the fallback list, under `agents.defaults.model`. */
  datatype Patch = SetPrimary(primary: string) | SetFallbacks(fallbacks: seq<string>) {
    function Key(): string {
      if SetPrimary? then "primary" else "fallbacks"
    }

    function Value(): Json {
      if SetPrimary? then JStr(primary) else StringArray(fallbacks)
    }

    function Path(): seq<string> {
      ["agents", "defaults", "model", Key()]
    }
  }

  /** The document after the closure has run. */
  function Patched(doc: map<string, Json>, patch: Patch): map<string, Json> {
    SetPath(doc, patch.Path(), patch.Value())
  }

  /** The closure body of `updatePrimaryModel` / `updateFallbackModels`: take
      each node on the way down as a mapping (empty when missing or not a
      mapping), set the key, and store every node back into its parent. */
  method ApplyPatch(json: map<string, Json>, patch: Patch) returns (r: map<string, Json>)
    ensures r == Patched(json, patch)
  {
    var agents := ObjectAt(json, "agents");
    var defaults := ObjectAt(agents, "defaults");
    var model := ObjectAt(defaults, "model");
    model := model[patch.Key() := patch.Value()];
    defaults := defaults["model" := JObj(model)];
    agents := agents["defaults" := JObj(defaults)];
    r := json["agents" := JObj(agents)];
    var path := patch.Path();
    assert path[1..] == ["defaults", "model", patch.Key()];
    assert path[1..][1..] == ["model", patch.Key()];
    assert path[1..][1..][1..] == [patch.Key()];
    var d0, d1 := ObjectAt(json, "agents"), ObjectAt(ObjectAt(json, "agents"), "defaults");
    assert SetPath(d1, path[1..][1..], patch.Value()) == d1["model" := JObj(model)];
    assert SetPath(d0, path[1..], patch.Value()) == agents;
  }

  /** After the edit the target key holds the new value; a fallback list is
      stored as an array that decodes back to the same list, in the same order. */
  lemma PatchWrites(doc: map<string, Json>, patch: Patch)
    ensures Get(JObj(Patched(doc, patch)), patch.Path()) == Some(patch.Value())
    ensures patch.SetFallbacks? ==> Array(patch.Value(), Str) == Some(patch.fallbacks)
    ensures patch.SetPrimary? ==> Str(patch.Value()) == Some(patch.primary)
  {
    SetPathWrites(doc, patch.Path(), patch.Value());
    if patch.SetFallbacks? {
      StringArrayRoundTrip(patch.fallbacks);
    }
  }

  /** No data loss: every path that is neither on the way to the target key nor
      below it keeps its value, or stays absent. */
  lemma PatchPreservesOtherPaths(doc: map<string, Json>, patch: Patch, q: seq<string>)
    requires !IsPrefix(q, patch.Path()) && !IsPrefix(patch.Path(), q)
    ensures Get(JObj(Patched(doc, patch)), q) == Get(JObj(doc), q)
  {
    SetPathPreserves(doc, patch.Path(), patch.Value(), q);
  }

  /** In particular nothing outside `agents` changes: `channels.discord.token`,
      `plugins.entries` and any key the schema does not know. */
  lemma PatchLeavesOtherSectionsAlone(doc: map<string, Json>, patch: Patch, q: seq<string>)
    requires |q| > 0 && q[0] != "agents"
    ensures Get(JObj(Patched(doc, patch)), q) == Get(JObj(doc), q)
  {
    assert !IsPrefix(q, patch.Path()) && !IsPrefix(patch.Path(), q) by {
      assert q[0] != patch.Path()[0];
    }
    PatchPreservesOtherPaths(doc, patch, q);
  }

  /** Applying the same edit twice gives the same document as applying it once. */
  lemma PatchIdempotent(doc: map<string, Json>, patch: Patch)
    ensures Patched(Patched(doc, patch), patch) == Patched(doc, patch)
  {
    SetPathIdempotent(doc, patch.Path(), patch.Value());
  }

  /** Setting the primary model and setting the fallbacks can happen in either order. */
  lemma PatchesCommute(doc: map<string, Json>, primary: string, fallbacks: seq<string>)
    ensures Patched(Patched(doc, SetPrimary(primary)), SetFallbacks(fallbacks))
         == Patched(Patched(doc, SetFallbacks(fallbacks)), SetPrimary(primary))
  {
    var p, q := SetPrimary(primary).Path(), SetFallbacks(fallbacks).Path();
    assert p[3] != q[3];
    assert !IsPrefix(q, p) && !IsPrefix(p, q) by {
      assert q[..|p|][3] == q[3];
    }
    SetPathCommutes(doc, p, SetPrimary(primary).Value(), q, SetFallbacks(fallbacks).Value());
  }

  /** A node on the way (`agents`, `agents.defaults` or `agents.defaults.model`)
      that is missing or is not a mapping is replaced by a fresh mapping that
      holds nothing but the rest of the edit. */
  lemma PatchCreatesMissingNodes(doc: map<string, Json>, patch: Patch, i: nat)
    requires 1 <= i <= 3
    requires !(Get(JObj(doc), patch.Path()[..i]).Some? && Get(JObj(doc), patch.Path()[..i]).value.JObj?)
    ensures Get(JObj(Patched(doc, patch)), patch.Path()[..i])
         == Some(JObj(SetPath(map[], patch.Path()[i..], patch.Value())))
  {
    SetPathNodes(doc, patch.Path(), patch.Value(), i);
  }

  /** The typed effect of an edit: only the model selection of `agents` changes. */
  function ApplyToConfig(c: KitSchema.Config, patch: Patch): KitSchema.Config {
    match patch
    case SetPrimary(primary) => c.(agents := WithPrimary(c.agents, primary))
    case SetFallbacks(fallbacks) => c.(agents := WithFallbacks(c.agents, fallbacks))
  }

  /** Reloading an edited document that decoded before gives the old typed
      configuration with only the model selection replaced: channels, plugins and
      every other section come back as they were. */
  lemma PatchThenReload(doc: map<string, Json>, patch: Patch)
    requires KitSchema.Decode(JObj(doc)).Some?
    ensures KitSchema.Decode(JObj(Patched(doc, patch)))
         == Some(ApplyToConfig(KitSchema.Decode(JObj(doc)).value, patch))
  {
    KitSchema.DecodeNeedsCoreSections(JObj(doc));
    KitSchema.CoreSectionsDecode(KitSchema.SectionsOf(doc));
    var agents := doc["agents"].fields;
    var newAgents := PatchedAgents(agents, patch);
    KitSchema.ReplaceAgentsSection(doc, JObj(newAgents));
  }

  /** Within `agents` the edit writes `defaults.model.<key>`, and the section
      still decodes, with only the model selection replaced. */
  lemma PatchedAgents(agents: map<string, Json>, patch: Patch) returns (newAgents: map<string, Json>)
    requires DecodeAgents(JObj(agents)).Some?
    ensures newAgents == SetPath(agents, patch.Path()[1..], patch.Value())
    ensures DecodeAgents(JObj(newAgents))
         == Some(match patch
                 case SetPrimary(primary) => WithPrimary(DecodeAgents(JObj(agents)).value, primary)
                 case SetFallbacks(fallbacks) => WithFallbacks(DecodeAgents(JObj(agents)).value, fallbacks))
  {
    var path := patch.Path();
    assert path[1..] == ["defaults", "model", patch.Key()];
    newAgents := SetPath(agents, path[1..], patch.Value());
    match patch {
      case SetPrimary(primary) =>
        PrimaryWriteDecodes(agents, primary);
      case SetFallbacks(fallbacks) =>
        FallbacksWriteDecodes(agents, fallbacks);
    }
  }

  /** The repository's own test, stated for every document that decodes: after
      the edit and a reload the selection is the new one and the discord and
      slack channels and the plugins are unchanged. */
  lemma UpdatePreservesChannelsAndPlugins(doc: map<string, Json>, patch: Patch)
    requires KitSchema.Decode(JObj(doc)).Some?
    ensures var before := KitSchema.Decode(JObj(doc)).value;
            var after := KitSchema.Decode(JObj(Patched(doc, patch)));
            after.Some?
            && after.value.channels == before.channels
            && after.value.plugins == before.plugins
            && (patch.SetPrimary? ==> after.value.agents.defaults.model.primary == patch.primary)
            && (patch.SetFallbacks? ==> after.value.agents.defaults.model.fallbacks == patch.fallbacks)
  {
    PatchThenReload(doc, patch);
  }

  // ---------------------------------------------------------------------------
  // Loading, the gateway flag and log activity

  /** The typed configuration a read yields: `read` is the parsed file, `None`
      when the file cannot be read or is not JSON. */
  function Loaded(read: Option<Json>): Option<KitSchema.Config> {
    if read.Some? then KitSchema.Decode(read.value) else None
  }

  /** The fixed part of `loadConfig`'s message; the error details follow it. */
  function LoadError(path: string): string {
    "Failed to load config from " + path + "\nDetails: "
  }

  const ParseRootError: string := "Failed to parse config as JSON dictionary"

  /** What `JSONSerialization.jsonObject(with:options: [])` accepts: a file that
      was read and parsed, with a mapping or an array at the top level (a bare
      scalar needs `.fragmentsAllowed`, which is not passed). */
  predicate IsTopLevel(read: Option<Json>) {
    read.Some? && (read.value.JObj? || read.value.JArr?)
  }

  /** A parsed file whose top level is a mapping: the only case that is edited. */
  predicate IsDocument(read: Option<Json>) {
    read.Some? && read.value.JObj?
  }

  /** The fixed part of `modifyConfigJson`'s catch-all message. */
  const ModifyError: string := "Failed to modify config: "

  const LogPrefix: string := "openclaw-"
  const LogSuffix: string := ".log"

  /** Ten seconds, with times in milliseconds. */
  const FreshnessWindow: int := 10000

  predicate IsLogFile(name: string) {
    HasPrefix(name, LogPrefix) && HasSuffix(name, LogSuffix)
  }

  /** `name` is a log file and no log file in `files` sorts after it. */
  predicate IsLatestLog(name: string, files: seq<string>) {
    IsLogFile(name) && forall g :: g in files && IsLogFile(g) ==> NotAfter(g, name)
  }

  /** `files.filter(isLog).sorted().last`: the greatest log file name. */
  function LatestLog(files: seq<string>): (r: Option<string>)
    ensures r.None? <==> forall g :: g in files ==> !IsLogFile(g)
    ensures r.Some? ==> r.value in files && IsLatestLog(r.value, files)
    decreases |files|
  {
    if files == [] then None
    else
      var init := files[..|files| - 1];
      var last := files[|files| - 1];
      assert files == init + [last];
      var rest := LatestLog(init);
      if !IsLogFile(last) then rest
      else if rest.None? then
        LessIrreflexive(last);
        Some(last)
      else if NotAfter(rest.value, last) then
        LatestAbove(init, rest.value, last);
        Some(last)
      else
        NotAfterWhenLess(last, rest.value);
        rest
  }

  lemma LatestAbove(files: seq<string>, latest: string, above: string)
    requires IsLatestLog(latest, files) && IsLogFile(above) && NotAfter(latest, above)
    ensures IsLatestLog(above, files + [above])
  {
    forall g | g in files + [above] && IsLogFile(g)
      ensures NotAfter(g, above)
    {
      if g == above {
        LessIrreflexive(above);
      } else {
        NotAfterTransitive(g, latest, above);
      }
    }
  }

  /** The verdict of one activity tick. */
  function ActivityVerdict(running: bool, listing: Option<seq<string>>, modified: map<string, int>, now: int): bool {
    if !running || listing.None? then false
    else
      match LatestLog(listing.value)
      case None => false
      case Some(latest) => latest in modified && now - modified[latest] < FreshnessWindow
  }

  /** Active exactly when the gateway runs, the directory can be listed, and its
      greatest log file name was modified less than ten seconds ago. */
  lemma ActivityVerdictMeaning(running: bool, listing: Option<seq<string>>, modified: map<string, int>, now: int)
    ensures ActivityVerdict(running, listing, modified, now)
        <==> running && listing.Some?
             && (exists f :: f in listing.value && IsLatestLog(f, listing.value)
                             && f in modified && now - modified[f] < FreshnessWindow)
  {
    if running && listing.Some? {
      var files := listing.value;
      var latest := LatestLog(files);
      forall f | f in files && IsLatestLog(f, files)
        ensures latest == Some(f)
      {
        NotAfterAntisymmetric(f, latest.value);
      }
    }
  }

  // ---------------------------------------------------------------------------
  // The manager

  class ConfigManager {
    var config: Option<KitSchema.Config>
    var gatewayRunning: bool
    var errorMessage: Option<string>
    var configPath: string
    var isActive: bool

    /** `init(path:)`: remember the path and load it. */
    constructor (path: string, read: Option<Json>)
      ensures configPath == path && !gatewayRunning && !isActive
      ensures config == Loaded(read)
      ensures errorMessage == if Loaded(read).Some? then None else Some(LoadError(path))
    {
      config := None;
      gatewayRunning := false;
      errorMessage := None;
      configPath := path;
      isActive := false;
      new;
      LoadConfig(read);
    }

    /** `init()`: the first candidate that exists, else the default path, then a
        load of whatever the chosen path holds. */
    constructor Discover(home: string, existing: set<string>, read: Option<Json>)
      ensures configPath == (match FirstExisting(OpenClawCandidates(home), existing)
                             case Some(p) => p
                             case None => OpenClawDefault(home))
      ensures !gatewayRunning && !isActive
      ensures config == Loaded(read)
      ensures errorMessage == if Loaded(read).Some? then None else Some(LoadError(configPath))
    {
      config := None;
      gatewayRunning := false;
      errorMessage := None;
      isActive := false;
      var found := FindOpenClawConfig(home, existing);
      match found {
        case Some(p) => configPath := p;
        case None => configPath := OpenClawDefault(home);
      }
      new;
      LoadConfig(read);
    }

    /** `loadConfig()`: success replaces the configuration and clears the error;
        failure keeps the last configuration and reports the path. */
    method LoadConfig(read: Option<Json>)
      modifies this
      ensures configPath == old(configPath) && gatewayRunning == old(gatewayRunning) && isActive == old(isActive)
      ensures Loaded(read).Some? ==> config == Loaded(read) && errorMessage == None
      ensures Loaded(read).None? ==> config == old(config) && errorMessage == Some(LoadError(configPath))
    {
      var decoded := Loaded(read);
      if decoded.Some? {
        config := decoded;
        errorMessage := None;
      } else {
        errorMessage := Some(LoadError(configPath));
      }
    }

    /** `modifyConfigJson`: `read` is the file as parsed now, `written` is the
        document handed to the writer and `writeOk` whether the write succeeded.
        The parser admits only a mapping or an array at the top level: a file
        that cannot be read, is not JSON or holds a bare scalar ends in the
        catch-all error, an array in the parse error. After a successful write
        the file is reloaded, and it then holds `written`. */
    method ModifyConfigJson(read: Option<Json>, patch: Patch, writeOk: bool) returns (written: Option<Json>)
      modifies this
      ensures configPath == old(configPath) && gatewayRunning == old(gatewayRunning) && isActive == old(isActive)
      ensures !IsTopLevel(read) ==> written == None && config == old(config) && errorMessage == Some(ModifyError)
      ensures IsTopLevel(read) && read.value.JArr? ==> written == None && config == old(config) && errorMessage == Some(ParseRootError)
      ensures IsDocument(read) ==> written == Some(JObj(Patched(read.value.fields, patch)))
      ensures IsDocument(read) && !writeOk ==> config == old(config) && errorMessage == Some(ModifyError)
      ensures IsDocument(read) && writeOk && Loaded(written).Some? ==> config == Loaded(written) && errorMessage == None
      ensures IsDocument(read) && writeOk && Loaded(written).None? ==> config == old(config) && errorMessage == Some(LoadError(configPath))
    {
      if !IsTopLevel(read) {
        errorMessage := Some(ModifyError);
        return None;
      }
      if !read.value.JObj? {
        errorMessage := Some(ParseRootError);
        return None;
      }
      var json := ApplyPatch(read.value.fields, patch);
      written := Some(JObj(json));
      if !writeOk {
        errorMessage := Some(ModifyError);
        return;
      }
      LoadConfig(written);
    }

    /** `updatePrimaryModel(_:)`: `modifyConfigJson` with the primary-model
        closure. When the file decoded before, the reload yields the old typed
        configuration with the new primary model. */
    method UpdatePrimaryModel(newModel: string, read: Option<Json>, writeOk: bool) returns (written: Option<Json>)
      modifies this
      ensures configPath == old(configPath) && gatewayRunning == old(gatewayRunning) && isActive == old(isActive)
      ensures !IsTopLevel(read) ==> written == None && config == old(config) && errorMessage == Some(ModifyError)
      ensures IsTopLevel(read) && read.value.JArr? ==> written == None && config == old(config) && errorMessage == Some(ParseRootError)
      ensures IsDocument(read) ==> written == Some(JObj(Patched(read.value.fields, SetPrimary(newModel))))
      ensures IsDocument(read) && !writeOk ==> config == old(config) && errorMessage == Some(ModifyError)
      ensures IsDocument(read) && writeOk && Loaded(written).Some? ==> config == Loaded(written) && errorMessage == None
      ensures IsDocument(read) && writeOk && Loaded(written).None? ==> config == old(config) && errorMessage == Some(LoadError(configPath))
      ensures writeOk && Loaded(read).Some?
              ==> config == Some(Loaded(read).value.(agents := WithPrimary(Loaded(read).value.agents, newModel)))
                  && errorMessage == None
    {
      written := ModifyConfigJson(read, SetPrimary(newModel), writeOk);
      if writeOk && Loaded(read).Some? {
        PatchThenReload(read.value.fields, SetPrimary(newModel));
      }
    }

    /** `updateFallbackModels(_:)`, likewise for the fallback list. */
    method UpdateFallbackModels(newFallbacks: seq<string>, read: Option<Json>, writeOk: bool) returns (written: Option<Json>)
      modifies this
      ensures configPath == old(configPath) && gatewayRunning == old(gatewayRunning) && isActive == old(isActive)
      ensures !IsTopLevel(read) ==> written == None && config == old(config) && errorMessage == Some(ModifyError)
      ensures IsTopLevel(read) && read.value.JArr? ==> written == None && config == old(config) && errorMessage == Some(ParseRootError)
      ensures IsDocument(read) ==> written == Some(JObj(Patched(read.value.fields, SetFallbacks(newFallbacks))))
      ensures IsDocument(read) && !writeOk ==> config == old(config) && errorMessage == Some(ModifyError)
      ensures IsDocument(read) && writeOk && Loaded(written).Some? ==> config == Loaded(written) && errorMessage == None
      ensures IsDocument(read) && writeOk && Loaded(written).None? ==> config == old(config) && errorMessage == Some(LoadError(configPath))
      ensures writeOk && Loaded(read).Some?
              ==> config == Some(Loaded(read).value.(agents := WithFallbacks(Loaded(read).value.agents, newFallbacks)))
                  && errorMessage == None
    {
      written := ModifyConfigJson(read, SetFallbacks(newFallbacks), writeOk);
      if writeOk && Loaded(read).Some? {
        PatchThenReload(read.value.fields, SetFallbacks(newFallbacks));
      }
    }

    /** `checkGatewayStatus()` with the probe's final state as input. The port
        must fit `UInt16`, or the conversion traps. */
    method CheckGatewayStatus(state: ProbeState)
      requires config.Some? ==> 0 <= config.value.gateway.port < 0x1_0000
      modifies this
      ensures config == old(config) && errorMessage == old(errorMessage)
      ensures configPath == old(configPath) && isActive == old(isActive)
      ensures config.None? ==> !gatewayRunning
      ensures config.Some? && state.Ready? ==> gatewayRunning
      ensures config.Some? && (state.Failed? || state.Waiting?) ==> !gatewayRunning
      ensures config.Some? && state.Preparing? ==> gatewayRunning == old(gatewayRunning)
    {
      if config.None? {
        gatewayRunning := false;
        return;
      }
      match state {
        case Ready => gatewayRunning := true;
        case Failed => gatewayRunning := false;
        case Waiting => gatewayRunning := false;
        case Preparing =>
      }
    }

    /** `getAvailableModels()`: empty without a configuration, otherwise the
        deduplicated catalog sorted by display name. */
    method GetAvailableModels(providerOrder: seq<string>, aliasOrder: seq<string>) returns (models: seq<ModelDisplay>)
      requires config.Some? ==> IsEnumeration(providerOrder, config.value.models.providers.Keys)
      requires config.Some? ==> IsEnumeration(aliasOrder, AliasKeys(config.value.agents.defaults.models))
      ensures config.None? ==> models == []
      ensures config.Some? ==> SortedByDisplayName(models)
      ensures config.Some? ==> multiset(models) == multiset(KitCatalog(config.value, providerOrder, aliasOrder))
    {
      if config.None? {
        return [];
      }
      var c := config.value;
      var collected := CollectDeduplicated(c.models.providers, providerOrder, aliasOrder,
                                           KitModelDisplay.KnownProviders, KitModelDisplay.GetDisplayName);
      models := SortByDisplayName(collected);
    }

    /** One tick of `checkGatewayActivity()`: `listing` is the log directory's
        content (`None` when it is missing or cannot be read), `modified` the
        modification times that could be read, `now` the current time. */
    method CheckGatewayActivity(listing: Option<seq<string>>, modified: map<string, int>, now: int)
      modifies this
      ensures config == old(config) && errorMessage == old(errorMessage)
      ensures configPath == old(configPath) && gatewayRunning == old(gatewayRunning)
      ensures isActive == ActivityVerdict(gatewayRunning, listing, modified, now)
    {
      if !gatewayRunning {
        isActive := false;
        return;
      }
      if listing.None? {
        isActive := false;
        return;
      }
      var latest := LatestLog(listing.value);
      match latest {
        case None =>
          isActive := false;
        case Some(name) =>
          isActive := name in modified && now - modified[name] < FreshnessWindow;
      }
    }
  }

  /** The catalog of this generation before sorting, with its own label tables. */
  function KitCatalog(c: KitSchema.Config, providerOrder: seq<string>, aliasOrder: seq<string>): seq<ModelDisplay>
    requires forall k :: k in providerOrder ==> k in c.models.providers
  {
    DedupCatalog(c.models.providers, providerOrder, aliasOrder,
                 KitModelDisplay.KnownProviders, KitModelDisplay.GetDisplayName)
  }
}
