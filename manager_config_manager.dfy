/** The configuration manager of the older generation (OpenClawManager's
    `ConfigManager`).

    Unlike the current generation it edits the typed configuration in memory and
    saves by encoding the whole typed value, so whatever the schema does not
    declare (`plugins`, unknown keys) is not written back. The file system, the
    file picker and the probe are parameters, as in the current generation. */
module OpenClawManager {
  import opened Common
  import opened JsonTree
  import opened SchemaParts
  import ManagerSchema
  import opened Locator
  import opened GatewayProbe
  import opened Catalog
  import ManagerModelDisplay

  /** The typed configuration a read yields (`None`: unreadable, not JSON, or
      not of the schema's shape). */
  function Loaded(read: Option<Json>): Option<ManagerSchema.Config> {
    if read.Some? then ManagerSchema.Decode(read.value) else None
  }

  /** The fixed part of `loadConfig`'s message; the error details follow it. */
  function LoadError(path: string): string {
    "Failed to load config from " + path + "\nDetails: "
  }

  /** The fixed part of `saveConfig`'s message. */
  const SaveError: string := "Failed to save config: "

  /** The typed edits: the primary model, or the fallback list. */
  function WithPrimaryModel(c: ManagerSchema.Config, primary: string): (r: ManagerSchema.Config)
    ensures r.agents.defaults.model == ModelConfig(primary, c.agents.defaults.model.fallbacks)
    ensures r.agents.defaults.models == c.agents.defaults.models && r.agents.defaults.workspace == c.agents.defaults.workspace
    ensures r.(agents := c.agents) == c
  {
    c.(agents := WithPrimary(c.agents, primary))
  }

  function WithFallbackModels(c: ManagerSchema.Config, fallbacks: seq<string>): (r: ManagerSchema.Config)
    ensures r.agents.defaults.model == ModelConfig(c.agents.defaults.model.primary, fallbacks)
    ensures r.agents.defaults.models == c.agents.defaults.models && r.agents.defaults.workspace == c.agents.defaults.workspace
    ensures r.(agents := c.agents) == c
  {
    c.(agents := WithFallbacks(c.agents, fallbacks))
  }

  /** The two typed edits are independent of each other, and repeating one
      changes nothing more. */
  lemma TypedEditsCommute(c: ManagerSchema.Config, primary: string, fallbacks: seq<string>)
    ensures WithFallbackModels(WithPrimaryModel(c, primary), fallbacks)
         == WithPrimaryModel(WithFallbackModels(c, fallbacks), primary)
    ensures WithPrimaryModel(WithPrimaryModel(c, primary), primary) == WithPrimaryModel(c, primary)
    ensures WithFallbackModels(WithFallbackModels(c, fallbacks), fallbacks) == WithFallbackModels(c, fallbacks)
  {
  }

  /** Saving writes the typed value only: two files that differ in their
      `plugins` section load to the same configuration, so an edit followed by a
      save writes the same thing for both, and the section is lost. */
  lemma SaveCannotKeepPlugins(m: map<string, Json>, plugins: Json, primary: string)
    requires Loaded(Some(JObj(m["plugins" := plugins]))).Some?
    ensures Loaded(Some(JObj(m - {"plugins"}))).Some?
    ensures WithPrimaryModel(Loaded(Some(JObj(m["plugins" := plugins]))).value, primary)
         == WithPrimaryModel(Loaded(Some(JObj(m - {"plugins"}))).value, primary)
  {
    ManagerSchema.PluginsInvisible(m, plugins);
  }

  class ConfigManager {
    var config: Option<ManagerSchema.Config>
    var gatewayRunning: bool
    var errorMessage: Option<string>
    var configPath: string

    /** `init()`: the first candidate that exists, else the file the user picks
        (`selected`), else the default path; then a load of what that path holds. */
    constructor (home: string, existing: set<string>, selected: Option<string>, read: Option<Json>)
      ensures configPath == (match FirstExisting(OpenClawCandidates(home), existing)
                             case Some(p) => p
                             case None => if selected.Some? then selected.value else OpenClawDefault(home))
      ensures !gatewayRunning
      ensures config == Loaded(read)
      ensures errorMessage == if Loaded(read).Some? then None else Some(LoadError(configPath))
    {
      config := None;
      gatewayRunning := false;
      errorMessage := None;
      var found := FindOpenClawConfig(home, existing);
      match found {
        case Some(p) => configPath := p;
        case None =>
          if selected.Some? {
            configPath := selected.value;
          } else {
            configPath := OpenClawDefault(home);
          }
      }
      new;
      LoadConfig(read);
    }

    /** `loadConfig()`: success replaces the configuration and clears the error;
        failure keeps the last configuration and reports the path. */
    method LoadConfig(read: Option<Json>)
      modifies this
      ensures configPath == old(configPath) && gatewayRunning == old(gatewayRunning)
      ensures Loaded(read).Some? ==> config == Loaded(read) && errorMessage == None
      ensures Loaded(read).None? ==> config == old(config) && errorMessage == Some(LoadError(configPath))
    {
      var decoded := Loaded(read);
      if decoded.Some? {
        config := decoded;
        errorMessage := None;
      } else {
        errorMessage := Some(LoadError(configPath));
      }
    }

    /** `saveConfig()`: without a configuration nothing happens; otherwise the
        typed configuration is handed to the encoder and writer (`written`), and
        the error is cleared or set by whether the write succeeded. */
    method SaveConfig(writeOk: bool) returns (written: Option<ManagerSchema.Config>)
      modifies this
      ensures config == old(config) && configPath == old(configPath) && gatewayRunning == old(gatewayRunning)
      ensures written == config
      ensures config.None? ==> errorMessage == old(errorMessage)
      ensures config.Some? ==> errorMessage == if writeOk then None else Some(SaveError)
    {
      if config.None? {
        return None;
      }
      written := config;
      if writeOk {
        errorMessage := None;
      } else {
        errorMessage := Some(SaveError);
      }
    }

    /** `updatePrimaryModel(_:)`: edit the typed configuration in memory, then
        save it. Without a configuration nothing is written. */
    method UpdatePrimaryModel(newModel: string, writeOk: bool) returns (written: Option<ManagerSchema.Config>)
      modifies this
      ensures configPath == old(configPath) && gatewayRunning == old(gatewayRunning)
      ensures old(config).None? ==> config.None? && written.None? && errorMessage == old(errorMessage)
      ensures old(config).Some? ==> config == Some(WithPrimaryModel(old(config).value, newModel)) && written == config
      ensures old(config).Some? ==> errorMessage == if writeOk then None else Some(SaveError)
    {
      if config.Some? {
        config := Some(WithPrimaryModel(config.value, newModel));
      }
      written := SaveConfig(writeOk);
    }

    /** `updateFallbackModels(_:)`, likewise for the fallback list. */
    method UpdateFallbackModels(newFallbacks: seq<string>, writeOk: bool) returns (written: Option<ManagerSchema.Config>)
      modifies this
      ensures configPath == old(configPath) && gatewayRunning == old(gatewayRunning)
      ensures old(config).None? ==> config.None? && written.None? && errorMessage == old(errorMessage)
      ensures old(config).Some? ==> config == Some(WithFallbackModels(old(config).value, newFallbacks)) && written == config
      ensures old(config).Some? ==> errorMessage == if writeOk then None else Some(SaveError)
    {
      if config.Some? {
        config := Some(WithFallbackModels(config.value, newFallbacks));
      }
      written := SaveConfig(writeOk);
    }

    /** `checkGatewayStatus()` with the probe's final state as input. The port
        must fit `UInt16`, or the conversion traps. */
    method CheckGatewayStatus(state: ProbeState)
      requires config.Some? ==> 0 <= config.value.gateway.port < 0x1_0000
      modifies this
      ensures config == old(config) && errorMessage == old(errorMessage) && configPath == old(configPath)
      ensures config.None? ==> !gatewayRunning
      ensures config.Some? && state.Ready? ==> gatewayRunning
      ensures config.Some? && (state.Failed? || state.Waiting?) ==> !gatewayRunning
      ensures config.Some? && state.Preparing? ==> gatewayRunning == old(gatewayRunning)
    {
      if config.None? {
        gatewayRunning := false;
        return;
      }
      match state {
        case Ready => gatewayRunning := true;
        case Failed => gatewayRunning := false;
        case Waiting => gatewayRunning := false;
        case Preparing =>
      }
    }

    /** `getAvailableModels()`: empty without a configuration, otherwise the
        deduplicated catalog with this generation's tables, sorted by display
        name. */
    method GetAvailableModels(providerOrder: seq<string>, aliasOrder: seq<string>) returns (models: seq<ModelDisplay>)
      requires config.Some? ==> IsEnumeration(providerOrder, config.value.models.providers.Keys)
      requires config.Some? ==> IsEnumeration(aliasOrder, AliasKeys(config.value.agents.defaults.models))
      ensures config.None? ==> models == []
      ensures config.Some? ==> SortedByDisplayName(models)
      ensures config.Some? ==> multiset(models) == multiset(DedupCatalog(config.value.models.providers, providerOrder, aliasOrder,
                                                                         ManagerModelDisplay.KnownProviders, ManagerModelDisplay.GetDisplayName))
    {
      if config.None? {
        return [];
      }
      var c := config.value;
      var collected := CollectDeduplicated(c.models.providers, providerOrder, aliasOrder,
                                           ManagerModelDisplay.KnownProviders, ManagerModelDisplay.GetDisplayName);
      models := SortByDisplayName(collected);
    }
  }
}
