# OpenClaw gateway manager: configuration and model catalog

This project models the configuration layer of a macOS menu-bar app that manages a
local "gateway" process. The app has three generations, and each has its own
`ConfigManager`:

- `OpenClawKit` is the current one. It edits the JSON document in place and reloads it.
- `OpenClawManager` is older. It edits the typed configuration and re-encodes it.
- `MoltbotManager` is the oldest. It also re-encodes, it does not deduplicate the
  model catalog, and it counts gateway processes from a shell command's output.

The model covers, for every generation:

- **Config locator:** an ordered probe over candidate paths.
- **Load state:** replace on success, keep on failure.
- **Typed schema:** which sections and fields are required, as a decoder from a
  JSON tree.
- **Model edits:** how the primary and fallback models are changed.
- **Model catalog:** provider models plus alias keys, deduplicated in the two newer
  generations, then sorted by display name.
- **Display-name tables and the menu bar's status helpers.**
- **Current generation only:** the log-activity tick.

Modules, one file each:

- `Common`: Option, ASCII lowercasing, first index, and lexicographic order.
- `JsonTree`: the JSON tree and path writes.
- `Decoding`: decoding combinators, where an absent key reads as `null`.
- `SchemaParts`: the structs both schema files share.
- `KitSchema` and `ManagerSchema`: the two top-level schemas.
- `Locator`: the config locator.
- `KitModelDisplay` and `ManagerModelDisplay`: the display-name tables.
- `Catalog`, `CatalogProperties` and `CatalogOrder`: the catalog, its
  specification, and its independence from enumeration order.
- `GatewayProbe`: the final state of the TCP probe.
- `OpenClawKit`, `OpenClawManager` and `MoltbotManager`: the three managers.
- `KitScenarios`: worked examples.
- `MenuBar`: the menu-bar helpers.

File-system effects become parameters of the methods:

- `read: Option<Json>` is what reading and parsing the file at `configPath` yields.
  `None` means unreadable or not JSON. The current generation's editor parses
  without `.fragmentsAllowed`, so there a top-level scalar fails like
  unparsable JSON, with the modify error (`OpenClawKit.IsTopLevel`).
- `existing: set<string>` is the set of paths that exist.
- `writeOk: bool` says whether the write succeeded.
- The methods that write return what they hand to the writer.
- Swift dictionaries have no defined iteration order. The order in which the
  catalog visits providers and alias keys is an input (`IsEnumeration`), and
  `CatalogOrder` proves that the catalog's entries, as a multiset, do not depend
  on it, and neither does the sequence of display names in the sorted catalog.
  Entries with equal display names may come out in either order.

Points of the code's behaviour that the model keeps as written:

- **Provider entries are known.** A provider entry is known unless its provider
  is `ollama`, so in the two-entry example the OpenAI entry is known
  (`KitScenarios.TwoEntryCatalog`).
- **The write is not atomic.** The file write in the current generation is a plain
  `write(to:)`, so nothing is claimed about the file after a failed write.
- **Tie order is unspecified.** Swift's `sorted` is not documented as stable. The
  catalog is stated as sorted and a permutation, with no claim about the order of
  ties.
- **Ids are not globally unique.** Deduplication only guards the alias stage.
  Two provider entries can share an id (`CatalogProperties.ProviderIdsCanCollide`:
  `"a" + "/" + "b/c" == "a/b" + "/" + "c"`). Uniqueness of the whole catalog
  holds under a precondition that the provider-derived ids are distinct
  (`CatalogProperties.DedupKeepsIdsDistinct`, `CatalogProperties.ProviderIdsDistinct`).

`MoltbotManager`'s own schema and display-table files are not part of this model.
That generation is modelled with the `OpenClawManager` schema and tables, which its
code uses through the same type names.

## Model

| member | source | states |
|---|---|---|
| Common.LookupOr | Sources/OpenClawKit/ModelDisplay.swift:50 | a table lookup yields the entry when the key is present and the fallback otherwise |
| Common.FirstIndexOf | Sources/OpenClawKit/ConfigManager.swift:202 | the result is absent exactly when the character does not occur; otherwise it is the position of its first occurrence |
| Common.SplitAtFirstSlash | Sources/OpenClawKit/ConfigManager.swift:202-204 | for `p + "/" + m` with no `/` in `p`, the first `/` is right after `p`, and the two slices are `p` and `m` |
| Decoding.Int | Sources/OpenClawKit/MoltbotConfig.swift:55-56 | an `Int` field (`contextWindow`, `maxTokens`, and `gateway.port` at line 158) decodes exactly when it is a number in the 64-bit range, to that number |
| Decoding.Number | Sources/OpenClawKit/MoltbotConfig.swift:59-62 | a `Double` cost field decodes exactly when it is a number |
| Decoding.Optional | Sources/OpenClawKit/MoltbotConfig.swift:4-15 | an optional field decodes to `None` when absent or null, and otherwise succeeds exactly when the inner decoder does, with its value |
| Decoding.StringArrayRoundTrip | Sources/OpenClawKit/ConfigManager.swift:252 | a list of strings stored as a JSON array decodes back to the same list, in order |
| SchemaParts.DecodeModel | Sources/OpenClawKit/MoltbotConfig.swift:49-57 | a decoded model's id is the document's `id` string |
| SchemaParts.DecodeProvider | Sources/OpenClawKit/MoltbotConfig.swift:44-48 | a decoded provider's models are the decoded `models` array |
| SchemaParts.ModelRequiresIdAndName | Sources/OpenClawKit/MoltbotConfig.swift:49-57 | a model decodes only from a mapping with string `id` and `name` |
| SchemaParts.MinimalModelDecodes | Sources/OpenClawKit/MoltbotConfig.swift:49-57 | `id` and `name` alone suffice; every other model field is optional |
| SchemaParts.ModelConfigRequiresBoth | Sources/OpenClawKit/MoltbotConfig.swift:73-76 | the model selection needs both a string `primary` and a `fallbacks` array |
| SchemaParts.MinimalDefaultsDecode | Sources/OpenClawKit/MoltbotConfig.swift:69-79 | defaults with only `model` decode; the alias map and `workspace` are optional |
| SchemaParts.PrimaryWriteDecodes | Sources/OpenClawKit/ConfigManager.swift:232-244 | writing a string at `defaults.model.primary` of an agents section that decodes gives that section with only the primary model replaced |
| SchemaParts.FallbacksWriteDecodes | Sources/OpenClawKit/ConfigManager.swift:246-258 | writing the fallback list as an array gives the decoded section with only the fallbacks replaced |
| KitSchema.Decode | Sources/OpenClawKit/MoltbotConfig.swift:3-15 | only a mapping can decode, and the decoded configuration's `models`, `agents` and `gateway` are exactly the decodings of the sections under those keys |
| KitSchema.DecodeNeedsCoreSections | Sources/OpenClawKit/MoltbotConfig.swift:3-15 | a document decodes only if `models` (with a provider mapping), `agents` (with decodable defaults) and `gateway` (with a port that is a number in the 64-bit `Int` range) are present |
| KitSchema.OptionalSectionsMayBeOmitted | Sources/OpenClawKit/MoltbotConfig.swift:4-15 | removing the nine optional sections from a document that decodes still decodes, to the same configuration with those sections absent |
| KitSchema.CoreSectionsSuffice | Sources/OpenClawKit/MoltbotConfig.swift:157-162 | a document with only the three core sections, a model selection and a port in the 64-bit `Int` range decodes |
| KitSchema.UnknownKeysIgnored | Sources/OpenClawKit/MoltbotConfig.swift:3-15 | a top-level key the schema does not declare does not affect decoding |
| KitSchema.ReplaceAgentsSection | Sources/OpenClawKit/MoltbotConfig.swift:7-8 | replacing the `agents` section with one that decodes changes only the `agents` field of the decoded configuration |
| ManagerSchema.Decode | Sources/OpenClawManager/MoltbotConfig.swift:3-14 | only a mapping can decode, and the decoded configuration's `models`, `agents` and `gateway` are exactly the decodings of the sections under those keys |
| ManagerSchema.DecodeNeedsEverySection | Sources/OpenClawManager/MoltbotConfig.swift:3-14 | all eleven top-level sections must be present as mappings |
| ManagerSchema.RecordSectionsNeedEveryString | Sources/OpenClawManager/MoltbotConfig.swift:16-34 | `meta`, `wizard` and every auth profile must carry each of their fields as a string |
| ManagerSchema.GatewayNeedsEveryField | Sources/OpenClawManager/MoltbotConfig.swift:139-153 | the gateway needs a port that is a number in the 64-bit `Int` range, string mode and bind, and decodable auth and tailscale settings |
| ManagerSchema.TelegramNeedsEveryField | Sources/OpenClawManager/MoltbotConfig.swift:127-137 | a present telegram channel needs all six of its fields |
| ManagerSchema.UnknownKeysIgnored | Sources/OpenClawManager/MoltbotConfig.swift:3-14 | keys outside the eleven sections do not affect decoding |
| ManagerSchema.PluginsInvisible | Sources/OpenClawManager/MoltbotConfig.swift:3-14 | documents that differ only in `plugins` decode to the same value |
| Locator.FirstExisting | Sources/OpenClawKit/ConfigManager.swift:42-67 | absent exactly when no candidate exists; otherwise an existing candidate with no existing candidate before it |
| Locator.FindOpenClawConfig | Sources/OpenClawKit/ConfigManager.swift:42-67 | the chain of existence checks returns the first existing path of the four candidates, in their order |
| Locator.NothingFoundWhenNoCandidateExists | Sources/OpenClawManager/ConfigManager.swift:26-51 | when none of the four paths exists the locator reports none |
| Locator.FindMoltbotConfig | Sources/MoltbotManager/ConfigManager.swift:25-44 | the oldest locator returns the first existing path of its three candidates |
| Locator.FindPicksFirst | Sources/OpenClawKit/ConfigManager.swift:42-67 | a candidate that exists, with none before it existing, is the one returned |
| Locator.WorkingDirectoryFirst | Sources/MoltbotManager/ConfigManager.swift:26-29 | a config file in the working directory wins over every home-directory candidate, in both locators |
| KitModelDisplay.GetDisplayName | Sources/OpenClawKit/ModelDisplay.swift:35-51 | the label of the lower-cased id when the table has it, and the id unchanged otherwise |
| KitModelDisplay.TableKeysAreLowerCase | Sources/OpenClawKit/ModelDisplay.swift:20-48 | every key of both tables is already lower case, so the lower-cased lookup can reach every entry |
| KitModelDisplay.KnownIdsGetTheirLabel | Sources/OpenClawKit/ModelDisplay.swift:50 | an id that matches a table key up to case gets that key's label |
| KitModelDisplay.DisplayNameIgnoresCase | Sources/OpenClawKit/ModelDisplay.swift:50 | ids that differ only in case get the same label when the table knows them |
| KitModelDisplay.SixKnownProviders | Sources/OpenClawKit/ModelDisplay.swift:20-27 | exactly the six named providers have a label |
| KitModelDisplay.ClaudeOpusExample | Sources/OpenClawKit/ModelDisplay.swift:42 | both `claude-opus-4-5` and `Claude-Opus-4-5` are shown as `Claude Opus 4.5` |
| ManagerModelDisplay.GetDisplayName | Sources/OpenClawManager/ModelDisplay.swift:27-43 | the older lookup: the label of the lower-cased id, or the id unchanged |
| ManagerModelDisplay.ProvidersSameAsKit | Sources/OpenClawManager/ModelDisplay.swift:12-19 | the older provider table is the current one: the same six keys and labels |
| ManagerModelDisplay.DisplayNamesSameAsKit | Sources/OpenClawManager/ModelDisplay.swift:29-40 | both generations show every id under the same name |
| ManagerModelDisplay.DisplayNameIgnoresCase | Sources/OpenClawManager/ModelDisplay.swift:42 | the older lookup ignores letter case for known ids |
| Catalog.CollectProviderEntries | Sources/OpenClawKit/ConfigManager.swift:179-196 | the provider loop appends one entry per declared model, provider by provider in enumeration order, and `addedIds` holds exactly the ids appended |
| Catalog.CollectDeduplicated | Sources/OpenClawKit/ConfigManager.swift:173-227 | the nested loops with the `addedIds` set build exactly the deduplicated catalog: provider entries, then each slashed alias key not already emitted |
| Catalog.CollectAllProviderEntries | Sources/MoltbotManager/ConfigManager.swift:130-145 | the oldest provider loop appends one entry per declared model, provider by provider in enumeration order |
| Catalog.CollectAll | Sources/MoltbotManager/ConfigManager.swift:128-172 | the oldest loops build exactly the full catalog: provider entries, then every slashed alias key |
| Catalog.AliasIdsAmongKeys | Sources/OpenClawKit/ConfigManager.swift:199-224 | every alias entry's id is one of the alias keys and was not already emitted |
| Catalog.InsertByDisplayName | Sources/OpenClawKit/ConfigManager.swift:229 | inserting into a sorted list keeps it sorted and adds exactly the one entry |
| Catalog.SortByDisplayName | Sources/OpenClawKit/ConfigManager.swift:229 | the result is non-decreasing by display name and a permutation of the input |
| CatalogProperties.BlockMembers | Sources/OpenClawKit/ConfigManager.swift:180-195 | an entry comes from a provider's block exactly when it describes one of its models: id `provider/model.id`, name `model.name`, provider label, `isLocal` iff `ollama`, `isKnown == !isLocal` |
| CatalogProperties.ProviderEntriesMembers | Sources/OpenClawKit/ConfigManager.swift:179-196 | the provider stage holds exactly the descriptions of the models of the enumerated providers |
| CatalogProperties.AliasEntryMeaning | Sources/OpenClawKit/ConfigManager.swift:199-213 | an alias key yields nothing exactly when it has no `/`; otherwise the entry has the whole key as id, the label of the text after the first `/`, the provider label of the text before it, and is known and not local |
| CatalogProperties.AliasEntriesMembers | Sources/OpenClawKit/ConfigManager.swift:199-227 | the alias stage holds exactly the entries of slashed keys that were not already emitted |
| CatalogProperties.FlagRules | Sources/OpenClawKit/ConfigManager.swift:183-184 | in both catalogs every entry is known exactly when it is not local, and local entries come from `ollama` |
| CatalogProperties.ProviderEntriesWin | Sources/OpenClawKit/ConfigManager.swift:214-224 | an id emitted by a provider appears in the catalog only as the provider's own entry |
| CatalogProperties.AliasIdsDistinct | Sources/OpenClawKit/ConfigManager.swift:214-224 | distinct alias keys give alias entries with distinct ids |
| CatalogProperties.DedupKeepsIdsDistinct | Sources/OpenClawKit/ConfigManager.swift:176-224 | when the provider ids are distinct, the deduplicated catalog has no repeated id |
| CatalogProperties.ProviderIdsDistinct | Sources/OpenClawKit/ConfigManager.swift:179-196 | provider names without `/`, each with distinct model ids, give distinct provider ids |
| CatalogProperties.ProviderIdsCanCollide | Sources/OpenClawKit/ConfigManager.swift:186-194 | without that precondition two providers can emit the same id, and the deduplicating catalog keeps both |
| CatalogProperties.ProviderEntriesCount | Sources/OpenClawKit/ConfigManager.swift:179-196 | the provider stage has one entry per declared model |
| CatalogProperties.AliasEntriesCount | Sources/OpenClawKit/ConfigManager.swift:199-227 | the alias stage has one entry per slashed key not already emitted |
| CatalogProperties.FullCatalogSize | Sources/MoltbotManager/ConfigManager.swift:130-172 | the oldest catalog's length is the number of provider models plus the number of slashed alias keys |
| CatalogProperties.DedupCatalogSize | Sources/OpenClawManager/ConfigManager.swift:155-207 | the deduplicated catalog's length is the number of provider models plus the slashed alias keys not emitted by a provider |
| CatalogProperties.DuplicateAliasKeptByFullCatalog | Sources/MoltbotManager/ConfigManager.swift:148-172 | an alias repeating a provider id is appended again: two entries with the same id |
| CatalogProperties.DuplicateAliasDroppedByDedupCatalog | Sources/OpenClawManager/ConfigManager.swift:193-204 | the same input gives a single entry when aliases are deduplicated |
| CatalogProperties.ProviderStageOfDuplicate | Sources/OpenClawKit/ConfigManager.swift:179-196 | the provider stage of that input emits the id once |
| CatalogProperties.AliasStageOfDuplicate | Sources/OpenClawKit/ConfigManager.swift:213-224 | the alias stage emits the key when it was not already emitted, and nothing when it was |
| CatalogOrder.ProviderEntriesConcat | Sources/OpenClawKit/ConfigManager.swift:179-196 | visiting providers in two runs gives the concatenation of the two runs' entries |
| CatalogOrder.AliasEntriesConcat | Sources/OpenClawKit/ConfigManager.swift:200-226 | the same holds for alias keys against a fixed set of emitted ids |
| CatalogOrder.ProviderEntriesReorder | Sources/OpenClawKit/ConfigManager.swift:179 | visiting the providers in another order gives the same entries as a multiset |
| CatalogOrder.AliasEntriesReorder | Sources/OpenClawKit/ConfigManager.swift:200 | visiting the alias keys in another order gives the same entries as a multiset |
| CatalogOrder.EnumerationsAgree | Sources/OpenClawKit/ConfigManager.swift:179 | two enumerations of a dictionary's keys are permutations of each other |
| CatalogOrder.CatalogOrderIndependent | Sources/OpenClawKit/ConfigManager.swift:179-227 | both catalogs have the same entries, as a multiset, whatever the dictionaries' iteration order |
| CatalogOrder.NamesOfPermutation | Sources/OpenClawKit/ConfigManager.swift:229 | permuting entries permutes their display names |
| CatalogOrder.SortedNamesUnique | Sources/OpenClawKit/ConfigManager.swift:229 | two sorted permutations of the same names are equal |
| CatalogOrder.SortedCatalogDetermined | Sources/OpenClawKit/ConfigManager.swift:170-230 | for any iteration orders the sorted deduplicated catalog has the same entries and the same sequence of display names; only entries with equal names may change places |
| CatalogOrder.SortedFullCatalogDetermined | Sources/MoltbotManager/ConfigManager.swift:125-175 | the same for the oldest generation's catalog, which keeps repeated ids |
| OpenClawKit.ApplyPatch | Sources/OpenClawKit/ConfigManager.swift:233-243 | the step-by-step closure (read each node as a mapping or empty, set the key, store each node back) computes the path write at `agents.defaults.model.<key>` |
| OpenClawKit.PatchWrites | Sources/OpenClawKit/ConfigManager.swift:238-252 | after the edit the target key holds the new value; a fallback list reads back as the same list in the same order |
| OpenClawKit.PatchPreservesOtherPaths | Sources/OpenClawKit/ConfigManager.swift:232-258 | every path that is neither on the way to the target nor below it keeps its value or stays absent |
| OpenClawKit.PatchLeavesOtherSectionsAlone | Tests/OpenClawManagerTests/ConfigManagerTests.swift:107-113 | nothing outside `agents` changes, including channel tokens, plugins and unknown keys |
| OpenClawKit.PatchIdempotent | Sources/OpenClawKit/ConfigManager.swift:232-258 | applying the same update twice equals applying it once |
| OpenClawKit.PatchesCommute | Sources/OpenClawKit/ConfigManager.swift:232-258 | setting the primary model and setting the fallbacks commute |
| OpenClawKit.PatchCreatesMissingNodes | Sources/OpenClawKit/ConfigManager.swift:234-236 | a missing or non-mapping `agents`, `defaults` or `model` node becomes a fresh mapping holding only what the edit writes |
| OpenClawKit.PatchThenReload | Sources/OpenClawKit/ConfigManager.swift:106-112 | reloading an edited document that decoded before gives the old configuration with only the model selection replaced |
| OpenClawKit.PatchedAgents | Sources/OpenClawKit/ConfigManager.swift:232-258 | inside `agents` either edit writes `defaults.model.primary` or `defaults.model.fallbacks`, and the section still decodes with only that field of the selection replaced |
| OpenClawKit.UpdatePreservesChannelsAndPlugins | Tests/OpenClawManagerTests/ConfigManagerTests.swift:89-128 | after an update and a reload the selection is the new one, and channels and plugins are unchanged |
| OpenClawKit.LatestLog | Sources/OpenClawKit/ConfigManager.swift:290-292 | absent exactly when no name has the `openclaw-` prefix and `.log` suffix; otherwise a listed log file that sorts last among them |
| OpenClawKit.ActivityVerdictMeaning | Sources/OpenClawKit/ConfigManager.swift:273-310 | active exactly when the gateway runs, the directory lists, and the latest log file has a time less than 10000 ms before now; otherwise idle |
| OpenClawKit.ConfigManager.constructor | Sources/OpenClawKit/ConfigManager.swift:36-39 | the test initializer keeps the given path and loads it |
| OpenClawKit.ConfigManager.Discover | Sources/OpenClawKit/ConfigManager.swift:15-33 | the path is the first existing candidate, else the default under the home directory; then it loads |
| OpenClawKit.ConfigManager.LoadConfig | Sources/OpenClawKit/ConfigManager.swift:84-95 | success replaces the configuration and clears the error; failure keeps the configuration and reports the path |
| OpenClawKit.ConfigManager.ModifyConfigJson | Sources/OpenClawKit/ConfigManager.swift:97-117 | an unreadable file, one that is not JSON, one whose top level is a bare scalar (the parser runs without `.fragmentsAllowed`) or a failed write reports the modify error; a top-level array reports the parse error; in the unreadable, non-JSON, scalar and array cases nothing is written; a mapping is patched and handed to the writer, then reloaded if the write succeeds; after a failed write nothing is claimed about the file; `configPath`, `gatewayRunning` and `isActive` never change |
| OpenClawKit.ConfigManager.UpdatePrimaryModel | Sources/OpenClawKit/ConfigManager.swift:232-244 | every outcome of `modifyConfigJson` with the primary-model closure: the modify or parse error with nothing written when the file is unreadable, not JSON, a scalar or an array; a mapping is patched and handed to the writer, and a failed write reports the modify error with nothing claimed about the file; after a successful write it is reloaded, the configuration kept when the reload fails; when the file decoded before, the reload gives the old configuration with only the primary model replaced; `configPath`, `gatewayRunning` and `isActive` never change |
| OpenClawKit.ConfigManager.UpdateFallbackModels | Sources/OpenClawKit/ConfigManager.swift:246-258 | the same outcomes with the fallback closure; when the file decoded before, the reload gives the old configuration with only the fallback list replaced; `configPath`, `gatewayRunning` and `isActive` never change |
| OpenClawKit.ConfigManager.CheckGatewayStatus | Sources/OpenClawKit/ConfigManager.swift:119-152 | no configuration means not running; a ready probe means running; a failed or waiting probe means not running; other states change nothing |
| OpenClawKit.ConfigManager.GetAvailableModels | Sources/OpenClawKit/ConfigManager.swift:170-230 | empty without a configuration; otherwise sorted by display name and a permutation of the deduplicated catalog |
| OpenClawKit.ConfigManager.CheckGatewayActivity | Sources/OpenClawKit/ConfigManager.swift:273-310 | `isActive` becomes the activity verdict, and nothing else changes |
| KitScenarios.SortedPairDetermined | Sources/OpenClawKit/ConfigManager.swift:229 | two entries with different names have exactly one sorted order |
| KitScenarios.OneOfEachCatalog | Sources/OpenClawKit/ConfigManager.swift:170-230 | one provider model and one different alias give two entries, ordered by name |
| KitScenarios.TwoEntryCatalog | Sources/OpenClawKit/ConfigManager.swift:170-230 | an OpenAI model and the `anthropic/claude-opus-4-5` alias give the Claude alias first, then the OpenAI model, both known |
| KitScenarios.LatestOfTwo | Sources/OpenClawKit/ConfigManager.swift:292 | of two log files the later name is the latest |
| KitScenarios.TwoLogFiles | Sources/OpenClawKit/ConfigManager.swift:288-299 | with `openclaw-01.log` and `openclaw-02.log`, only the newer file's time decides |
| KitScenarios.StoppedGatewayIsIdle | Sources/OpenClawKit/ConfigManager.swift:274-277 | a stopped gateway is idle whatever the directory holds |
| OpenClawManager.WithPrimaryModel | Sources/OpenClawManager/ConfigManager.swift:212-217 | the typed edit sets the primary model, keeps the fallbacks, and changes no other field |
| OpenClawManager.WithFallbackModels | Sources/OpenClawManager/ConfigManager.swift:219-224 | the typed edit sets the fallbacks, keeps the primary model, and changes no other field |
| OpenClawManager.TypedEditsCommute | Sources/OpenClawManager/ConfigManager.swift:212-224 | the two typed edits commute, and each is idempotent |
| OpenClawManager.SaveCannotKeepPlugins | Sources/OpenClawManager/ConfigManager.swift:81-94 | two files differing only in `plugins` give the same value to save after an edit, so the section cannot be written back |
| OpenClawManager.ConfigManager.constructor | Sources/OpenClawManager/ConfigManager.swift:11-24 | the path is the first existing candidate, else the picked file, else the default; then it loads |
| OpenClawManager.ConfigManager.LoadConfig | Sources/OpenClawManager/ConfigManager.swift:69-79 | success replaces the configuration and clears the error; failure keeps it and reports the path |
| OpenClawManager.ConfigManager.SaveConfig | Sources/OpenClawManager/ConfigManager.swift:81-94 | without a configuration nothing is written; otherwise the typed configuration is written, and the error is cleared on success and set on failure |
| OpenClawManager.ConfigManager.UpdatePrimaryModel | Sources/OpenClawManager/ConfigManager.swift:212-217 | with a configuration, the primary model is changed in memory and saved, and the error follows the write; without one nothing is written and nothing changes; `configPath` and `gatewayRunning` never change |
| OpenClawManager.ConfigManager.UpdateFallbackModels | Sources/OpenClawManager/ConfigManager.swift:219-224 | the same for the fallback list; `configPath` and `gatewayRunning` never change |
| OpenClawManager.ConfigManager.CheckGatewayStatus | Sources/OpenClawManager/ConfigManager.swift:96-130 | the probe's final state sets the flag as in the current generation |
| OpenClawManager.ConfigManager.GetAvailableModels | Sources/OpenClawManager/ConfigManager.swift:150-210 | empty without a configuration; otherwise sorted and a permutation of the deduplicated catalog with this generation's tables |
| MoltbotManager.TrimStart | Sources/MoltbotManager/ConfigManager.swift:101 | removes exactly the leading whitespace |
| MoltbotManager.TrimEnd | Sources/MoltbotManager/ConfigManager.swift:101 | removes exactly the trailing whitespace |
| MoltbotManager.TrimSurrounded | Sources/MoltbotManager/ConfigManager.swift:101 | trimming whitespace around a core that neither starts nor ends with whitespace gives the core |
| MoltbotManager.ParseInt | Sources/MoltbotManager/ConfigManager.swift:104 | a parsed value fits a 64-bit `Int`, and the text starts with a digit or a sign |
| MoltbotManager.DecimalRoundTrip | Sources/MoltbotManager/ConfigManager.swift:104 | the decimal digits of `n` are non-empty and read back as `n` |
| MoltbotManager.ParseDecimal | Sources/MoltbotManager/ConfigManager.swift:104 | `Int(_:)` parses the decimal text of any count up to the 64-bit maximum back to the count |
| MoltbotManager.RunningIffPositiveCount | Sources/MoltbotManager/ConfigManager.swift:100-104 | output that is a count surrounded by whitespace means running exactly when the count is positive |
| MoltbotManager.UnreadableOutputMeansStopped | Sources/MoltbotManager/ConfigManager.swift:101-104 | unreadable or unparsable output counts as 0, which means not running |
| MoltbotManager.ConfigManager.constructor | Sources/MoltbotManager/ConfigManager.swift:10-23 | the path is the first of the three candidates that exists, else the picked file, else the fixed default; then it loads |
| MoltbotManager.ConfigManager.LoadConfig | Sources/MoltbotManager/ConfigManager.swift:62-72 | success replaces the configuration and clears the error; failure keeps it and reports the path |
| MoltbotManager.ConfigManager.SaveConfig | Sources/MoltbotManager/ConfigManager.swift:74-87 | without a configuration nothing is written; otherwise the error follows the write's outcome |
| MoltbotManager.ConfigManager.UpdatePrimaryModel | Sources/MoltbotManager/ConfigManager.swift:177-182 | with a configuration, the primary model is changed and saved, and the error follows the write; without one nothing is written and nothing changes; `configPath` and `gatewayRunning` never change |
| MoltbotManager.ConfigManager.UpdateFallbackModels | Sources/MoltbotManager/ConfigManager.swift:184-189 | the same for the fallback list; `configPath` and `gatewayRunning` never change |
| MoltbotManager.ConfigManager.CheckGatewayStatus | Sources/MoltbotManager/ConfigManager.swift:89-107 | the flag becomes whether the trimmed output parses to a positive count |
| MoltbotManager.ConfigManager.GetAvailableModels | Sources/MoltbotManager/ConfigManager.swift:125-175 | empty without a configuration; otherwise sorted and a permutation of the full, non-deduplicated catalog of this configuration's provider and alias keys, in any enumeration order |
| MenuBar.GetModelDisplayName | Sources/OpenClawManager/MenuBarContentView.swift:138-155 | the name shown is a label of the six-entry table or a tail of the id: the whole id, or what follows its first `/` |
| MenuBar.ProviderNeverShown | Sources/OpenClawManager/MenuBarContentView.swift:149-152 | for `provider/model` the result is the label of `model` or `model` itself, and never depends on the provider |
| MenuBar.BareIdLookedUpWhole | Sources/OpenClawManager/MenuBarContentView.swift:154 | an id without `/` is looked up whole and shown unchanged when absent |
| MenuBar.MenuTableWithinCatalogTable | Sources/OpenClawManager/MenuBarContentView.swift:139-146 | every entry of the six-entry table is in the catalog's table with the same label |
| MenuBar.MenuTableSmaller | Sources/OpenClawManager/MenuBarContentView.swift:139-146 | the six-entry table lacks ids that the catalog's table knows |
| MenuBar.StatusText | Sources/OpenClawManager/MenuBarContentView.swift:128-136 | `Stopped` exactly when not running, `Active` exactly when running and active, `Idle` exactly when running and idle |
| MenuBar.StatusColor | Sources/OpenClawManager/MenuBarContentView.swift:118-126 | red, green and orange for exactly the same three cases |
| MenuBar.ColorMatchesText | Sources/OpenClawManager/MenuBarContentView.swift:118-136 | the colour always matches the status text |

## Left out

- The TCP probe (`NWConnection`, its callbacks and dispatch hops) is not modelled. Its final state is an input (`GatewayProbe.ProbeState`); with no state change yet the flag keeps its value.
- `restartGateway` and the shell process launches are not modelled: they run `pkill` and relaunch commands. For the oldest `checkGatewayStatus`, only the parse of the command's output is modelled; the output is an input.
- Timers (`startActivityMonitoring`, `stopActivityMonitoring`) and `DispatchQueue` hops are not modelled. The model covers one activity tick, run synchronously.
- `NSOpenPanel` (`selectConfig`, `selectConfigPath`) is not modelled: the picked path is an input. `NSHomeDirectory()` is an input (`home`), and file existence is a set of paths.
- JSON bytes are not modelled: parsing, the encoder, pretty printing and sorted keys. The model works on a JSON tree. `read` is the parsed file, and the writers return the tree or typed value they would write.
- Reload after a write assumes that the file reads back as the document just written.
- The current generation's write is not atomic. No claim is made about the file after a failed write.
- A throw from the JSON encoder inside `modifyConfigJson` is not modelled separately. It takes the same error path as a failed write.
- Numbers are integers: the `Double` cost fields (which accept any integer, while `Int` fields must fit 64 bits), and modification times in whole milliseconds rather than `TimeInterval` seconds.
- Swift's Unicode `lowercased()`, `String` ordering and whitespace trimming are approximated by ASCII lowercasing, lexicographic order on characters, and ASCII whitespace.
- Error messages keep only their fixed text: `Failed to load config from <path>` (followed by `\nDetails: ` in the two newer generations), `Failed to parse config as JSON dictionary`, `Failed to modify config: ` and `Failed to save config: `. The localized error descriptions appended after them are not modelled.
- The order of tied display names after sorting is left open, because Swift's `sorted` is not stable.
- The iteration order of Swift dictionaries is an input.
- `knownAliases` and `ModelAliases` are not modelled, because nothing consults them.
- `ModelDisplay.init` is the memberwise constructor of the `Catalog.ModelDisplay` datatype. It has no separate member.
- OpenClawKit.ConfigManager.CheckGatewayActivity: the claim that a stopped gateway is idle "without listing the directory" is stated only as the verdict not depending on the listing (`KitScenarios.StoppedGatewayIsIdle`).
- OpenClawKit.ConfigManager.CheckGatewayStatus, OpenClawManager.ConfigManager.CheckGatewayStatus: the `UInt16` conversion of the port traps when the port is out of range. This is a precondition, not a modelled crash.
- The SwiftUI views, the app entry points, the DMG background script and the package manifest are not modelled.
