/** Worked examples of the current generation: the two-entry catalog and the
    two-log-file activity tick, each first shown for any names of the same shape
    and then for the concrete names. */
module KitScenarios {
  import opened Common
  import opened SchemaParts
  import opened Catalog
  import opened CatalogProperties
  import KitModelDisplay
  import opened OpenClawKit

  // ---------------------------------------------------------------------------
  // The catalog

  /** Two entries sorted by display name can only be in one order. */
  lemma SortedPairDetermined(r: seq<ModelDisplay>, a: ModelDisplay, b: ModelDisplay)
    requires SortedByDisplayName(r) && multiset(r) == multiset{a, b}
    requires Less(a.displayName, b.displayName)
    ensures r == [a, b]
  {
    LessIrreflexive(a.displayName);
    assert |r| == |multiset(r)| == 2;
    assert NotAfter(r[0].displayName, r[1].displayName);
    assert r == [r[0], r[1]];
    assert multiset(r) == multiset{r[0], r[1]};
    assert r[0] in multiset{a, b} && r[1] in multiset{a, b};
  }

  /** One provider `p` declaring one model, and one alias `q/m` for another model. */
  function OneOfEach(p: string, model: Model): map<string, Provider> {
    map[p := Provider(None, None, None, [model])]
  }

  /** The provider stage of `OneOfEach`: the one model's entry. */
  lemma OneProviderEntry(p: string, model: Model, labels: map<string, string>)
    requires p != LocalProvider
    ensures ProviderEntries(OneOfEach(p, model), [p], labels)
         == [ModelDisplay(p + "/" + model.id, model.name, LookupOr(labels, p, p), false, true)]
  {
    var providers := OneOfEach(p, model);
    assert [p][..0] == [];
    assert providers[p].models == [model];
    assert ProviderBlock(p, [model], labels) == [ProviderEntry(p, model, labels)];
  }

  /** The alias stage for one key `q/m` that no provider produced. */
  lemma OneAliasEntry(q: string, m: string, exclude: set<string>, labels: map<string, string>, display: string -> string)
    requires '/' !in q && q + "/" + m !in exclude
    ensures AliasEntries([q + "/" + m], exclude, labels, display)
         == [ModelDisplay(q + "/" + m, display(m), LookupOr(labels, q, q), false, true)]
  {
    SplitAtFirstSlash(q, m);
    assert [q + "/" + m][..0] == [];
  }

  /** The deduplicated catalog of one provider model and one different alias,
      sorted: two entries, ordered by their display names. */
  lemma OneOfEachCatalog(p: string, model: Model, q: string, m: string, labels: map<string, string>, display: string -> string)
    requires '/' !in q && p != LocalProvider
    requires q + "/" + m != p + "/" + model.id
    requires Less(display(m), model.name)
    ensures SortByDisplayName(DedupCatalog(OneOfEach(p, model), [p], [q + "/" + m], labels, display))
         == [ModelDisplay(q + "/" + m, display(m), LookupOr(labels, q, q), false, true),
             ModelDisplay(p + "/" + model.id, model.name, LookupOr(labels, p, p), false, true)]
  {
    var fromProviders := ProviderEntries(OneOfEach(p, model), [p], labels);
    OneProviderEntry(p, model, labels);
    assert Ids(fromProviders) == {p + "/" + model.id};
    OneAliasEntry(q, m, Ids(fromProviders), labels, display);
    var fromAliases := AliasEntries([q + "/" + m], Ids(fromProviders), labels, display);
    SortedPairDetermined(SortByDisplayName(fromProviders + fromAliases), fromAliases[0], fromProviders[0]);
  }

  /** Providers `{"openai": [gpt-4o-mini "GPT-4o Mini"]}` and the alias
      `anthropic/claude-opus-4-5` give the Claude alias first, then the OpenAI
      model. Both entries are marked known: a provider entry is known unless its
      provider is `ollama`. (The names are parameters fixed by the precondition
      so that the solver does not evaluate the catalog functions on literals.) */
  lemma TwoEntryCatalog(openai: string, gpt: Model, anthropic: string, opus: string)
    requires openai == "openai" && gpt == Gpt && anthropic == "anthropic" && opus == "claude-opus-4-5"
    ensures SortByDisplayName(KitCatalogOf(OneOfEach(openai, gpt), [openai], [anthropic + "/" + opus]))
         == [ModelDisplay("anthropic/claude-opus-4-5", "Claude Opus 4.5", "Anthropic", false, true),
             ModelDisplay("openai/gpt-4o-mini", "GPT-4o Mini", "OpenAI", false, true)]
  {
    ScenarioNames(openai, gpt, anthropic, opus);
    OneOfEachCatalog(openai, gpt, anthropic, opus, KitModelDisplay.KnownProviders, KitModelDisplay.GetDisplayName);
  }

  /** The facts about the example's names that the catalog lemma needs. */
  lemma ScenarioNames(openai: string, gpt: Model, anthropic: string, opus: string)
    requires openai == "openai" && gpt == Gpt && anthropic == "anthropic" && opus == "claude-opus-4-5"
    ensures anthropic + "/" + opus != openai + "/" + gpt.id
    ensures '/' !in anthropic && openai != LocalProvider
    ensures Less(KitModelDisplay.GetDisplayName(opus), gpt.name)
    ensures anthropic + "/" + opus == "anthropic/claude-opus-4-5" && openai + "/" + gpt.id == "openai/gpt-4o-mini"
    ensures KitModelDisplay.GetDisplayName(opus) == "Claude Opus 4.5" && gpt.name == "GPT-4o Mini"
    ensures LookupOr(KitModelDisplay.KnownProviders, anthropic, anthropic) == "Anthropic"
    ensures LookupOr(KitModelDisplay.KnownProviders, openai, openai) == "OpenAI"
  {
    ScenarioIds(openai, gpt, anthropic, opus);
    KitModelDisplay.ClaudeOpusExample();
    ScenarioLabels(openai, anthropic);
  }

  /** The example's two ids, spelled out, differ in their first letter. */
  lemma ScenarioIds(openai: string, gpt: Model, anthropic: string, opus: string)
    requires openai == "openai" && gpt == Gpt && anthropic == "anthropic" && opus == "claude-opus-4-5"
    ensures anthropic + "/" + opus == "anthropic/claude-opus-4-5" && openai + "/" + gpt.id == "openai/gpt-4o-mini"
    ensures anthropic + "/" + opus != openai + "/" + gpt.id
    ensures '/' !in anthropic && openai != LocalProvider
  {
    assert (anthropic + "/" + opus)[0] != (openai + "/" + gpt.id)[0];
  }

  /** The provider labels of the example's two providers. */
  lemma ScenarioLabels(openai: string, anthropic: string)
    requires openai == "openai" && anthropic == "anthropic"
    ensures LookupOr(KitModelDisplay.KnownProviders, anthropic, anthropic) == "Anthropic"
    ensures LookupOr(KitModelDisplay.KnownProviders, openai, openai) == "OpenAI"
  {
  }

  const Gpt: Model := Model("gpt-4o-mini", "GPT-4o Mini", None, None, None, None, None)

  /** The unsorted catalog with this generation's tables. */
  function KitCatalogOf(providers: map<string, Provider>, order: seq<string>, aliasOrder: seq<string>): seq<ModelDisplay>
    requires forall k :: k in order ==> k in providers
  {
    DedupCatalog(providers, order, aliasOrder, KitModelDisplay.KnownProviders, KitModelDisplay.GetDisplayName)
  }

  // ---------------------------------------------------------------------------
  // The activity tick

  /** Strings that agree up to some point compare like their remainders. */
  lemma {:induction false} LessAfterCommonPrefix(p: string, x: string, y: string)
    requires Less(x, y)
    ensures Less(p + x, p + y)
    decreases |p|
  {
    if |p| > 0 {
      LessAfterCommonPrefix(p[1..], x, y);
      assert (p + x)[0] == p[0] == (p + y)[0];
      assert (p + x)[1..] == p[1..] + x && (p + y)[1..] == p[1..] + y;
      assert Less(p + x, p + y) == Less((p + x)[1..], (p + y)[1..]);
    } else {
      assert p + x == x && p + y == y;
    }
  }

  /** Of two log files the one whose name sorts later is the latest. */
  lemma LatestOfTwo(a: string, b: string)
    requires IsLogFile(a) && IsLogFile(b) && Less(a, b)
    ensures LatestLog([a, b]) == Some(b)
  {
    assert [a, b][..1] == [a];
    assert [a][..0] == [];
    NotAfterWhenLess(a, b);
  }

  const OlderLog: string := "openclaw-01.log"
  const NewerLog: string := "openclaw-02.log"

  lemma ExampleNamesAreLogFiles()
    ensures IsLogFile(OlderLog) && IsLogFile(NewerLog)
  {
    assert OlderLog[..9] == LogPrefix && OlderLog[11..] == LogSuffix;
    assert NewerLog[..9] == LogPrefix && NewerLog[11..] == LogSuffix;
  }

  lemma ExampleNamesOrdered()
    ensures Less(OlderLog, NewerLog)
  {
    assert OlderLog == "openclaw-0" + "1.log" && NewerLog == "openclaw-0" + "2.log";
    LessAfterCommonPrefix("openclaw-0", "1.log", "2.log");
  }

  /** With `openclaw-01.log` and `openclaw-02.log` in the directory the tick looks
      at `openclaw-02.log` alone: active when it changed less than ten seconds
      ago, idle otherwise, whatever the older file's time. */
  lemma TwoLogFiles(older: int, newer: int, now: int)
    ensures ActivityVerdict(true, Some([OlderLog, NewerLog]), map[OlderLog := older, NewerLog := newer], now)
        <==> now - newer < FreshnessWindow
  {
    ExampleNamesAreLogFiles();
    ExampleNamesOrdered();
    LatestOfTwo(OlderLog, NewerLog);
  }

  /** The gateway being down makes the tick idle whatever the directory holds. */
  lemma StoppedGatewayIsIdle(listing: Option<seq<string>>, modified: map<string, int>, now: int)
    ensures !ActivityVerdict(false, listing, modified, now)
  {
  }
}
