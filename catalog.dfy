/** The model catalog behind every generation's `getAvailableModels`: one entry
    per model declared under a provider, then one entry per alias key of
    `agents.defaults.models` that contains a `/`, sorted by display name.

    The current and the older generation drop an alias whose id a provider entry
    already produced; the oldest generation keeps it. Swift enumerates a
    dictionary in an unspecified order, so the order of provider names and of
    alias keys is an input here (`IsEnumeration`), and every property that the
    source guarantees is shown not to depend on it. The label tables are inputs
    too, so that each generation supplies its own. */
module Catalog {
  import opened Common
  import opened SchemaParts

  /** `ModelDisplay`: one catalog entry, as both `ModelDisplay.swift` files declare it. */
  datatype ModelDisplay = ModelDisplay(id: string, displayName: string, provider: string, isLocal: bool, isKnown: bool)

  /** The provider whose models run locally. */
  const LocalProvider: string := "ollama"

  /** `order` lists the keys of a dictionary, each once: the order in which Swift
      happens to enumerate it. */
  predicate IsEnumeration(order: seq<string>, keys: set<string>) {
    Distinct(order) && (forall k :: k in order ==> k in keys) && (forall k :: k in keys ==> k in order)
  }

  predicate Distinct(xs: seq<string>) {
    forall i, j :: 0 <= i < j < |xs| ==> xs[i] != xs[j]
  }

  /** The keys of the optional alias dictionary; none when it is absent. */
  function AliasKeys(aliases: Option<map<string, ModelAlias>>): set<string> {
    if aliases.Some? then aliases.value.Keys else {}
  }

  function Ids(s: seq<ModelDisplay>): set<string> {
    set e | e in s :: e.id
  }

  // ---------------------------------------------------------------------------
  // The catalog, as a function of the configuration and the enumeration orders

  /** The entry for one model declared under a provider. */
  function ProviderEntry(providerName: string, model: Model, labels: map<string, string>): ModelDisplay {
    var isLocal := providerName == LocalProvider;
    ModelDisplay(providerName + "/" + model.id, model.name, LookupOr(labels, providerName, providerName), isLocal, !isLocal)
  }

  /** The entries for the models of one provider, in declaration order. */
  function ProviderBlock(providerName: string, models: seq<Model>, labels: map<string, string>): seq<ModelDisplay> {
    seq(|models|, j requires 0 <= j < |models| => ProviderEntry(providerName, models[j], labels))
  }

  /** The provider stage: the blocks of the providers, in enumeration order. */
  function ProviderEntries(providers: map<string, Provider>, order: seq<string>, labels: map<string, string>): seq<ModelDisplay>
    requires forall k :: k in order ==> k in providers
    decreases |order|
  {
    if order == [] then []
    else
      var last := order[|order| - 1];
      ProviderEntries(providers, order[..|order| - 1], labels) + ProviderBlock(last, providers[last].models, labels)
  }

  /** The entry for one alias key: the key split at its first `/` into a provider
      name and a model id; nothing when the key has no `/`. */
  function AliasEntry(key: string, labels: map<string, string>, display: string -> string): Option<ModelDisplay> {
    match FirstIndexOf(key, '/')
    case None => None
    case Some(slash) =>
      var providerName := key[..slash];
      var modelId := key[slash + 1..];
      Some(ModelDisplay(key, display(modelId), LookupOr(labels, providerName, providerName), false, true))
  }

  /** The alias stage: the entries of the alias keys in enumeration order,
      leaving out keys in `exclude`. */
  function AliasEntries(keys: seq<string>, exclude: set<string>, labels: map<string, string>, display: string -> string): seq<ModelDisplay>
    decreases |keys|
  {
    if keys == [] then []
    else
      var prev := AliasEntries(keys[..|keys| - 1], exclude, labels, display);
      var key := keys[|keys| - 1];
      match AliasEntry(key, labels, display)
      case Some(e) => if key !in exclude then prev + [e] else prev
      case None => prev
  }

  /** The catalog of the current and the older generation, before sorting: alias
      ids a provider entry already produced are dropped. */
  function DedupCatalog(providers: map<string, Provider>, order: seq<string>, aliasOrder: seq<string>,
                        labels: map<string, string>, display: string -> string): seq<ModelDisplay>
    requires forall k :: k in order ==> k in providers
  {
    var fromProviders := ProviderEntries(providers, order, labels);
    fromProviders + AliasEntries(aliasOrder, Ids(fromProviders), labels, display)
  }

  /** The catalog of the oldest generation, before sorting: every alias key with a
      `/` is kept. */
  function FullCatalog(providers: map<string, Provider>, order: seq<string>, aliasOrder: seq<string>,
                       labels: map<string, string>, display: string -> string): seq<ModelDisplay>
    requires forall k :: k in order ==> k in providers
  {
    ProviderEntries(providers, order, labels) + AliasEntries(aliasOrder, {}, labels, display)
  }

  // ---------------------------------------------------------------------------
  // The two collection loops

  /** The provider stage of the current and the older generation: the nested
      loops append one entry per declared model and record its id in `addedIds`. */
  method CollectProviderEntries(providers: map<string, Provider>, providerOrder: seq<string>, labels: map<string, string>)
    returns (models: seq<ModelDisplay>, addedIds: set<string>)
    requires forall k :: k in providerOrder ==> k in providers
    ensures models == ProviderEntries(providers, providerOrder, labels)
    ensures addedIds == Ids(models)
  {
    models := [];
    addedIds := {};
    var i := 0;
    while i < |providerOrder|
      invariant 0 <= i <= |providerOrder|
      invariant models == ProviderEntries(providers, providerOrder[..i], labels)
      invariant addedIds == Ids(models)
    {
      var providerName := providerOrder[i];
      var provider := providers[providerName];
      ghost var before := models;
      var j := 0;
      while j < |provider.models|
        invariant 0 <= j <= |provider.models|
        invariant models == before + ProviderBlock(providerName, provider.models[..j], labels)
        invariant addedIds == Ids(models)
      {
        var model := provider.models[j];
        var providerDisplay := LookupOr(labels, providerName, providerName);
        var isLocal := providerName == LocalProvider;
        var id := providerName + "/" + model.id;
        assert ProviderBlock(providerName, provider.models[..j + 1], labels)
            == ProviderBlock(providerName, provider.models[..j], labels) + [ProviderEntry(providerName, model, labels)];
        models := models + [ModelDisplay(id, model.name, providerDisplay, isLocal, !isLocal)];
        addedIds := addedIds + {id};
        j := j + 1;
      }
      assert provider.models[..j] == provider.models;
      assert providerOrder[..i + 1][..i] == providerOrder[..i];
      i := i + 1;
    }
    assert providerOrder[..i] == providerOrder;
  }

  /** The whole collection of the current and the older generation: after the
      provider stage, each alias key with a `/` is appended unless its id is
      already recorded in `addedIds`. */
  method CollectDeduplicated(providers: map<string, Provider>, providerOrder: seq<string>, aliasOrder: seq<string>,
                             labels: map<string, string>, display: string -> string)
    returns (models: seq<ModelDisplay>)
    requires forall k :: k in providerOrder ==> k in providers
    requires Distinct(aliasOrder)
    ensures models == DedupCatalog(providers, providerOrder, aliasOrder, labels, display)
  {
    var addedIds;
    models, addedIds := CollectProviderEntries(providers, providerOrder, labels);
    ghost var fromProviders := models;
    var k := 0;
    while k < |aliasOrder|
      invariant 0 <= k <= |aliasOrder|
      invariant models == fromProviders + AliasEntries(aliasOrder[..k], Ids(fromProviders), labels, display)
      invariant addedIds == Ids(models)
    {
      var aliasKey := aliasOrder[k];
      // the key split at its first `/`, as `AliasEntry` states it
      var entry := AliasEntry(aliasKey, labels, display);
      AliasStep(fromProviders, aliasOrder, k, labels, display, models);
      if entry.Some? && aliasKey !in addedIds {
        models := models + [entry.value];
        addedIds := addedIds + {aliasKey};
      }
      k := k + 1;
    }
    assert aliasOrder[..k] == aliasOrder;
  }

  /** One turn of the deduplicating alias loop: the next key's entry is appended
      exactly when no id so far is that key (earlier keys are different, so only
      a provider could have produced it), and that extends the stage by one key. */
  lemma AliasStep(fromProviders: seq<ModelDisplay>, keys: seq<string>, k: int,
                  labels: map<string, string>, display: string -> string, models: seq<ModelDisplay>)
    requires 0 <= k < |keys| && Distinct(keys)
    requires models == fromProviders + AliasEntries(keys[..k], Ids(fromProviders), labels, display)
    ensures var e := AliasEntry(keys[k], labels, display);
            var added := e.Some? && keys[k] !in Ids(models);
            fromProviders + AliasEntries(keys[..k + 1], Ids(fromProviders), labels, display)
              == (if added then models + [e.value] else models)
            && (added ==> Ids(models + [e.value]) == Ids(models) + {keys[k]})
  {
    var exclude := Ids(fromProviders);
    var stage := AliasEntries(keys[..k], exclude, labels, display);
    assert keys[..k + 1][..k] == keys[..k];
    AliasIdsAmongKeys(keys[..k], exclude, labels, display);
    assert keys[k] !in keys[..k];
    IdsOfConcat(fromProviders, stage);
    var e := AliasEntry(keys[k], labels, display);
    if e.Some? && keys[k] !in Ids(models) {
      assert e.value.id == keys[k];
      IdsOfConcat(models, [e.value]);
    }
  }

  /** The provider loop of the oldest generation: the same entries, without
      recording their ids. */
  method CollectAllProviderEntries(providers: map<string, Provider>, providerOrder: seq<string>, labels: map<string, string>)
    returns (models: seq<ModelDisplay>)
    requires forall k :: k in providerOrder ==> k in providers
    ensures models == ProviderEntries(providers, providerOrder, labels)
  {
    models := [];
    var i := 0;
    while i < |providerOrder|
      invariant 0 <= i <= |providerOrder|
      invariant models == ProviderEntries(providers, providerOrder[..i], labels)
    {
      var providerName := providerOrder[i];
      var provider := providers[providerName];
      ghost var before := models;
      var j := 0;
      while j < |provider.models|
        invariant 0 <= j <= |provider.models|
        invariant models == before + ProviderBlock(providerName, provider.models[..j], labels)
      {
        var model := provider.models[j];
        var providerDisplay := LookupOr(labels, providerName, providerName);
        var isLocal := providerName == LocalProvider;
        assert ProviderBlock(providerName, provider.models[..j + 1], labels)
            == ProviderBlock(providerName, provider.models[..j], labels) + [ProviderEntry(providerName, model, labels)];
        models := models + [ModelDisplay(providerName + "/" + model.id, model.name, providerDisplay, isLocal, !isLocal)];
        j := j + 1;
      }
      assert provider.models[..j] == provider.models;
      assert providerOrder[..i + 1][..i] == providerOrder[..i];
      i := i + 1;
    }
    assert providerOrder[..i] == providerOrder;
  }

  /** The nested loops of the oldest generation: every entry is appended. */
  method CollectAll(providers: map<string, Provider>, providerOrder: seq<string>, aliasOrder: seq<string>,
                    labels: map<string, string>, display: string -> string)
    returns (models: seq<ModelDisplay>)
    requires forall k :: k in providerOrder ==> k in providers
    ensures models == FullCatalog(providers, providerOrder, aliasOrder, labels, display)
  {
    models := CollectAllProviderEntries(providers, providerOrder, labels);
    ghost var fromProviders := models;
    var k := 0;
    while k < |aliasOrder|
      invariant 0 <= k <= |aliasOrder|
      invariant models == fromProviders + AliasEntries(aliasOrder[..k], {}, labels, display)
    {
      var aliasKey := aliasOrder[k];
      // the key split at its first `/`, as `AliasEntry` states it
      var entry := AliasEntry(aliasKey, labels, display);
      assert aliasOrder[..k + 1][..k] == aliasOrder[..k];
      if entry.Some? {
        models := models + [entry.value];
      }
      k := k + 1;
    }
    assert aliasOrder[..k] == aliasOrder;
  }

  // ---------------------------------------------------------------------------
  // Helpers about ids

  lemma IdsOfConcat(a: seq<ModelDisplay>, b: seq<ModelDisplay>)
    ensures Ids(a + b) == Ids(a) + Ids(b)
  {
    assert forall e :: e in a + b <==> e in a || e in b;
  }

  /** Every alias entry is keyed by one of the enumerated keys, outside `exclude`. */
  lemma {:induction false} AliasIdsAmongKeys(keys: seq<string>, exclude: set<string>, labels: map<string, string>, display: string -> string)
    ensures forall e :: e in AliasEntries(keys, exclude, labels, display) ==> e.id in keys && e.id !in exclude
    decreases |keys|
  {
    if keys != [] {
      var init := keys[..|keys| - 1];
      AliasIdsAmongKeys(init, exclude, labels, display);
      assert forall k :: k in init ==> k in keys;
    }
  }

  // ---------------------------------------------------------------------------
  // Sorting by display name

  /** Non-decreasing by display name: `models.sorted { $0.displayName < $1.displayName }`
      promises this, and no particular order among equal names. */
  predicate SortedByDisplayName(s: seq<ModelDisplay>) {
    forall i, j :: 0 <= i < j < |s| ==> NotAfter(s[i].displayName, s[j].displayName)
  }

  /** Insert `x` into a sorted sequence, after every entry whose name is smaller. */
  function InsertByDisplayName(x: ModelDisplay, s: seq<ModelDisplay>): (r: seq<ModelDisplay>)
    requires SortedByDisplayName(s)
    ensures SortedByDisplayName(r)
    ensures multiset(r) == multiset(s) + multiset{x}
    decreases |s|
  {
    if s == [] then [x]
    else if NotAfter(x.displayName, s[0].displayName) then
      BelowFirstIsBelowAll(x, s);
      [x] + s
    else
      NotAfterWhenLess(s[0].displayName, x.displayName);
      var rest := InsertByDisplayName(x, s[1..]);
      assert s == [s[0]] + s[1..];
      FirstBelowInserted(s[0], x, s[1..], rest);
      [s[0]] + rest
  }

  lemma BelowFirstIsBelowAll(x: ModelDisplay, s: seq<ModelDisplay>)
    requires SortedByDisplayName(s) && |s| > 0 && NotAfter(x.displayName, s[0].displayName)
    ensures SortedByDisplayName([x] + s)
  {
    forall j | 0 < j < |s|
      ensures NotAfter(x.displayName, s[j].displayName)
    {
      NotAfterTransitive(x.displayName, s[0].displayName, s[j].displayName);
    }
  }

  lemma FirstBelowInserted(first: ModelDisplay, x: ModelDisplay, s: seq<ModelDisplay>, r: seq<ModelDisplay>)
    requires SortedByDisplayName([first] + s) && SortedByDisplayName(r)
    requires NotAfter(first.displayName, x.displayName)
    requires multiset(r) == multiset(s) + multiset{x}
    ensures SortedByDisplayName([first] + r)
  {
    forall j | 0 <= j < |r|
      ensures NotAfter(first.displayName, r[j].displayName)
    {
      assert r[j] in multiset(r);
      if r[j] != x {
        assert r[j] in multiset(s);
        var k :| 0 <= k < |s| && s[k] == r[j];
        assert ([first] + s)[k + 1] == s[k];
        assert NotAfter(([first] + s)[0].displayName, ([first] + s)[k + 1].displayName);
      }
    }
  }

  /** An insertion sort standing in for Swift's `sorted(by:)`: the result is
      non-decreasing by display name and holds exactly the given entries. */
  function SortByDisplayName(s: seq<ModelDisplay>): (r: seq<ModelDisplay>)
    ensures SortedByDisplayName(r)
    ensures multiset(r) == multiset(s)
    decreases |s|
  {
    if s == [] then []
    else
      assert s == [s[0]] + s[1..];
      InsertByDisplayName(s[0], SortByDisplayName(s[1..]))
  }
}
