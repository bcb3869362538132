/** What the catalog guarantees, whatever order Swift enumerates the provider and
    alias dictionaries in: which entries it holds and what each entry says, the
    flag rules, the precedence of provider entries over aliases, when ids are
    unique, how many entries there are, and that the sorted result does not
    depend on the enumeration order. */
module CatalogProperties {
  import opened Common
  import opened SchemaParts
  import opened Catalog

  // ---------------------------------------------------------------------------
  // What an entry says

  /** `e` is the entry for `model` declared under `providerName`. */
  ghost predicate DescribesModel(e: ModelDisplay, providerName: string, model: Model, labels: map<string, string>) {
    && e.id == providerName + "/" + model.id
    && e.displayName == model.name
    && e.provider == LookupOr(labels, providerName, providerName)
    && (e.isLocal <==> providerName == LocalProvider)
    && e.isKnown == !e.isLocal
  }

  /** `e` is the entry for the alias `key`: the key splits at its first `/` into a
      provider name `p` and a model id `m`; the name of the entry is the display
      name of `m` and its provider the label of `p`. */
  ghost predicate DescribesAlias(e: ModelDisplay, key: string, labels: map<string, string>, display: string -> string) {
    && e.id == key
    && !e.isLocal
    && e.isKnown
    && exists p, m :: key == p + "/" + m && '/' !in p && e.displayName == display(m) && e.provider == LookupOr(labels, p, p)
  }

  lemma BlockMembers(providerName: string, models: seq<Model>, labels: map<string, string>, e: ModelDisplay)
    ensures e in ProviderBlock(providerName, models, labels) <==> exists m :: m in models && DescribesModel(e, providerName, m, labels)
  {
    var block := ProviderBlock(providerName, models, labels);
    if e in block {
      var j :| 0 <= j < |block| && block[j] == e;
      assert DescribesModel(e, providerName, models[j], labels);
    }
    if m :| m in models && DescribesModel(e, providerName, m, labels) {
      var j :| 0 <= j < |models| && models[j] == m;
      assert block[j] == e;
    }
  }

  /** The provider stage holds exactly one entry for each model of each provider,
      with the id, name, label and flags the source gives it. */
  lemma {:induction false} ProviderEntriesMembers(providers: map<string, Provider>, order: seq<string>, labels: map<string, string>, e: ModelDisplay)
    requires forall k :: k in order ==> k in providers
    ensures e in ProviderEntries(providers, order, labels)
        <==> exists name, m :: name in order && m in providers[name].models && DescribesModel(e, name, m, labels)
    decreases |order|
  {
    if order != [] {
      var init, last := order[..|order| - 1], order[|order| - 1];
      assert order == init + [last];
      ProviderEntriesMembers(providers, init, labels, e);
      BlockMembers(last, providers[last].models, labels, e);
    }
  }

  /** An alias key gives an entry exactly when it contains a `/`, and then the
      entry is the one `DescribesAlias` characterises. */
  lemma AliasEntryMeaning(key: string, labels: map<string, string>, display: string -> string, e: ModelDisplay)
    ensures AliasEntry(key, labels, display).None? <==> '/' !in key
    ensures AliasEntry(key, labels, display) == Some(e) <==> DescribesAlias(e, key, labels, display)
  {
    match FirstIndexOf(key, '/')
    case None =>
    case Some(slash) =>
      var p, m := key[..slash], key[slash + 1..];
      assert key == p + "/" + m;
      if DescribesAlias(e, key, labels, display) {
        var p', m' :| key == p' + "/" + m' && '/' !in p' && e.displayName == display(m') && e.provider == LookupOr(labels, p', p');
        SplitIsUnique(p, m, p', m');
      }
  }

  /** The alias stage holds exactly one entry for each enumerated key that has a
      `/` and is not excluded. */
  lemma {:induction false} AliasEntriesMembers(keys: seq<string>, exclude: set<string>, labels: map<string, string>, display: string -> string, e: ModelDisplay)
    ensures e in AliasEntries(keys, exclude, labels, display)
        <==> e.id in keys && e.id !in exclude && DescribesAlias(e, e.id, labels, display)
    decreases |keys|
  {
    if keys != [] {
      var init, last := keys[..|keys| - 1], keys[|keys| - 1];
      assert keys == init + [last];
      AliasEntriesMembers(init, exclude, labels, display, e);
      AliasEntryMeaning(last, labels, display, e);
    }
  }

  // ---------------------------------------------------------------------------
  // Flags and precedence

  /** Every entry is known exactly when it is not local, and only models of the
      local provider are local; alias entries are never local. */
  lemma FlagRules(providers: map<string, Provider>, order: seq<string>, aliasOrder: seq<string>,
                  labels: map<string, string>, display: string -> string)
    requires forall k :: k in order ==> k in providers
    ensures forall e :: e in DedupCatalog(providers, order, aliasOrder, labels, display)
              ==> e.isKnown == !e.isLocal && (e.isLocal ==> HasPrefix(e.id, LocalProvider + "/"))
    ensures forall e :: e in FullCatalog(providers, order, aliasOrder, labels, display)
              ==> e.isKnown == !e.isLocal && (e.isLocal ==> HasPrefix(e.id, LocalProvider + "/"))
  {
    var fromProviders := ProviderEntries(providers, order, labels);
    forall e | e in fromProviders + AliasEntries(aliasOrder, Ids(fromProviders), labels, display)
                 || e in fromProviders + AliasEntries(aliasOrder, {}, labels, display)
      ensures e.isKnown == !e.isLocal && (e.isLocal ==> HasPrefix(e.id, LocalProvider + "/"))
    {
      ProviderEntriesMembers(providers, order, labels, e);
      AliasEntriesMembers(aliasOrder, Ids(fromProviders), labels, display, e);
      AliasEntriesMembers(aliasOrder, {}, labels, display, e);
      if e.isLocal {
        var name, m :| name in order && m in providers[name].models && DescribesModel(e, name, m, labels);
        assert e.id[..|LocalProvider + "/"|] == LocalProvider + "/";
      }
    }
  }

  /** Provider entries take precedence: an id that a provider entry produced is
      carried by provider entries only, never by an alias entry. */
  lemma ProviderEntriesWin(providers: map<string, Provider>, order: seq<string>, aliasOrder: seq<string>,
                           labels: map<string, string>, display: string -> string)
    requires forall k :: k in order ==> k in providers
    ensures forall e :: e in DedupCatalog(providers, order, aliasOrder, labels, display)
              && e.id in Ids(ProviderEntries(providers, order, labels))
              ==> e in ProviderEntries(providers, order, labels)
  {
    var fromProviders := ProviderEntries(providers, order, labels);
    AliasIdsAmongKeys(aliasOrder, Ids(fromProviders), labels, display);
  }

  // ---------------------------------------------------------------------------
  // Unique ids

  predicate DistinctIds(s: seq<ModelDisplay>) {
    forall i, j :: 0 <= i < j < |s| ==> s[i].id != s[j].id
  }

  lemma DistinctIdsConcat(a: seq<ModelDisplay>, b: seq<ModelDisplay>)
    requires DistinctIds(a) && DistinctIds(b) && Ids(a) !! Ids(b)
    ensures DistinctIds(a + b)
  {
    forall i, j | 0 <= i < j < |a + b|
      ensures (a + b)[i].id != (a + b)[j].id
    {
      if j < |a| {
        assert (a + b)[i] == a[i] && (a + b)[j] == a[j];
      } else if i >= |a| {
        assert (a + b)[i] == b[i - |a|] && (a + b)[j] == b[j - |a|];
      } else {
        assert (a + b)[i] == a[i] && (a + b)[j] == b[j - |a|];
        assert a[i].id in Ids(a) && b[j - |a|].id in Ids(b);
      }
    }
  }

  /** Alias entries carry distinct ids when the keys are distinct, as the keys of a
      dictionary are. */
  lemma {:induction false} AliasIdsDistinct(keys: seq<string>, exclude: set<string>, labels: map<string, string>, display: string -> string)
    requires Distinct(keys)
    ensures DistinctIds(AliasEntries(keys, exclude, labels, display))
    decreases |keys|
  {
    if keys != [] {
      var init, last := keys[..|keys| - 1], keys[|keys| - 1];
      AliasIdsDistinct(init, exclude, labels, display);
      AliasIdsAmongKeys(init, exclude, labels, display);
      var prev := AliasEntries(init, exclude, labels, display);
      match AliasEntry(last, labels, display)
      case Some(e) =>
        assert e.id == last;
        assert last !in init;
        assert Ids([e]) == {last};
        DistinctIdsConcat(prev, [e]);
      case None =>
    }
  }

  /** The deduplicating catalog has no repeated id as long as the provider stage
      has none: the alias stage never adds one. */
  lemma DedupKeepsIdsDistinct(providers: map<string, Provider>, order: seq<string>, aliasOrder: seq<string>,
                              labels: map<string, string>, display: string -> string)
    requires forall k :: k in order ==> k in providers
    requires Distinct(aliasOrder)
    requires DistinctIds(ProviderEntries(providers, order, labels))
    ensures DistinctIds(DedupCatalog(providers, order, aliasOrder, labels, display))
  {
    var fromProviders := ProviderEntries(providers, order, labels);
    var aliases := AliasEntries(aliasOrder, Ids(fromProviders), labels, display);
    AliasIdsDistinct(aliasOrder, Ids(fromProviders), labels, display);
    AliasIdsAmongKeys(aliasOrder, Ids(fromProviders), labels, display);
    DistinctIdsConcat(fromProviders, aliases);
  }

  /** Models declared under one provider with distinct ids. */
  predicate ModelIdsDistinct(models: seq<Model>) {
    forall i, j :: 0 <= i < j < |models| ==> models[i].id != models[j].id
  }

  /** The provider stage has no repeated id when no provider name contains a `/`
      and each provider declares distinct model ids. */
  lemma {:induction false} ProviderIdsDistinct(providers: map<string, Provider>, order: seq<string>, labels: map<string, string>)
    requires forall k :: k in order ==> k in providers
    requires Distinct(order)
    requires forall k :: k in order ==> '/' !in k && ModelIdsDistinct(providers[k].models)
    ensures DistinctIds(ProviderEntries(providers, order, labels))
    decreases |order|
  {
    if order != [] {
      var init, last := order[..|order| - 1], order[|order| - 1];
      assert forall k :: k in init ==> k in order;
      ProviderIdsDistinct(providers, init, labels);
      var prev := ProviderEntries(providers, init, labels);
      var block := ProviderBlock(last, providers[last].models, labels);
      assert last !in init;
      forall i, j | 0 <= i < j < |block|
        ensures block[i].id != block[j].id
      {
        var ms := providers[last].models;
        if block[i].id == block[j].id {
          SplitIsUnique(last, ms[i].id, last, ms[j].id);
        }
      }
      forall e1, e2 | e1 in prev && e2 in block
        ensures e1.id != e2.id
      {
        ProviderEntriesMembers(providers, init, labels, e1);
        BlockMembers(last, providers[last].models, labels, e2);
        var n1, m1 :| n1 in init && m1 in providers[n1].models && DescribesModel(e1, n1, m1, labels);
        var m2 :| m2 in providers[last].models && DescribesModel(e2, last, m2, labels);
        if e1.id == e2.id {
          SplitIsUnique(n1, m1.id, last, m2.id);
        }
      }
      DistinctIdsConcat(prev, block);
    }
  }

  /** Without those conditions ids can collide: provider `a` with model `b/c` and
      provider `a/b` with model `c` both produce the id `a/b/c`, and even the
      deduplicating catalog then repeats it. */
  lemma ProviderIdsCanCollide(labels: map<string, string>, display: string -> string)
    ensures var providers := map["a" := CollisionProvider("b/c"), "a/b" := CollisionProvider("c")];
            var catalog := DedupCatalog(providers, ["a", "a/b"], [], labels, display);
            |catalog| == 2 && catalog[0].id == catalog[1].id == "a/b/c" && !DistinctIds(catalog)
  {
    var providers := map["a" := CollisionProvider("b/c"), "a/b" := CollisionProvider("c")];
    assert ["a", "a/b"][..1] == ["a"];
    assert ProviderEntries(providers, ["a"], labels) == [ProviderEntry("a", Model("b/c", "x", None, None, None, None, None), labels)];
  }

  /** A provider declaring a single model with the given id. */
  function CollisionProvider(modelId: string): Provider {
    Provider(None, None, None, [Model(modelId, "x", None, None, None, None, None)])
  }

  // ---------------------------------------------------------------------------
  // Sizes

  /** The enumerated keys that contain a `/` and are not excluded. */
  function SlashedKeys(keys: seq<string>, exclude: set<string>): set<string> {
    set k | k in keys && '/' in k && k !in exclude
  }

  /** The number of models declared under the enumerated providers. */
  function ModelCount(providers: map<string, Provider>, order: seq<string>): nat
    requires forall k :: k in order ==> k in providers
    decreases |order|
  {
    if order == [] then 0
    else ModelCount(providers, order[..|order| - 1]) + |providers[order[|order| - 1]].models|
  }

  lemma {:induction false} ProviderEntriesCount(providers: map<string, Provider>, order: seq<string>, labels: map<string, string>)
    requires forall k :: k in order ==> k in providers
    ensures |ProviderEntries(providers, order, labels)| == ModelCount(providers, order)
    decreases |order|
  {
    if order != [] {
      ProviderEntriesCount(providers, order[..|order| - 1], labels);
    }
  }

  lemma {:induction false} AliasEntriesCount(keys: seq<string>, exclude: set<string>, labels: map<string, string>, display: string -> string)
    requires Distinct(keys)
    ensures |AliasEntries(keys, exclude, labels, display)| == |SlashedKeys(keys, exclude)|
    decreases |keys|
  {
    if keys != [] {
      var init, last := keys[..|keys| - 1], keys[|keys| - 1];
      AliasEntriesCount(init, exclude, labels, display);
      assert keys == init + [last];
      assert last !in init;
      AliasEntryMeaning(last, labels, display, ModelDisplay("", "", "", false, false));
      if '/' in last && last !in exclude {
        assert SlashedKeys(keys, exclude) == SlashedKeys(init, exclude) + {last};
      } else {
        assert SlashedKeys(keys, exclude) == SlashedKeys(init, exclude);
      }
    }
  }

  /** The oldest generation's catalog has one entry per provider model plus one per
      alias key with a `/`, duplicates included. */
  lemma FullCatalogSize(providers: map<string, Provider>, order: seq<string>, aliasOrder: seq<string>,
                        labels: map<string, string>, display: string -> string)
    requires forall k :: k in order ==> k in providers
    requires Distinct(aliasOrder)
    ensures |FullCatalog(providers, order, aliasOrder, labels, display)|
         == ModelCount(providers, order) + |SlashedKeys(aliasOrder, {})|
  {
    ProviderEntriesCount(providers, order, labels);
    AliasEntriesCount(aliasOrder, {}, labels, display);
  }

  /** The deduplicating catalog has one entry per provider model plus one per alias
      key with a `/` that no provider entry already produced. */
  lemma DedupCatalogSize(providers: map<string, Provider>, order: seq<string>, aliasOrder: seq<string>,
                         labels: map<string, string>, display: string -> string)
    requires forall k :: k in order ==> k in providers
    requires Distinct(aliasOrder)
    ensures |DedupCatalog(providers, order, aliasOrder, labels, display)|
         == ModelCount(providers, order) + |SlashedKeys(aliasOrder, Ids(ProviderEntries(providers, order, labels)))|
  {
    ProviderEntriesCount(providers, order, labels);
    AliasEntriesCount(aliasOrder, Ids(ProviderEntries(providers, order, labels)), labels, display);
  }

  /** A model that is also listed as an alias (provider `p` declaring model `m`,
      and the alias key `p/m`) appears twice in the oldest generation's catalog,
      both times under the id `p/m`. */
  lemma DuplicateAliasKeptByFullCatalog(p: string, m: string, labels: map<string, string>, display: string -> string)
    requires '/' !in p
    ensures |FullCatalog(DuplicateProviders(p, m), [p], [p + "/" + m], labels, display)| == 2
    ensures !DistinctIds(FullCatalog(DuplicateProviders(p, m), [p], [p + "/" + m], labels, display))
  {
    ProviderStageOfDuplicate(p, m, labels);
    AliasStageOfDuplicate(p, m, {}, labels, display);
    var full := FullCatalog(DuplicateProviders(p, m), [p], [p + "/" + m], labels, display);
    assert full[0].id == full[1].id;
  }

  /** The newer generations list that model once. */
  lemma DuplicateAliasDroppedByDedupCatalog(p: string, m: string, labels: map<string, string>, display: string -> string)
    requires '/' !in p
    ensures |DedupCatalog(DuplicateProviders(p, m), [p], [p + "/" + m], labels, display)| == 1
  {
    ProviderStageOfDuplicate(p, m, labels);
    var fromProviders := ProviderEntries(DuplicateProviders(p, m), [p], labels);
    assert fromProviders[0] in fromProviders;
    AliasStageOfDuplicate(p, m, Ids(fromProviders), labels, display);
  }

  lemma ProviderStageOfDuplicate(p: string, m: string, labels: map<string, string>)
    ensures |ProviderEntries(DuplicateProviders(p, m), [p], labels)| == 1
    ensures ProviderEntries(DuplicateProviders(p, m), [p], labels)[0].id == p + "/" + m
  {
    assert [p][..0] == [];
  }

  lemma AliasStageOfDuplicate(p: string, m: string, exclude: set<string>, labels: map<string, string>, display: string -> string)
    requires '/' !in p
    ensures p + "/" + m !in exclude ==> |AliasEntries([p + "/" + m], exclude, labels, display)| == 1
    ensures p + "/" + m !in exclude ==> AliasEntries([p + "/" + m], exclude, labels, display)[0].id == p + "/" + m
    ensures p + "/" + m in exclude ==> AliasEntries([p + "/" + m], exclude, labels, display) == []
  {
    SplitAtFirstSlash(p, m);
    assert [p + "/" + m][..0] == [];
  }

  /** A provider `p` declaring the single model `m`. */
  function DuplicateProviders(p: string, m: string): map<string, Provider> {
    map[p := CollisionProvider(m)]
  }
}
