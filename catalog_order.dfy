/** The catalog does not depend on the order in which Swift enumerates the
    provider and alias dictionaries: any two enumerations give the same entries,
    and once sorted, the same sequence of display names. Only entries that share
    a display name may come out in a different order, as an unstable sort allows. */
module CatalogOrder {
  import opened Common
  import opened SchemaParts
  import opened Catalog

  // ---------------------------------------------------------------------------
  // Splitting the stages

  lemma {:induction false} ProviderEntriesConcat(providers: map<string, Provider>, a: seq<string>, b: seq<string>, labels: map<string, string>)
    requires forall k :: k in a + b ==> k in providers
    ensures ProviderEntries(providers, a + b, labels) == ProviderEntries(providers, a, labels) + ProviderEntries(providers, b, labels)
    decreases |b|
  {
    if b == [] {
      assert a + b == a;
    } else {
      assert (a + b)[..|a + b| - 1] == a + b[..|b| - 1];
      ProviderEntriesConcat(providers, a, b[..|b| - 1], labels);
    }
  }

  lemma {:induction false} AliasEntriesConcat(a: seq<string>, b: seq<string>, exclude: set<string>, labels: map<string, string>, display: string -> string)
    ensures AliasEntries(a + b, exclude, labels, display) == AliasEntries(a, exclude, labels, display) + AliasEntries(b, exclude, labels, display)
    decreases |b|
  {
    if b == [] {
      assert a + b == a;
    } else {
      assert (a + b)[..|a + b| - 1] == a + b[..|b| - 1];
      AliasEntriesConcat(a, b[..|b| - 1], exclude, labels, display);
    }
  }

  /** The last element of one of two equal multisets sits somewhere in the other;
      taking it out of both keeps them equal. */
  lemma MatchLast<T>(s1: seq<T>, s2: seq<T>) returns (i: nat)
    requires |s1| > 0 && multiset(s1) == multiset(s2)
    ensures i < |s2| && s2[i] == s1[|s1| - 1]
    ensures s2 == s2[..i] + [s2[i]] + s2[i + 1..]
    ensures multiset(s1[..|s1| - 1]) == multiset(s2[..i] + s2[i + 1..])
  {
    var init, last := s1[..|s1| - 1], s1[|s1| - 1];
    assert s1 == init + [last];
    assert last in multiset(s2);
    i :| 0 <= i < |s2| && s2[i] == last;
    var before, after := s2[..i], s2[i + 1..];
    assert s2 == before + [last] + after;
    assert multiset(s1) == multiset(init) + multiset{last};
    assert multiset(s2) == multiset(before) + multiset{last} + multiset(after);
    assert multiset(before + after) == multiset(before) + multiset(after);
    assert multiset(init) == multiset(s1) - multiset{last};
  }

  // ---------------------------------------------------------------------------
  // Reordering the enumeration

  /** The entries of `before + [last] + after` are those of `before`, then the
      block of `last`, then those of `after`. */
  lemma ProviderEntriesAround(providers: map<string, Provider>, before: seq<string>, last: string, after: seq<string>, labels: map<string, string>)
    requires forall k :: k in before + [last] + after ==> k in providers
    ensures forall k :: k in before + after ==> k in providers
    ensures ProviderEntries(providers, before + after, labels)
         == ProviderEntries(providers, before, labels) + ProviderEntries(providers, after, labels)
    ensures ProviderEntries(providers, before + [last] + after, labels)
         == ProviderEntries(providers, before, labels) + ProviderBlock(last, providers[last].models, labels)
            + ProviderEntries(providers, after, labels)
  {
    assert forall k :: k in before + after ==> k in before + [last] + after;
    assert forall k :: k in before + [last] ==> k in before + [last] + after;
    ProviderEntriesConcat(providers, before, after, labels);
    ProviderEntriesConcat(providers, before + [last], after, labels);
  }

  /** The entries of `before + [last] + after` are those of `before`, then the
      entries of `last`, then those of `after`. */
  lemma AliasEntriesAround(before: seq<string>, last: string, after: seq<string>, exclude: set<string>, labels: map<string, string>, display: string -> string)
    ensures AliasEntries(before + after, exclude, labels, display)
         == AliasEntries(before, exclude, labels, display) + AliasEntries(after, exclude, labels, display)
    ensures AliasEntries(before + [last] + after, exclude, labels, display)
         == AliasEntries(before, exclude, labels, display) + AliasEntries([last], exclude, labels, display)
            + AliasEntries(after, exclude, labels, display)
  {
    AliasEntriesConcat(before, after, exclude, labels, display);
    AliasEntriesConcat(before + [last], after, exclude, labels, display);
    AliasEntriesConcat(before, [last], exclude, labels, display);
  }

  /** Moving a block to the end does not change the multiset. */
  lemma MoveToEnd(a: seq<ModelDisplay>, b: seq<ModelDisplay>, c: seq<ModelDisplay>)
    ensures multiset(a + b + c) == multiset(a + c) + multiset(b)
  {
  }

  /** Listing the same provider names in another order gives the same entries. */
  lemma {:induction false} ProviderEntriesReorder(providers: map<string, Provider>, o1: seq<string>, o2: seq<string>, labels: map<string, string>)
    requires forall k :: k in o1 ==> k in providers
    requires multiset(o1) == multiset(o2)
    ensures forall k :: k in o2 ==> k in providers
    ensures multiset(ProviderEntries(providers, o1, labels)) == multiset(ProviderEntries(providers, o2, labels))
    decreases |o1|
  {
    assert forall k :: k in o2 ==> k in multiset(o1);
    if o1 == [] {
      assert |o2| == |multiset(o2)| == 0;
    } else {
      var init, last := o1[..|o1| - 1], o1[|o1| - 1];
      assert forall k :: k in init ==> k in o1;
      var i := MatchLast(o1, o2);
      var before, after := o2[..i], o2[i + 1..];
      ProviderEntriesAround(providers, before, last, after, labels);
      ProviderEntriesReorder(providers, init, before + after, labels);
      MoveToEnd(ProviderEntries(providers, before, labels), ProviderBlock(last, providers[last].models, labels),
                ProviderEntries(providers, after, labels));
    }
  }

  /** Listing the same alias keys in another order gives the same entries. */
  lemma {:induction false} AliasEntriesReorder(o1: seq<string>, o2: seq<string>, exclude: set<string>, labels: map<string, string>, display: string -> string)
    requires multiset(o1) == multiset(o2)
    ensures multiset(AliasEntries(o1, exclude, labels, display)) == multiset(AliasEntries(o2, exclude, labels, display))
    decreases |o1|
  {
    if o1 == [] {
      assert |o2| == |multiset(o2)| == 0;
    } else {
      var init, last := o1[..|o1| - 1], o1[|o1| - 1];
      assert o1 == init + [last];
      var i := MatchLast(o1, o2);
      var before, after := o2[..i], o2[i + 1..];
      AliasEntriesReorder(init, before + after, exclude, labels, display);
      AliasEntriesAround(before, last, after, exclude, labels, display);
      AliasEntriesConcat(init, [last], exclude, labels, display);
      MoveToEnd(AliasEntries(before, exclude, labels, display), AliasEntries([last], exclude, labels, display),
                AliasEntries(after, exclude, labels, display));
    }
  }

  /** A sequence without repetitions holds each of its elements once. */
  lemma {:induction false} DistinctMultiplicity(xs: seq<string>, k: string)
    requires Distinct(xs)
    ensures multiset(xs)[k] == if k in xs then 1 else 0
    decreases |xs|
  {
    if xs != [] {
      var init := xs[..|xs| - 1];
      assert xs == init + [xs[|xs| - 1]];
      DistinctMultiplicity(init, k);
    }
  }

  /** Two enumerations of the same keys hold the same elements. */
  lemma EnumerationsAgree(o1: seq<string>, o2: seq<string>, keys: set<string>)
    requires IsEnumeration(o1, keys) && IsEnumeration(o2, keys)
    ensures multiset(o1) == multiset(o2)
  {
    forall k
      ensures multiset(o1)[k] == multiset(o2)[k]
    {
      DistinctMultiplicity(o1, k);
      DistinctMultiplicity(o2, k);
    }
  }

  /** Both catalogs hold the same entries however the two dictionaries are
      enumerated. */
  lemma CatalogOrderIndependent(providers: map<string, Provider>, o1: seq<string>, o2: seq<string>,
                                aliasKeys: set<string>, a1: seq<string>, a2: seq<string>,
                                labels: map<string, string>, display: string -> string)
    requires IsEnumeration(o1, providers.Keys) && IsEnumeration(o2, providers.Keys)
    requires IsEnumeration(a1, aliasKeys) && IsEnumeration(a2, aliasKeys)
    ensures multiset(DedupCatalog(providers, o1, a1, labels, display)) == multiset(DedupCatalog(providers, o2, a2, labels, display))
    ensures multiset(FullCatalog(providers, o1, a1, labels, display)) == multiset(FullCatalog(providers, o2, a2, labels, display))
  {
    EnumerationsAgree(o1, o2, providers.Keys);
    EnumerationsAgree(a1, a2, aliasKeys);
    ProviderEntriesReorder(providers, o1, o2, labels);
    var p1, p2 := ProviderEntries(providers, o1, labels), ProviderEntries(providers, o2, labels);
    assert Ids(p1) == Ids(p2) by {
      assert forall e :: e in p1 <==> e in multiset(p1);
      assert forall e :: e in p2 <==> e in multiset(p2);
    }
    AliasEntriesReorder(a1, a2, Ids(p1), labels, display);
    AliasEntriesReorder(a1, a2, {}, labels, display);
  }

  // ---------------------------------------------------------------------------
  // Sorting leaves only ties open

  function Names(s: seq<ModelDisplay>): (r: seq<string>)
    ensures |r| == |s| && forall i :: 0 <= i < |s| ==> r[i] == s[i].displayName
  {
    seq(|s|, i requires 0 <= i < |s| => s[i].displayName)
  }

  predicate SortedNames(xs: seq<string>) {
    forall i, j :: 0 <= i < j < |xs| ==> NotAfter(xs[i], xs[j])
  }

  lemma NamesConcat(a: seq<ModelDisplay>, b: seq<ModelDisplay>)
    ensures Names(a + b) == Names(a) + Names(b)
  {
  }

  /** Entries that are equal as a multiset have names that are equal as a multiset. */
  lemma {:induction false} NamesOfPermutation(s1: seq<ModelDisplay>, s2: seq<ModelDisplay>)
    requires multiset(s1) == multiset(s2)
    ensures multiset(Names(s1)) == multiset(Names(s2))
    decreases |s1|
  {
    if s1 == [] {
      assert |s2| == |multiset(s2)| == 0;
    } else {
      var init, last := s1[..|s1| - 1], s1[|s1| - 1];
      assert s1 == init + [last];
      var i := MatchLast(s1, s2);
      var before, after := s2[..i], s2[i + 1..];
      NamesOfPermutation(init, before + after);
      NamesConcat(init, [last]);
      NamesConcat(before, [last]);
      NamesConcat(before + [last], after);
      NamesConcat(before, after);
      assert Names([last]) == [last.displayName];
      calc {
        multiset(Names(s1));
        multiset(Names(init)) + multiset{last.displayName};
        multiset(Names(before) + Names(after)) + multiset{last.displayName};
        multiset(Names(s2));
      }
    }
  }

  /** Dropping the first name keeps a sequence sorted. */
  lemma SortedNamesTail(x: seq<string>)
    requires |x| > 0 && SortedNames(x)
    ensures SortedNames(x[1..])
  {
    forall a, b | 0 <= a < b < |x| - 1
      ensures NotAfter(x[1..][a], x[1..][b])
    {
      assert x[1..][a] == x[a + 1] && x[1..][b] == x[b + 1];
    }
  }

  /** The rest of a sequence holds its names less the first. */
  lemma MultisetTail(x: seq<string>)
    requires |x| > 0
    ensures multiset(x[1..]) == multiset(x) - multiset{x[0]}
  {
    assert x == [x[0]] + x[1..];
  }

  /** Two sorted sequences of the same names start with the same name. */
  lemma SortedHeadsEqual(x: seq<string>, y: seq<string>)
    requires |x| > 0 && SortedNames(x) && SortedNames(y) && multiset(x) == multiset(y)
    ensures |y| > 0 && x[0] == y[0]
  {
    assert x[0] in multiset(y) && |y| > 0;
    assert y[0] in multiset(x);
    var j :| 0 <= j < |y| && y[j] == x[0];
    var k :| 0 <= k < |x| && x[k] == y[0];
    assert NotAfter(y[0], x[0]) by { if j > 0 { assert NotAfter(y[0], y[j]); } else { LessIrreflexive(x[0]); } }
    assert NotAfter(x[0], y[0]) by { if k > 0 { assert NotAfter(x[0], x[k]); } else { LessIrreflexive(x[0]); } }
    NotAfterAntisymmetric(x[0], y[0]);
  }

  /** Two sorted sequences of names holding the same names are equal. */
  lemma {:induction false} SortedNamesUnique(x: seq<string>, y: seq<string>)
    requires SortedNames(x) && SortedNames(y) && multiset(x) == multiset(y)
    ensures x == y
    decreases |x|
  {
    if x == [] {
      assert |y| == |multiset(y)| == 0;
    } else {
      SortedHeadsEqual(x, y);
      SortedNamesTail(x);
      SortedNamesTail(y);
      MultisetTail(x);
      MultisetTail(y);
      SortedNamesUnique(x[1..], y[1..]);
      assert x == [x[0]] + x[1..] && y == [y[0]] + y[1..];
    }
  }

  /** Catalog determinism for the deduplicating generations: whatever order the
      dictionaries are enumerated in and however the sort breaks ties, two sorted
      results of `getAvailableModels` hold the same entries and list the same
      display names in the same order. */
  lemma SortedCatalogDetermined(providers: map<string, Provider>, o1: seq<string>, o2: seq<string>,
                                aliasKeys: set<string>, a1: seq<string>, a2: seq<string>,
                                labels: map<string, string>, display: string -> string,
                                r1: seq<ModelDisplay>, r2: seq<ModelDisplay>)
    requires IsEnumeration(o1, providers.Keys) && IsEnumeration(o2, providers.Keys)
    requires IsEnumeration(a1, aliasKeys) && IsEnumeration(a2, aliasKeys)
    requires SortedByDisplayName(r1) && multiset(r1) == multiset(DedupCatalog(providers, o1, a1, labels, display))
    requires SortedByDisplayName(r2) && multiset(r2) == multiset(DedupCatalog(providers, o2, a2, labels, display))
    ensures multiset(r1) == multiset(r2)
    ensures Names(r1) == Names(r2)
  {
    CatalogOrderIndependent(providers, o1, o2, aliasKeys, a1, a2, labels, display);
    NamesOfPermutation(r1, r2);
    SortedNamesUnique(Names(r1), Names(r2));
  }

  /** The same for the oldest generation, whose catalog keeps an alias that
      repeats a provider id. */
  lemma SortedFullCatalogDetermined(providers: map<string, Provider>, o1: seq<string>, o2: seq<string>,
                                    aliasKeys: set<string>, a1: seq<string>, a2: seq<string>,
                                    labels: map<string, string>, display: string -> string,
                                    r1: seq<ModelDisplay>, r2: seq<ModelDisplay>)
    requires IsEnumeration(o1, providers.Keys) && IsEnumeration(o2, providers.Keys)
    requires IsEnumeration(a1, aliasKeys) && IsEnumeration(a2, aliasKeys)
    requires SortedByDisplayName(r1) && multiset(r1) == multiset(FullCatalog(providers, o1, a1, labels, display))
    requires SortedByDisplayName(r2) && multiset(r2) == multiset(FullCatalog(providers, o2, a2, labels, display))
    ensures multiset(r1) == multiset(r2)
    ensures Names(r1) == Names(r2)
  {
    CatalogOrderIndependent(providers, o1, o2, aliasKeys, a1, a2, labels, display);
    NamesOfPermutation(r1, r2);
    SortedNamesUnique(Names(r1), Names(r2));
  }
}
