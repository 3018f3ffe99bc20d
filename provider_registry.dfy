/**
 * The provider registry: a `Map` from provider names to entries that carry
 * an adapter, its metadata and an `enabled` flag. A JavaScript `Map` keeps
 * insertion order, and overwriting a name keeps its position; `order` holds
 * that order and `entries` the contents.
 */
module ProviderRegistry {
  import opened Wrappers
  import opened ProviderTypes
  import MockProvider

  datatype ProviderEntry = ProviderEntry(adapter: Adapter, metadata: ProviderMetadata, enabled: bool)

  /** The metadata the registry registers the mock provider with. */
  const MockMetadata: ProviderMetadata := ProviderMetadata(
    "mock",
    Some("Mock provider for testing and development"),
    "https://api.mock.com",
    ["mock-model-1", "mock-model-2"],
    Some(Features(true, false, false)))

  const MockEntry: ProviderEntry := ProviderEntry(MockProvider.MockAdapter, MockMetadata, true)

  /** `getProvider` on given contents: the adapter of an enabled entry, otherwise `null`. */
  function Served(entries: map<string, ProviderEntry>, name: string): (r: Option<Adapter>)
    ensures r.Some? <==> name in entries && entries[name].enabled
    ensures r.Some? ==> r.value == entries[name].adapter
  {
    if name in entries && entries[name].enabled then Some(entries[name].adapter) else None
  }

  /** The entries of `names`, in that order; with `enabledOnly`, the enabled ones only. */
  function EntriesOf(entries: map<string, ProviderEntry>, names: seq<string>, enabledOnly: bool): (r: seq<ProviderEntry>)
    requires forall k :: 0 <= k < |names| ==> names[k] in entries
    ensures |r| <= |names|
    ensures !enabledOnly ==> |r| == |names|
    ensures forall e :: e in r ==> exists k :: 0 <= k < |names| && entries[names[k]] == e
    ensures enabledOnly ==> forall e :: e in r ==> e.enabled
    ensures forall k :: 0 <= k < |names| && (!enabledOnly || entries[names[k]].enabled) ==> entries[names[k]] in r
    ensures |names| == 1 ==> r == (if !enabledOnly || entries[names[0]].enabled then [entries[names[0]]] else [])
    decreases |names|
  {
    if |names| == 0 then []
    else
      var e := entries[names[0]];
      var tail := EntriesOf(entries, names[1..], enabledOnly);
      assert forall k :: 1 <= k < |names| ==> names[1..][k - 1] == names[k];
      if enabledOnly && !e.enabled then tail else [e] + tail
  }

  /** Registration order is kept: the entries of a concatenation are those of each part. */
  lemma {:induction false} EntriesOfAppend(entries: map<string, ProviderEntry>, a: seq<string>, b: seq<string>, enabledOnly: bool)
    requires forall k :: 0 <= k < |a| ==> a[k] in entries
    requires forall k :: 0 <= k < |b| ==> b[k] in entries
    ensures forall k :: 0 <= k < |a + b| ==> (a + b)[k] in entries
    ensures EntriesOf(entries, a + b, enabledOnly) == EntriesOf(entries, a, enabledOnly) + EntriesOf(entries, b, enabledOnly)
    decreases |a|
  {
    if |a| == 0 {
      assert a + b == b;
    } else {
      assert (a + b)[0] == a[0] && (a + b)[1..] == a[1..] + b;
      EntriesOfAppend(entries, a[1..], b, enabledOnly);
    }
  }

  /** Cutting the names anywhere: the entries before the cut come before those after it. */
  lemma EntriesOfSplit(entries: map<string, ProviderEntry>, names: seq<string>, enabledOnly: bool)
    requires forall k :: 0 <= k < |names| ==> names[k] in entries
    ensures forall k :: 0 <= k <= |names| ==>
              EntriesOf(entries, names, enabledOnly) == EntriesOf(entries, names[..k], enabledOnly) + EntriesOf(entries, names[k..], enabledOnly)
  {
    forall k | 0 <= k <= |names|
      ensures EntriesOf(entries, names, enabledOnly) == EntriesOf(entries, names[..k], enabledOnly) + EntriesOf(entries, names[k..], enabledOnly)
    {
      assert names == names[..k] + names[k..];
      EntriesOfAppend(entries, names[..k], names[k..], enabledOnly);
    }
  }

  /** The entries of `names`, in that order. */
  function AllEntries(entries: map<string, ProviderEntry>, names: seq<string>): (r: seq<ProviderEntry>)
    requires forall k :: 0 <= k < |names| ==> names[k] in entries
    ensures |r| == |names| && forall k :: 0 <= k < |r| ==> r[k] == entries[names[k]]
  {
    seq(|names|, k requires 0 <= k < |names| => entries[names[k]])
  }

  /** Every model of every enabled entry, in registration order, repeats included. */
  function EnabledModels(entries: map<string, ProviderEntry>, names: seq<string>): seq<string>
    requires forall k :: 0 <= k < |names| ==> names[k] in entries
    decreases |names|
  {
    if |names| == 0 then []
    else
      var e := entries[names[|names| - 1]];
      EnabledModels(entries, names[..|names| - 1]) + (if e.enabled then e.metadata.models else [])
  }

  /** The distinct elements of `xs` in first-seen order, as `Array.from(new Set(xs))` gives them. */
  function Distinct(xs: seq<string>): (r: seq<string>)
    ensures forall x :: x in r <==> x in xs
    ensures forall i, j :: 0 <= i < j < |r| ==> r[i] != r[j]
    decreases |xs|
  {
    if |xs| == 0 then []
    else
      var prefix := Distinct(xs[..|xs| - 1]);
      var x := xs[|xs| - 1];
      assert forall y :: y in xs <==> y in xs[..|xs| - 1] || y == x;
      if x in prefix then prefix else prefix + [x]
  }

  /** `x` occurs in `xs` before the first occurrence of `y`. */
  predicate SeenBefore(xs: seq<string>, x: string, y: string) {
    exists a :: 0 <= a < |xs| && xs[a] == x && y !in xs[..a + 1]
  }

  /** `Distinct` keeps first-seen order: an earlier result occurs in the input before any occurrence of a later one. */
  lemma {:induction false} DistinctFirstSeen(xs: seq<string>)
    ensures forall i, j :: 0 <= i < j < |Distinct(xs)| ==> SeenBefore(xs, Distinct(xs)[i], Distinct(xs)[j])
    decreases |xs|
  {
    if |xs| > 0 {
      var n := |xs| - 1;
      var prefix := Distinct(xs[..n]);
      var x := xs[n];
      DistinctFirstSeen(xs[..n]);
      var r := Distinct(xs);
      forall i, j | 0 <= i < j < |r| ensures SeenBefore(xs, r[i], r[j]) {
        assert r[i] == prefix[i];
        if j < |prefix| {
          assert r[j] == prefix[j] && SeenBefore(xs[..n], prefix[i], prefix[j]);
          var a :| 0 <= a < n && xs[..n][a] == prefix[i] && prefix[j] !in xs[..n][..a + 1];
          assert xs[..n][..a + 1] == xs[..a + 1];
        } else {
          assert r[j] == x && x !in prefix && prefix[i] in xs[..n];
          var a :| 0 <= a < n && xs[..n][a] == prefix[i];
          assert x !in xs[..n];
          assert xs[..a + 1] == xs[..n][..a + 1];
        }
      }
    }
  }

  /** A model is offered exactly when some enabled entry lists it. */
  lemma {:induction false} EnabledModelsMembers(entries: map<string, ProviderEntry>, names: seq<string>, m: string)
    requires forall k :: 0 <= k < |names| ==> names[k] in entries
    ensures m in EnabledModels(entries, names) <==>
              exists k :: 0 <= k < |names| && entries[names[k]].enabled && m in entries[names[k]].metadata.models
    decreases |names|
  {
    if |names| > 0 {
      var n := |names| - 1;
      EnabledModelsMembers(entries, names[..n], m);
      assert forall k :: 0 <= k < n ==> names[..n][k] == names[k];
    }
  }

  /** Registering changes what is served under that name only. */
  lemma RegisterServes(entries: map<string, ProviderEntry>, name: string, entry: ProviderEntry, other: string)
    ensures Served(entries[name := entry], name) == (if entry.enabled then Some(entry.adapter) else None)
    ensures other != name ==> Served(entries[name := entry], other) == Served(entries, other)
  {
  }

  /** A disabled provider is no longer served, and no other provider is affected. */
  lemma DisableHides(entries: map<string, ProviderEntry>, name: string, other: string)
    requires name in entries
    ensures Served(entries[name := entries[name].(enabled := false)], name) == None
    ensures other != name ==> Served(entries[name := entries[name].(enabled := false)], other) == Served(entries, other)
  {
  }

  /** Enabling an existing provider serves its adapter again. */
  lemma EnableServes(entries: map<string, ProviderEntry>, name: string)
    requires name in entries
    ensures Served(entries[name := entries[name].(enabled := true)], name) == Some(entries[name].adapter)
  {
  }

  /** A fresh registry serves `mock` and nothing else. */
  lemma FreshServesMockOnly(name: string)
    ensures Served(map["mock" := MockEntry], name).Some? <==> name == "mock"
    ensures Served(map["mock" := MockEntry], "mock") == Some(MockProvider.MockAdapter)
  {
  }

  /** Adding one element at the end keeps the distinct prefix and appends the element when it is new. */
  lemma DistinctSnoc(xs: seq<string>, x: string)
    ensures Distinct(xs + [x]) == if x in Distinct(xs) then Distinct(xs) else Distinct(xs) + [x]
  {
    assert (xs + [x])[..|xs|] == xs;
  }

  /** `list.forEach(model => models.add(model))` on a `Set` held as its elements in insertion order plus membership. */
  method AddToSet(models: seq<string>, seen: set<string>, list: seq<string>, ghost before: seq<string>)
    returns (models': seq<string>, seen': set<string>)
    requires models == Distinct(before)
    requires forall m :: m in seen <==> m in models
    ensures models' == Distinct(before + list)
    ensures forall m :: m in seen' <==> m in models'
  {
    models', seen' := models, seen;
    assert before + list[..0] == before;
    for j := 0 to |list|
      invariant models' == Distinct(before + list[..j])
      invariant forall m :: m in seen' <==> m in models'
    {
      assert before + list[..j + 1] == (before + list[..j]) + [list[j]];
      DistinctSnoc(before + list[..j], list[j]);
      if list[j] !in seen' {
        models' := models' + [list[j]];
        seen' := seen' + {list[j]};
      }
    }
    assert list[..|list|] == list;
  }

  class ProviderRegistry {
    /** The names in `Map` insertion order. */
    var order: seq<string>
    /** The `Map` contents. */
    var entries: map<string, ProviderEntry>

    /** The order lists each registered name exactly once. */
    ghost predicate Valid()
      reads this
    {
      (forall i, j :: 0 <= i < j < |order| ==> order[i] != order[j])
      && (forall name :: name in entries <==> name in order)
    }

    /** A fresh registry holds the mock provider only, enabled. */
    constructor ()
      ensures Valid()
      ensures order == ["mock"] && entries == map["mock" := MockEntry]
    {
      order := ["mock"];
      entries := map["mock" := MockEntry];
    }

    /** `register`: inserts or overwrites the entry; a new name goes last, an overwritten one keeps its place. */
    method Register(name: string, metadata: ProviderMetadata, adapter: Adapter, enabled: bool)
      requires Valid()
      modifies this
      ensures Valid()
      ensures entries == old(entries)[name := ProviderEntry(adapter, metadata, enabled)]
      ensures order == if name in old(entries) then old(order) else old(order) + [name]
    {
      if name !in entries {
        order := order + [name];
      }
      entries := entries[name := ProviderEntry(adapter, metadata, enabled)];
    }

    /** `getProvider`: the adapter when the entry exists and is enabled, otherwise `null`. */
    function GetProvider(name: string): (r: Option<Adapter>)
      reads this
      ensures r.Some? <==> name in entries && entries[name].enabled
      ensures r.Some? ==> r.value == entries[name].adapter
    {
      Served(entries, name)
    }

    /** `getEnabledProviders`: the enabled entries in registration order. */
    function GetEnabledProviders(): (r: seq<ProviderEntry>)
      requires Valid()
      reads this
      ensures forall e :: e in r ==> e.enabled && exists name :: name in entries && entries[name] == e
      ensures forall name :: name in entries && entries[name].enabled ==> entries[name] in r
      ensures forall k :: 0 <= k <= |order| ==>
                r == EntriesOf(entries, order[..k], true) + EntriesOf(entries, order[k..], true)
    {
      EntriesOfSplit(entries, order, true);
      EntriesOf(entries, order, true)
    }

    /** `getAllProviders`: every entry in registration order. */
    function GetAllProviders(): (r: seq<ProviderEntry>)
      requires Valid()
      reads this
      ensures |r| == |order|
      ensures forall k :: 0 <= k < |r| ==> r[k] == entries[order[k]]
    {
      AllEntries(entries, order)
    }

    /** `getProviderMetadata`: the metadata of any entry, enabled or not. */
    function GetProviderMetadata(name: string): (r: Option<ProviderMetadata>)
      reads this
      ensures r.Some? <==> name in entries
      ensures r.Some? ==> r.value == entries[name].metadata
    {
      if name in entries then Some(entries[name].metadata) else None
    }

    /** `hasProvider`: registered, whatever the flag. */
    predicate HasProvider(name: string)
      reads this
      ensures HasProvider(name) <==> GetProviderMetadata(name).Some?
    {
      name in entries
    }

    /**
     * `getAvailableModels`: with a (non-empty) name, that provider's models when it is
     * served and `[]` otherwise; with none, the distinct models of all enabled entries.
     */
    method GetAvailableModels(providerName: Option<string>) returns (models: seq<string>)
      requires Valid()
      ensures providerName.Some? && providerName.value != "" ==>
                models == (if Served(entries, providerName.value).Some? then entries[providerName.value].metadata.models else [])
      ensures (providerName.None? || providerName.value == "") ==> models == Distinct(EnabledModels(entries, order))
      ensures (providerName.None? || providerName.value == "") ==>
                forall i, j :: 0 <= i < j < |models| ==> SeenBefore(EnabledModels(entries, order), models[i], models[j])
    {
      if providerName.Some? && providerName.value != "" {
        var provider := GetProvider(providerName.value);
        if provider.Some? {
          var metadata := GetProviderMetadata(providerName.value);
          return metadata.value.models;
        }
        return [];
      }
      models := [];
      var seen: set<string> := {};
      for i := 0 to |order|
        invariant models == Distinct(EnabledModels(entries, order[..i]))
        invariant forall m :: m in seen <==> m in models
      {
        var entry := entries[order[i]];
        ghost var before := EnabledModels(entries, order[..i]);
        if entry.enabled {
          models, seen := AddToSet(models, seen, entry.metadata.models, before);
        } else {
          assert before + [] == before;
        }
        assert order[..i + 1][..i] == order[..i];
      }
      assert order[..|order|] == order;
      DistinctFirstSeen(EnabledModels(entries, order));
    }

    /** `getProvidersMetadata`: the metadata of the enabled entries, in registration order. */
    function GetProvidersMetadata(): (r: seq<ProviderMetadata>)
      requires Valid()
      reads this
      ensures |r| == |GetEnabledProviders()|
      ensures forall k :: 0 <= k < |r| ==> r[k] == GetEnabledProviders()[k].metadata
      ensures forall name :: name in entries && entries[name].enabled ==> entries[name].metadata in r
      ensures forall m :: m in r ==> exists name :: name in entries && entries[name].enabled && entries[name].metadata == m
    {
      var enabled := GetEnabledProviders();
      seq(|enabled|, k requires 0 <= k < |enabled| => enabled[k].metadata)
    }

    /** `enableProvider`: sets the flag of an existing entry; reports whether it existed. */
    method EnableProvider(name: string) returns (found: bool)
      requires Valid()
      modifies this
      ensures Valid()
      ensures found <==> name in old(entries)
      ensures entries == if found then old(entries)[name := old(entries)[name].(enabled := true)] else old(entries)
      ensures order == old(order)
    {
      if name in entries {
        entries := entries[name := entries[name].(enabled := true)];
        return true;
      }
      return false;
    }

    /** `disableProvider`: clears the flag of an existing entry; reports whether it existed. */
    method DisableProvider(name: string) returns (found: bool)
      requires Valid()
      modifies this
      ensures Valid()
      ensures found <==> name in old(entries)
      ensures entries == if found then old(entries)[name := old(entries)[name].(enabled := false)] else old(entries)
      ensures order == old(order)
    {
      if name in entries {
        entries := entries[name := entries[name].(enabled := false)];
        return true;
      }
      return false;
    }
  }
}
