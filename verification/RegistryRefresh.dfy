/** One refresh of the providers of a custom registry: a batch of edits on one copy of the configuration. */
module RegistryRefresh {
  import opened Wrappers
  import opened ProviderConfig
  import opened ProviderRuns
  import opened ModelRefresh

  /** What the registry now says about its providers. */
  type Remote = map<string, RegistryEntry>

  ghost predicate Keyed(remote: Remote) {
    forall id :: id in remote ==> remote[id].id == id
  }

  /** Syncing one provider on the copy `next` of `c`: gone, or applied with the user's own aliases restored. */
  function Sync(c: Config, next: Config, id: string, remote: Remote, source: Source): Config {
    if id !in remote then Remove(next, id)
    else
      var applied := ApplyRegistry(next, remote[id], source);
      if id in c.providers then WithUserAliases(c, applied, id, id + "/") else applied
  }

  function SyncAll(c: Config, ids: seq<string>, remote: Remote, source: Source): Config {
    if ids == [] then c
    else Sync(c, SyncAll(c, ids[..|ids| - 1], remote, source), ids[|ids| - 1], remote, source)
  }

  function RefreshRegistry(c: Config, ids: seq<string>, remote: Remote, source: Source): Config {
    WithDefault(c, SyncAll(c, ids, remote, source))
  }

  /** What is reported of one provider: dropped, as before (but perhaps with a new entry), or changed. */
  datatype Report = Gone(removed: nat) | Same(rewritten: bool) | Updated(added: nat, removed: nat)

  function SyncedKeys(c: Config, next: Config, id: string, remote: Remote, source: Source): set<string>
    requires id in remote
  {
    RefreshedKeys(c, ApplyRegistry(next, remote[id], source), id, id + "/")
  }

  ghost predicate Reported(r: Report, c: Config, next: Config, id: string, remote: Remote, source: Source) {
    if id !in remote then r == Gone(|ModelIds(c, Owned(c.models, id))|)
    else
      var after, keys := Sync(c, next, id, remote, source), SyncedKeys(c, next, id, remote, source);
      if id in c.providers && ModelsEqual(c, after, id, keys) then
        r == Same(id !in after.providers || after.providers[id] != c.providers[id])
      else
        r == Updated(|ModelIds(after, keys) - ModelIds(c, keys)|, |ModelIds(c, keys) - ModelIds(after, keys)|)
  }

  // ---------- The refresh as it runs ----------

  method SyncStore(c: Config, store: Store, id: string, remote: Remote, source: Source) returns (r: Report)
    requires Keyed(remote)
    modifies store
    ensures store.View() == Sync(c, old(store.View()), id, remote, source)
    ensures Reported(r, c, old(store.View()), id, remote, source)
  {
    if id !in remote {
      store.RemoveProvider(id);
      return Gone(|ModelIds(c, Owned(c.models, id))|);
    }
    store.ApplyRegistryProvider(remote[id], source);
    var keys := (set k | k in c.models && Generated(k, c.models[k], id, id + "/")) + Owned(store.models, id);
    if id in c.providers { var _ := RestoreUserAliases(c, store, id, id + "/"); }
    var after := store.Snapshot();
    var o := ReportChange(c, after, id, keys);
    if id in c.providers && o.Unchanged? {
      return Same(id !in after.providers || after.providers[id] != c.providers[id]);
    }
    var added, removed := ComputeChanges(ModelIds(c, keys), ModelIds(after, keys));
    return Updated(added, removed);
  }

  /** One report for each provider, in order. */
  ghost predicate AllReported(reports: seq<Report>, c: Config, ids: seq<string>, remote: Remote, source: Source)
    decreases |ids|
  {
    |reports| == |ids|
    && (ids == [] ||
        var n := |ids| - 1;
        && AllReported(reports[..n], c, ids[..n], remote, source)
        && Reported(reports[n], c, SyncAll(c, ids[..n], remote, source), ids[n], remote, source))
  }

  predicate NothingReported(reports: seq<Report>) {
    forall r :: r in reports ==> r == Same(false)
  }

  lemma ReportedNext(reports: seq<Report>, r: Report, c: Config, ids: seq<string>, id: string, remote: Remote,
                     source: Source)
    requires AllReported(reports, c, ids, remote, source)
    requires Reported(r, c, SyncAll(c, ids, remote, source), id, remote, source)
    ensures AllReported(reports + [r], c, ids + [id], remote, source)
  {
    var more, all, n := reports + [r], ids + [id], |ids|;
    assert all[..n] == ids && all[n] == id;
    assert more[..n] == reports && more[n] == r;
  }

  lemma NothingReportedNext(reports: seq<Report>, r: Report)
    ensures NothingReported(reports + [r]) <==> NothingReported(reports) && r == Same(false)
  {
    assert r in reports + [r] && forall x :: x in reports ==> x in reports + [r];
  }

  method SyncStores(c: Config, store: Store, ids: seq<string>, remote: Remote, source: Source)
    returns (write: bool, reports: seq<Report>)
    requires Keyed(remote) && store.View() == c
    modifies store
    ensures store.View() == SyncAll(c, ids, remote, source)
    ensures AllReported(reports, c, ids, remote, source) && (write <==> !NothingReported(reports))
  {
    write, reports := false, [];
    for i := 0 to |ids|
      invariant store.View() == SyncAll(c, ids[..i], remote, source)
      invariant AllReported(reports, c, ids[..i], remote, source) && (write <==> !NothingReported(reports))
    {
      assert ids[..i + 1] == ids[..i] + [ids[i]];
      assert (ids[..i] + [ids[i]])[..i] == ids[..i];
      var r := SyncStore(c, store, ids[i], remote, source);
      ReportedNext(reports, r, c, ids[..i], ids[i], remote, source);
      NothingReportedNext(reports, r);
      reports := reports + [r];
      write := write || r != Same(false);
    }
    assert ids[..|ids|] == ids;
  }

  /** The registry branch for the providers it has to sync; nothing is written when nothing has changed. */
  method RefreshRegistryProviders(c: Config, ids: seq<string>, remote: Remote, source: Source)
    returns (next: Option<Config>, reports: seq<Report>)
    requires Keyed(remote)
    ensures AllReported(reports, c, ids, remote, source)
    ensures next.None? <==> NothingReported(reports)
    ensures next.Some? ==> next.value == RefreshRegistry(c, ids, remote, source)
  {
    var store := new Store(c);
    var write;
    write, reports := SyncStores(c, store, ids, remote, source);
    if !write { return None, reports; }
    SettleDefault(c, store);
    var result := store.Snapshot();
    return Some(result), reports;
  }

  // ---------- Nothing to write ----------

  /** The same alias, up to the order of its capabilities, or none on either side. */
  predicate SamePlace(a: Config, b: Config, key: string) {
    (key in a.models <==> key in b.models) && (key in a.models ==> SameAlias(a.models[key], b.models[key]))
  }

  lemma SameReportChangesNothing(c: Config, next: Config, id: string, remote: Remote, source: Source, key: string)
    requires Keyed(remote) && SamePlace(c, next, key) && next.providers == c.providers
    requires Reported(Same(false), c, next, id, remote, source)
    ensures SamePlace(c, Sync(c, next, id, remote, source), key)
    ensures Sync(c, next, id, remote, source).providers == c.providers
  {
    var entries, applied := RegistryEntries(remote[id]), ApplyRegistry(next, remote[id], source);
    var keys, after := SyncedKeys(c, next, id, remote, source), Sync(c, next, id, remote, source);
    ReplaceAt(next.models, id, entries, key);
    PatchForProvider(entries, id, key);
    assert Get(applied.models, key).Some? <==> key in applied.models;
    assert key in keys ==> SameEntry(c, after, id, key);
  }

  /** When no provider has anything to report, the batch has changed nothing but the order of capabilities. */
  lemma {:induction false} NothingToWrite(c: Config, ids: seq<string>, reports: seq<Report>, remote: Remote,
                                          source: Source, key: string)
    requires Keyed(remote)
    requires AllReported(reports, c, ids, remote, source) && NothingReported(reports)
    ensures SamePlace(c, SyncAll(c, ids, remote, source), key)
    ensures SyncAll(c, ids, remote, source).providers == c.providers
    decreases |ids|
  {
    if ids != [] {
      var n := |ids| - 1;
      assert reports[n] in reports && forall r :: r in reports[..n] ==> r in reports;
      NothingToWrite(c, ids[..n], reports[..n], remote, source, key);
      SameReportChangesNothing(c, SyncAll(c, ids[..n], remote, source), ids[n], remote, source, key);
    }
  }

  // ---------- Well-formedness ----------

  ghost predicate AliasesNameProviders(c: Config) {
    forall k :: k in c.models ==> c.models[k].provider in c.providers
  }

  lemma SyncKeepsAliases(c: Config, next: Config, id: string, remote: Remote, source: Source)
    requires AliasesNameProviders(next) && Keyed(remote)
    ensures AliasesNameProviders(Sync(c, next, id, remote, source))
  {
    if id in remote {
      var applied := ApplyRegistry(next, remote[id], source);
      forall k | k in applied.models ensures applied.models[k].provider in applied.providers {
        ReplaceAt(next.models, id, RegistryEntries(remote[id]), k);
        PatchForProvider(RegistryEntries(remote[id]), id, k);
        assert Get(applied.models, k) == Some(applied.models[k]);
      }
    }
  }

  lemma {:induction false} SyncAllKeepsAliases(c: Config, ids: seq<string>, remote: Remote, source: Source)
    requires AliasesNameProviders(c) && Keyed(remote)
    ensures AliasesNameProviders(SyncAll(c, ids, remote, source))
  {
    if ids != [] {
      SyncAllKeepsAliases(c, ids[..|ids| - 1], remote, source);
      SyncKeepsAliases(c, SyncAll(c, ids[..|ids| - 1], remote, source), ids[|ids| - 1], remote, source);
    }
  }

  /** Removing providers may clear the default, and nothing else in the batch touches it. */
  lemma {:induction false} SyncAllDefault(c: Config, ids: seq<string>, remote: Remote, source: Source)
    ensures var batch := SyncAll(c, ids, remote, source);
            batch.defaultModel in {None, c.defaultModel} && batch.defaultThinking == c.defaultThinking
  {
    if ids != [] { SyncAllDefault(c, ids[..|ids| - 1], remote, source); }
  }

  /**
   * A registry refresh keeps the configuration well formed. The default stays if its alias survives and is unset
   * otherwise, and a default that cannot stop thinking has thinking on.
   */
  lemma RegistryRefreshKeepsWellFormed(c: Config, ids: seq<string>, remote: Remote, source: Source)
    requires WellFormed(c) && Keyed(remote)
    ensures var next := RefreshRegistry(c, ids, remote, source);
            && WellFormed(next)
            && next.defaultModel == (if Kept(c, next) then c.defaultModel else None)
            && (next.defaultModel.Some? ==> !ThinkingLost(next))
            && (c.defaultModel.Some? && next.defaultModel.None? ==> next.defaultThinking.None?)
  {
    SyncAllKeepsAliases(c, ids, remote, source);
    SyncAllDefault(c, ids, remote, source);
  }

  // ---------- What a batch leaves alone ----------

  /** No provider of the batch but `owner` generates this alias. */
  ghost predicate NotGenerated(key: string, ids: seq<string>, remote: Remote, owner: string) {
    forall id :: id in ids && id in remote && id != owner ==> key !in Keys(RegistryEntries(remote[id]))
  }

  lemma SyncOfAnother(c: Config, next: Config, id: string, remote: Remote, source: Source, key: string)
    requires Keyed(remote) && key in next.models && next.models[key].provider != id
    requires id in remote ==> key !in Keys(RegistryEntries(remote[id]))
    requires key in c.models ==> c.models[key].provider != id
    ensures Get(Sync(c, next, id, remote, source).models, key) == Some(next.models[key])
  {
    if id in remote {
      ReplaceAt(next.models, id, RegistryEntries(remote[id]), key);
      PatchAllAt(next.models, RegistryEntries(remote[id]), key);
    }
  }

  /** Aliases of providers outside the batch stay as they are. */
  lemma {:induction false} OtherAliasesSurvive(c: Config, ids: seq<string>, remote: Remote, source: Source, key: string)
    requires Keyed(remote) && key in c.models && c.models[key].provider !in ids
    requires NotGenerated(key, ids, remote, c.models[key].provider)
    ensures Get(SyncAll(c, ids, remote, source).models, key) == Some(c.models[key])
  {
    if ids != [] {
      var front, id := ids[..|ids| - 1], ids[|ids| - 1];
      assert ids == front + [id];
      OtherAliasesSurvive(c, front, remote, source, key);
      SyncOfAnother(c, SyncAll(c, front, remote, source), id, remote, source, key);
    }
  }

  lemma SyncRestores(c: Config, next: Config, id: string, remote: Remote, source: Source, key: string)
    requires Keyed(remote) && id in remote && id in c.providers
    requires key in c.models && c.models[key].provider == id && !(id + "/" <= key)
    ensures Get(Sync(c, next, id, remote, source).models, key) == Some(c.models[key])
  {
    var applied := ApplyRegistry(next, remote[id], source);
    ReplaceAt(next.models, id, RegistryEntries(remote[id]), key);
    PatchAllAt(next.models, RegistryEntries(remote[id]), key);
    assert forall e :: e in RegistryEntries(remote[id]) ==> id + "/" <= e.key;
    assert key !in Owned(applied.models, id);
  }

  /** The user's own aliases of a provider still in the registry stay as they are, wherever it is in the batch. */
  lemma {:induction false} UserAliasesSurviveBatch(c: Config, ids: seq<string>, remote: Remote, source: Source,
                                                   key: string)
    requires Keyed(remote) && key in c.models
    requires var id := c.models[key].provider;
             id in ids && id in remote && id in c.providers && !(id + "/" <= key) && NotGenerated(key, ids, remote, id)
    ensures Get(SyncAll(c, ids, remote, source).models, key) == Some(c.models[key])
  {
    var front, id := ids[..|ids| - 1], ids[|ids| - 1];
    assert ids == front + [id];
    var next := SyncAll(c, front, remote, source);
    if id == c.models[key].provider {
      SyncRestores(c, next, id, remote, source, key);
    } else {
      UserAliasesSurviveBatch(c, front, remote, source, key);
      SyncOfAnother(c, next, id, remote, source, key);
    }
  }

  lemma SyncProviders(c: Config, next: Config, id: string, remote: Remote, source: Source)
    requires Keyed(remote)
    ensures Sync(c, next, id, remote, source).providers
         == if id in remote then next.providers[id := RegistryProvider(remote[id], source)] else next.providers - {id}
  {
  }

  /** The registry's providers afterwards: those the registry still has, each with its new source. */
  lemma {:induction false} SyncedProviders(c: Config, ids: seq<string>, remote: Remote, source: Source)
    requires Keyed(remote)
    ensures var after := SyncAll(c, ids, remote, source).providers;
            && (forall id :: id in ids ==> (id in after <==> id in remote))
            && (forall id :: id in ids && id in remote ==>
                  after[id]
                  == Provider(remote[id].kind, Some(remote[id].api), source.apiKey, None, [], Some(source)))
            && (forall id :: id !in ids ==> (id in after <==> id in c.providers))
            && (forall id :: id !in ids && id in after ==> after[id] == c.providers[id])
  {
    if ids != [] {
      var front, id := ids[..|ids| - 1], ids[|ids| - 1];
      assert ids == front + [id];
      SyncedProviders(c, front, remote, source);
      SyncProviders(c, SyncAll(c, front, remote, source), id, remote, source);
    }
  }

  // ---------- Refreshing again ----------

  predicate Generates(id: string, remote: Remote, key: string) {
    id in remote && PatchFor(RegistryEntries(remote[id]), key).Some?
  }

  /** Syncing a provider puts the user's alias back under this key. */
  predicate Restores(c: Config, id: string, key: string) {
    id in c.providers && key in c.models && c.models[key].provider == id && !(id + "/" <= key)
  }

  /** What syncing one provider does to one alias. */
  function SyncKey(c: Config, v: Option<Alias>, id: string, remote: Remote, key: string): Option<Alias> {
    if id !in remote then if v.Some? && v.value.provider == id then None else v
    else if Generates(id, remote, key) then Some(Spread(v, PatchFor(RegistryEntries(remote[id]), key).value))
    else if Restores(c, id, key) then Some(c.models[key])
    else if v.Some? && v.value.provider == id then None else v
  }

  function SyncKeyAll(c: Config, v: Option<Alias>, ids: seq<string>, remote: Remote, key: string): Option<Alias> {
    if ids == [] then v
    else SyncKey(c, SyncKeyAll(c, v, ids[..|ids| - 1], remote, key), ids[|ids| - 1], remote, key)
  }

  lemma SyncAt(c: Config, next: Config, id: string, remote: Remote, source: Source, key: string)
    requires Keyed(remote)
    ensures Get(Sync(c, next, id, remote, source).models, key) == SyncKey(c, Get(next.models, key), id, remote, key)
  {
    if id in remote {
      var entries, applied := RegistryEntries(remote[id]), ApplyRegistry(next, remote[id], source);
      ReplaceAt(next.models, id, entries, key);
      PatchForProvider(entries, id, key);
      assert Get(applied.models, key).Some? <==> key in applied.models;
      if Generates(id, remote, key) {
        PatchAllAt(map[], entries, key);
      }
    }
  }

  lemma {:induction false} SyncAllAt(c: Config, ids: seq<string>, remote: Remote, source: Source, key: string)
    requires Keyed(remote)
    ensures Get(SyncAll(c, ids, remote, source).models, key)
         == SyncKeyAll(c, Get(c.models, key), ids, remote, key)
  {
    if ids != [] {
      var front := ids[..|ids| - 1];
      SyncAllAt(c, front, remote, source, key);
      SyncAt(c, SyncAll(c, front, remote, source), ids[|ids| - 1], remote, source, key);
    }
  }

  lemma {:induction false} SyncKeyAllAppend(c: Config, v: Option<Alias>, a: seq<string>, b: seq<string>, remote: Remote,
                                            key: string)
    ensures SyncKeyAll(c, v, a + b, remote, key) == SyncKeyAll(c, SyncKeyAll(c, v, a, remote, key), b, remote, key)
  {
    if b == [] {
      assert a + b == a;
    } else {
      assert (a + b)[..|a + b| - 1] == a + b[..|b| - 1];
      SyncKeyAllAppend(c, v, a, b[..|b| - 1], remote, key);
    }
  }

  ghost predicate NoneGenerates(ids: seq<string>, remote: Remote, key: string) {
    forall id :: id in ids ==> !Generates(id, remote, key)
  }

  predicate RestoredAmong(c: Config, ids: seq<string>, remote: Remote, key: string) {
    key in c.models && var id := c.models[key].provider; id in ids && id in remote && Restores(c, id, key)
  }

  /** Providers that do not generate an alias can only drop it or put it back. */
  lemma {:induction false} WithoutGenerator(c: Config, v: Option<Alias>, ids: seq<string>, remote: Remote, key: string)
    requires NoneGenerates(ids, remote, key)
    ensures SyncKeyAll(c, v, ids, remote, key)
         == if RestoredAmong(c, ids, remote, key) then Some(c.models[key])
            else if v.Some? && v.value.provider in ids then None else v
  {
    if ids != [] {
      var front, id := ids[..|ids| - 1], ids[|ids| - 1];
      assert ids == front + [id];
      WithoutGenerator(c, v, front, remote, key);
    }
  }

  /** What spreading a registry's patch leaves of the alias before it. */
  predicate SameRest(a: Alias, b: Alias) {
    a.supportEfforts == b.supportEfforts && a.defaultEffort == b.defaultEffort && a.protocol == b.protocol
    && a.extras == b.extras
  }

  lemma {:induction false} RegistryPatchLeavesRest(entries: seq<Entry>, key: string)
    requires forall e :: e in entries ==>
               e.patch.supportEfforts.None? && e.patch.defaultEffort.None? && e.patch.protocol.None?
               && e.patch.displayName.Some?
    ensures var p := PatchFor(entries, key);
            p.Some? ==> p.value.supportEfforts.None? && p.value.defaultEffort.None? && p.value.protocol.None?
                        && p.value.displayName.Some?
  {
    if entries != [] {
      assert entries[|entries| - 1] in entries;
      RegistryPatchLeavesRest(entries[..|entries| - 1], key);
    }
  }

  lemma SpreadLeavesRest(v: Option<Alias>, id: string, remote: Remote, key: string)
    requires Keyed(remote) && Generates(id, remote, key)
    ensures var p := PatchFor(RegistryEntries(remote[id]), key).value;
            && Spread(v, p).provider == id
            && (v.Some? ==> SameRest(v.value, Spread(v, p)))
            && forall a: Alias :: SameRest(a, Spread(v, p)) ==> Spread(Some(a), p) == Spread(v, p)
  {
    RegistryPatchLeavesRest(RegistryEntries(remote[id]), key);
    PatchForProvider(RegistryEntries(remote[id]), id, key);
  }

  /** An alias that some provider generates is neither dropped nor replaced by other providers. */
  lemma {:induction false} GeneratedKeepsRest(c: Config, a: Alias, ids: seq<string>, remote: Remote, key: string)
    requires Keyed(remote) && key in c.models && Generates(c.models[key].provider, remote, key)
    requires Generates(a.provider, remote, key)
    ensures var v := SyncKeyAll(c, Some(a), ids, remote, key);
            v.Some? && SameRest(a, v.value) && Generates(v.value.provider, remote, key)
  {
    if ids != [] {
      var front, id := ids[..|ids| - 1], ids[|ids| - 1];
      GeneratedKeepsRest(c, a, front, remote, key);
      if Generates(id, remote, key) {
        SpreadLeavesRest(SyncKeyAll(c, Some(a), front, remote, key), id, remote, key);
      }
    }
  }

  /** A batch at the last provider that generates an alias. */
  lemma {:induction false} LastGenerator(ids: seq<string>, remote: Remote, key: string)
    returns (pre: seq<string>, g: string, post: seq<string>)
    requires !NoneGenerates(ids, remote, key)
    ensures ids == pre + ([g] + post) && (forall id :: id in post ==> id in ids)
    ensures Generates(g, remote, key) && NoneGenerates(post, remote, key)
  {
    var front, last := ids[..|ids| - 1], ids[|ids| - 1];
    assert ids == front + [last];
    if Generates(last, remote, key) {
      pre, g, post := front, last, [];
      assert [last] + [] == [last];
    } else {
      pre, g, post := LastGenerator(front, remote, key);
      assert pre + ([g] + (post + [last])) == (pre + ([g] + post)) + [last];
      post := post + [last];
    }
  }

  lemma UngeneratedTwice(c: Config, once: Config, ids: seq<string>, remote: Remote, key: string)
    requires NoneGenerates(ids, remote, key)
    requires Get(once.models, key) == SyncKeyAll(c, Get(c.models, key), ids, remote, key)
    requires forall id :: id in ids && id in remote ==> id in once.providers
    ensures SyncKeyAll(once, Get(once.models, key), ids, remote, key) == Get(once.models, key)
  {
    WithoutGenerator(c, Get(c.models, key), ids, remote, key);
    WithoutGenerator(once, Get(once.models, key), ids, remote, key);
  }

  /** A second batch does nothing to an alias as the first one has left it. */
  lemma SyncKeyTwice(c: Config, once: Config, ids: seq<string>, remote: Remote, key: string)
    requires Keyed(remote) && Get(once.models, key) == SyncKeyAll(c, Get(c.models, key), ids, remote, key)
    requires forall id :: id in ids && id in remote ==> id in once.providers
    ensures SyncKeyAll(once, Get(once.models, key), ids, remote, key) == Get(once.models, key)
  {
    if NoneGenerates(ids, remote, key) {
      UngeneratedTwice(c, once, ids, remote, key);
    } else {
      var pre, g, post := LastGenerator(ids, remote, key);
      GeneratedTwice(c, once, pre, g, post, remote, key);
    }
  }

  lemma ThroughGenerator(c: Config, v: Option<Alias>, pre: seq<string>, g: string, post: seq<string>, remote: Remote,
                         key: string)
    requires Keyed(remote) && Generates(g, remote, key) && NoneGenerates(post, remote, key)
    ensures var p := PatchFor(RegistryEntries(remote[g]), key).value;
            SyncKeyAll(c, v, pre + ([g] + post), remote, key)
            == if RestoredAmong(c, post, remote, key) then Some(c.models[key])
               else Some(Spread(SyncKeyAll(c, v, pre, remote, key), p))
  {
    var p, x := PatchFor(RegistryEntries(remote[g]), key).value, SyncKeyAll(c, v, pre, remote, key);
    SyncKeyAllAppend(c, v, pre, [g] + post, remote, key);
    SyncKeyAllAppend(c, x, [g], post, remote, key);
    assert [g][..0] == [];
    assert SyncKeyAll(c, x, [g], remote, key) == Some(Spread(x, p));
    SpreadLeavesRest(x, g, remote, key);
    WithoutGenerator(c, Some(Spread(x, p)), post, remote, key);
  }

  lemma GeneratedTwice(c: Config, once: Config, pre: seq<string>, g: string, post: seq<string>, remote: Remote,
                       key: string)
    requires Keyed(remote) && Generates(g, remote, key) && NoneGenerates(post, remote, key)
    requires Get(once.models, key) == SyncKeyAll(c, Get(c.models, key), pre + ([g] + post), remote, key)
    requires forall id :: id in post && id in remote ==> id in once.providers
    ensures SyncKeyAll(once, Get(once.models, key), pre + ([g] + post), remote, key) == Get(once.models, key)
  {
    var u := Get(once.models, key);
    var p, x := PatchFor(RegistryEntries(remote[g]), key).value, SyncKeyAll(c, Get(c.models, key), pre, remote, key);
    ThroughGenerator(c, Get(c.models, key), pre, g, post, remote, key);
    ThroughGenerator(once, u, pre, g, post, remote, key);
    if !RestoredAmong(c, post, remote, key) {
      SpreadLeavesRest(x, g, remote, key);
      GeneratedKeepsRest(once, u.value, pre, remote, key);
    }
  }

  lemma {:induction false} SyncAllKeepsTheRest(c: Config, ids: seq<string>, remote: Remote, source: Source)
    ensures var after := SyncAll(c, ids, remote, source);
            && after.services == c.services
            && after.defaultProvider
               == if c.defaultProvider.Some? && c.defaultProvider.value in ids && c.defaultProvider.value !in remote
                  then None else c.defaultProvider
  {
    if ids != [] {
      assert ids == ids[..|ids| - 1] + [ids[|ids| - 1]];
      SyncAllKeepsTheRest(c, ids[..|ids| - 1], remote, source);
    }
  }

  /** A provider entry is determined by whether the batch syncs it. */
  lemma SameProviders(a: map<string, Provider>, b: map<string, Provider>)
    requires forall id :: id in a <==> id in b
    requires forall id :: id in a && id in b ==> a[id] == b[id]
    ensures a == b
  {
  }

  lemma RegistryProvidersTwice(c: Config, once: Config, ids: seq<string>, remote: Remote, source: Source)
    requires Keyed(remote) && once == RefreshRegistry(c, ids, remote, source)
    ensures SyncAll(once, ids, remote, source).providers == once.providers
    ensures forall id :: id in ids && id in remote ==> id in once.providers
  {
    SyncedProviders(c, ids, remote, source);
    SyncedProviders(once, ids, remote, source);
    SameProviders(SyncAll(once, ids, remote, source).providers, once.providers);
  }

  lemma RegistryModelsTwice(c: Config, once: Config, ids: seq<string>, remote: Remote, source: Source)
    requires Keyed(remote) && once.models == SyncAll(c, ids, remote, source).models
    requires forall id :: id in ids && id in remote ==> id in once.providers
    ensures SyncAll(once, ids, remote, source).models == once.models
  {
    var twice := SyncAll(once, ids, remote, source);
    forall key ensures Get(twice.models, key) == Get(once.models, key) {
      SyncAllAt(c, ids, remote, source, key);
      SyncAllAt(once, ids, remote, source, key);
      SyncKeyTwice(c, once, ids, remote, key);
    }
    SameModels(twice.models, once.models);
  }

  lemma WithDefaultTwice(c: Config, batch: Config, again: Config)
    requires again == WithDefault(c, batch).(defaultModel := again.defaultModel)
    requires batch.defaultModel in {None, c.defaultModel} && batch.defaultThinking == c.defaultThinking
    requires again.defaultModel in {None, WithDefault(c, batch).defaultModel}
    ensures WithDefault(WithDefault(c, batch), again) == WithDefault(c, batch)
  {
  }

  /** A second refresh of the same providers from the same registry leaves the whole configuration as it is. */
  lemma RegistryRefreshTwice(c: Config, ids: seq<string>, remote: Remote, source: Source)
    requires Keyed(remote)
    ensures var once := RefreshRegistry(c, ids, remote, source);
            RefreshRegistry(once, ids, remote, source) == once
  {
    var once := RefreshRegistry(c, ids, remote, source);
    RegistryProvidersTwice(c, once, ids, remote, source);
    RegistryModelsTwice(c, once, ids, remote, source);
    SyncAllKeepsTheRest(c, ids, remote, source);
    SyncAllKeepsTheRest(once, ids, remote, source);
    SyncAllDefault(c, ids, remote, source);
    SyncAllDefault(once, ids, remote, source);
    WithDefaultTwice(c, SyncAll(c, ids, remote, source), SyncAll(once, ids, remote, source));
  }
}
