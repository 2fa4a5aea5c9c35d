/** What every sequence of configuration edits keeps, and what a re-import of a registry leaves. */
module ProviderRuns {
  import opened Wrappers
  import opened ProviderConfig

  /** The configuration edits of the three kinds of providers. */
  datatype Edit =
    | LogIn(models: seq<ModelInfo>, login: Login, preserve: bool)
    | SignOut
    | CleanUp
    | AddPlatform(platform: string, models: seq<ModelInfo>, selected: ModelInfo, thinking: bool, entry: Provider)
    | RemovePlatform(platform: string)
    | ImportRegistry(entries: seq<RegistryEntry>, source: Source)
    | RemoveRegistry(provider: string)

  function Perform(c: Config, e: Edit): Config {
    match e
    case LogIn(models, login, preserve) => if Usable(models) then ApplyManaged(c, models, login, preserve) else c
    case SignOut => LogOut(c)
    case CleanUp => Clear(c)
    case AddPlatform(platform, models, selected, thinking, entry) =>
      ApplyOpen(c, platform, models, selected, thinking, entry)
    case RemovePlatform(platform) => Remove(c, platform)
    case ImportRegistry(entries, source) => Reimport(c, entries, source)
    case RemoveRegistry(provider) => Remove(c, provider)
  }

  function PerformAll(c: Config, edits: seq<Edit>): Config {
    if edits == [] then c else Perform(PerformAll(c, edits[..|edits| - 1]), edits[|edits| - 1])
  }

  /** A platform is added with one of its own models as the selected one. */
  predicate Permitted(e: Edit) {
    e.AddPlatform? ==> exists m :: m in e.models && m.id == e.selected.id
  }

  lemma ReplaceKeepsAliases(c: Config, provider: string, entries: seq<Entry>, entry: Provider)
    requires WellFormed(c) && AllFor(entries, provider)
    ensures var models := Replace(c.models, provider, entries);
            forall k :: k in models ==> models[k].provider in c.providers[provider := entry]
  {
    var models := Replace(c.models, provider, entries);
    forall k | k in models ensures models[k].provider in c.providers[provider := entry] {
      ReplaceAt(c.models, provider, entries, k);
      PatchForProvider(entries, provider, k);
      assert Get(models, k) == Some(models[k]);
    }
  }

  lemma EntryIsWritten(models: map<string, Alias>, provider: string, entries: seq<Entry>, i: nat)
    requires i < |entries|
    ensures entries[i].key in Replace(models, provider, entries)
  {
    ReplaceAt(models, provider, entries, entries[i].key);
    PatchAllAt(models, entries, entries[i].key);
    assert entries[i] in entries;
  }

  lemma {:induction false} LastWithKeyIsListed(models: seq<ModelInfo>, prefix: string, key: string)
    ensures LastWithKey(models, prefix, key).Some? <==> exists i :: 0 <= i < |models| && prefix + models[i].id == key
  {
    if models != [] {
      var front := models[..|models| - 1];
      LastWithKeyIsListed(front, prefix, key);
      assert prefix + models[|models| - 1].id == key ==> LastWithKey(models, prefix, key).Some?;
      if i :| 0 <= i < |models| && prefix + models[i].id == key {
        if i < |front| { assert prefix + front[i].id == key; }
      }
      if i :| 0 <= i < |front| && prefix + front[i].id == key { assert prefix + models[i].id == key; }
    }
  }

  lemma SelectedDefaultExists(c: Config, models: seq<ModelInfo>, preserve: bool)
    requires models != []
    ensures SelectDefault(c, models, preserve).0 in Replace(c.models, MANAGED, ManagedEntries(models))
  {
    var entries := ManagedEntries(models);
    if preserve && CanPreserve(c, models) {
      var key := c.defaultModel.value;
      LastWithKeyIsListed(models, MANAGED_PREFIX, key);
      if i :| 0 <= i < |models| && MANAGED_PREFIX + models[i].id == key {
        assert entries[i].key == key;
        EntryIsWritten(c.models, MANAGED, entries, i);
      } else {
        ReplaceAt(c.models, MANAGED, entries, key);
      }
    } else {
      assert entries[0].key == ManagedKey(models[0].id);
      EntryIsWritten(c.models, MANAGED, entries, 0);
    }
  }

  lemma LogInKeepsWellFormed(c: Config, models: seq<ModelInfo>, login: Login, preserve: bool)
    requires WellFormed(c) && Usable(models)
    ensures WellFormed(ApplyManaged(c, models, login, preserve))
  {
    ReplaceKeepsAliases(c, MANAGED, ManagedEntries(models), ManagedEntry(c.providers, login));
    SelectedDefaultExists(c, models, preserve);
  }

  lemma OpenKeyListed(platform: string, models: seq<ModelInfo>, id: string)
    ensures AliasKey(platform, id) in Keys(OpenEntries(platform, models)) <==> exists m :: m in models && m.id == id
  {
    var entries, key := OpenEntries(platform, models), AliasKey(platform, id);
    if m :| m in models && m.id == id {
      var i :| 0 <= i < |models| && models[i] == m;
      assert entries[i].key == key && entries[i] in entries;
    }
    if key in Keys(entries) {
      var e :| e in entries && e.key == key;
      var i :| 0 <= i < |entries| && entries[i] == e;
      assert models[i].id == e.key[|platform| + 1..] == id;
      assert models[i] in models;
    }
  }

  /** Adding a platform keeps the configuration well formed exactly when its selected alias exists afterwards. */
  lemma AddPlatformWellFormedIff(c: Config, platform: string, models: seq<ModelInfo>, selected: ModelInfo,
                                 thinking: bool, entry: Provider)
    requires WellFormed(c)
    ensures WellFormed(ApplyOpen(c, platform, models, selected, thinking, entry))
       <==> var key := AliasKey(platform, selected.id);
            (exists m :: m in models && m.id == selected.id)
            || (key in c.models && c.models[key].provider != platform)
  {
    var entries, key := OpenEntries(platform, models), AliasKey(platform, selected.id);
    ReplaceKeepsAliases(c, platform, entries, entry);
    ReplaceAt(c.models, platform, entries, key);
    PatchAllAt(c.models, entries, key);
    OpenKeyListed(platform, models, selected.id);
  }

  /** Such a platform: its selected model is not in its catalogue, and the default dangles. */
  lemma UnlistedSelectionDangles(platform: string, selected: ModelInfo, thinking: bool, entry: Provider)
    ensures var c := Config(map[], map[], None, None, None, None);
            WellFormed(c) && !WellFormed(ApplyOpen(c, platform, [], selected, thinking, entry))
  {
    AddPlatformWellFormedIff(Config(map[], map[], None, None, None, None), platform, [], selected, thinking, entry);
  }

  lemma RemoveManyKeepsWellFormed(c: Config, ids: set<string>)
    requires WellFormed(c)
    ensures WellFormed(RemoveMany(c, ids))
  {
  }

  lemma RemoveIsRemoveMany(c: Config, id: string)
    ensures Remove(c, id) == RemoveMany(c, {id})
    ensures RemoveAliases(c, id) == Remove(c, id).(defaultProvider := c.defaultProvider)
  {
    assert Owned(c.models, id) == set k | k in c.models && c.models[k].provider in {id};
  }

  lemma ImportOneKeepsWellFormed(c: Config, e: RegistryEntry, source: Source)
    requires WellFormed(c)
    ensures WellFormed(ImportOne(c, e, source))
    ensures ImportOne(c, e, source).providers == c.providers[e.id := RegistryProvider(e, source)]
  {
    RemoveIsRemoveMany(c, e.id);
    var d := if e.id in c.providers then Remove(c, e.id) else c;
    assert WellFormed(d);
    var models := Replace(d.models, e.id, RegistryEntries(e));
    ReplaceKeepsAliases(d, e.id, RegistryEntries(e), RegistryProvider(e, source));
    if d.defaultModel.Some? {
      var key := d.defaultModel.value;
      assert key in d.models && d.models[key].provider != e.id;
      ReplaceAt(d.models, e.id, RegistryEntries(e), key);
    }
  }

  lemma {:induction false} ImportAllKeepsWellFormed(c: Config, entries: seq<RegistryEntry>, source: Source)
    requires WellFormed(c)
    ensures WellFormed(ImportAll(c, entries, source))
    ensures var after := ImportAll(c, entries, source).providers;
            && (forall id :: id in after <==> id in c.providers || id in Imported(entries))
            && (forall id :: id in after ==>
                  after[id].source == if id in Imported(entries) then Some(source) else c.providers[id].source)
  {
    if entries != [] {
      var front, e := entries[..|entries| - 1], entries[|entries| - 1];
      assert entries == front + [e];
      assert Imported(entries) == Imported(front) + {e.id};
      ImportAllKeepsWellFormed(c, front, source);
      ImportOneKeepsWellFormed(ImportAll(c, front, source), e, source);
    }
  }

  /** The provider was imported from this address. */
  predicate FromRegistry(p: Provider, url: string) {
    match p.source
    case Some(Source(kind, address, _)) => kind == "apiJson" && address == url
    case None => false
  }

  /** After a re-import, the providers that carry the registry's URL are exactly the imported ones. */
  lemma ReimportLeavesImported(c: Config, entries: seq<RegistryEntry>, source: Source)
    requires WellFormed(c) && source.kind == "apiJson"
    ensures var after := Reimport(c, entries, source).providers;
            && (forall id ::
                  (id in after && FromRegistry(after[id], source.url)) <==> exists e :: e in entries && e.id == id)
            && (forall id :: id in c.providers && !FromRegistry(c.providers[id], source.url) ==> id in after)
  {
    var cleaned := RemoveMany(c, Orphans(c.providers, entries, source.url));
    RemoveManyKeepsWellFormed(c, Orphans(c.providers, entries, source.url));
    ImportAllKeepsWellFormed(cleaned, entries, source);
  }

  lemma EditKeepsWellFormed(c: Config, e: Edit)
    requires WellFormed(c) && Permitted(e)
    ensures WellFormed(Perform(c, e))
  {
    match e
    case LogIn(models, login, preserve) => if Usable(models) { LogInKeepsWellFormed(c, models, login, preserve); }
    case SignOut => RemoveIsRemoveMany(c, MANAGED);
    case CleanUp => RemoveIsRemoveMany(c, MANAGED);
    case AddPlatform(platform, models, selected, thinking, entry) =>
      AddPlatformWellFormedIff(c, platform, models, selected, thinking, entry);
    case RemovePlatform(platform) => RemoveIsRemoveMany(c, platform);
    case ImportRegistry(entries, source) =>
      RemoveManyKeepsWellFormed(c, Orphans(c.providers, entries, source.url));
      ImportAllKeepsWellFormed(RemoveMany(c, Orphans(c.providers, entries, source.url)), entries, source);
    case RemoveRegistry(provider) => RemoveIsRemoveMany(c, provider);
  }

  /** Every finite sequence of edits keeps the configuration well formed. */
  lemma {:induction false} EditsKeepWellFormed(c: Config, edits: seq<Edit>)
    requires WellFormed(c) && forall i :: 0 <= i < |edits| ==> Permitted(edits[i])
    ensures WellFormed(PerformAll(c, edits))
  {
    if edits != [] {
      EditsKeepWellFormed(c, edits[..|edits| - 1]);
      EditKeepsWellFormed(PerformAll(c, edits[..|edits| - 1]), edits[|edits| - 1]);
    }
  }
}
