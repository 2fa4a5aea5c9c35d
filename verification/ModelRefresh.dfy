/** One refresh of a provider's models from its remote catalogue: the managed provider and the open platforms. */
module ModelRefresh {
  import opened Wrappers
  import opened ProviderConfig
  import opened ProviderRuns
  import CredentialSlot

  // ---------- The steps ----------

  predicate Generated(key: string, a: Alias, provider: string, prefix: string) {
    a.provider == provider && prefix <= key
  }

  /** The aliases a refresh answers for. */
  function RefreshedKeys(before: Config, next: Config, provider: string, prefix: string): set<string> {
    (set k | k in before.models && Generated(k, before.models[k], provider, prefix)) + Owned(next.models, provider)
  }

  /** The provider's other aliases: the user's own. */
  function UserAliases(c: Config, provider: string, refreshed: set<string>): map<string, Alias> {
    map k | k in c.models && c.models[k].provider == provider && k !in refreshed :: c.models[k]
  }

  function RestoreDefault(c: Config, model: Option<string>, thinking: Option<bool>): Config {
    if model.None? || model.value !in c.models then c
    else c.(defaultModel := model,
            defaultThinking := if AlwaysThinks(c.models[model.value].capabilities) then Some(true) else thinking)
  }

  function ClampDefault(c: Config): Config {
    if c.defaultModel.Some? && c.defaultModel.value !in c.models then c.(defaultModel := None, defaultThinking := None)
    else c
  }

  function ClearThinking(c: Config, previous: Option<string>): Config {
    if previous.Some? && c.defaultModel.None? then c.(defaultThinking := None) else c
  }

  /** The default of a refreshed configuration: the previous one if its alias is still there, never a dangling one. */
  function WithDefault(c: Config, next: Config): Config {
    ClearThinking(ClampDefault(RestoreDefault(next, c.defaultModel, c.defaultThinking)), c.defaultModel)
  }

  function WithUserAliases(c: Config, applied: Config, provider: string, prefix: string): Config {
    applied.(models := applied.models + UserAliases(c, provider, RefreshedKeys(c, applied, provider, prefix)))
  }

  /** What a refresh does to the outcome `applied` of applying the catalogue to a copy of `c`. */
  function Settle(c: Config, applied: Config, provider: string, prefix: string): Config {
    WithDefault(c, WithUserAliases(c, applied, provider, prefix))
  }

  function RefreshManaged(c: Config, models: seq<ModelInfo>, login: Login): Config
    requires Usable(models)
  {
    Settle(c, ApplyManaged(c, models, login, true), MANAGED, MANAGED_PREFIX)
  }

  /** The first model of a catalogue with an id. */
  function FindModel(models: seq<ModelInfo>, id: string): Option<ModelInfo> {
    if models == [] then None else if models[0].id == id then Some(models[0]) else FindModel(models[1..], id)
  }

  function PickDefault(c: Config, provider: string, models: seq<ModelInfo>): ModelInfo
    requires models != []
  {
    var current := if c.defaultModel.Some? then Get(c.models, c.defaultModel.value) else None;
    if current.Some? && current.value.provider == provider then FindModel(models, current.value.model).GetOr(models[0])
    else models[0]
  }

  function RefreshOpen(c: Config, platform: string, models: seq<ModelInfo>, entry: Provider): Config
    requires models != []
  {
    Settle(c, ApplyOpen(c, platform, models, PickDefault(c, platform, models), false, entry), platform, platform + "/")
  }

  datatype Outcome = Unchanged | Changed(added: nat, removed: nat)

  function NormalCapabilities(a: Alias): Option<multiset<string>> {
    if a.capabilities.Some? then Some(multiset(a.capabilities.value)) else None
  }

  /** Equal up to the order of the capabilities. */
  predicate SameAlias(a: Alias, b: Alias) {
    a.(capabilities := None) == b.(capabilities := None) && NormalCapabilities(a) == NormalCapabilities(b)
  }

  predicate SameEntry(before: Config, next: Config, provider: string, key: string) {
    var a := key in before.models && before.models[key].provider == provider;
    var b := key in next.models && next.models[key].provider == provider;
    a == b && (a ==> SameAlias(before.models[key], next.models[key]))
  }

  ghost predicate ModelsEqual(before: Config, next: Config, provider: string, keys: set<string>) {
    forall k :: k in keys ==> SameEntry(before, next, provider, k)
  }

  function ModelIds(c: Config, keys: set<string>): set<string> {
    set k | k in keys && k in c.models && c.models[k].model != "" :: c.models[k].model
  }

  ghost predicate Reports(o: Outcome, before: Config, next: Config, provider: string, keys: set<string>) {
    var gone, come := ModelIds(before, keys) - ModelIds(next, keys), ModelIds(next, keys) - ModelIds(before, keys);
    if ModelsEqual(before, next, provider, keys) then o == Unchanged
    else o == Changed(|come|, |gone|)
  }

  // ---------- The refresh as it runs ----------

  lemma CountOneMore(seen: set<string>, others: set<string>, id: string)
    requires id !in seen
    ensures |(seen + {id}) - others| == |seen - others| + if id in others then 0 else 1
  {
    assert (seen + {id}) - others == (seen - others) + (if id in others then {} else {id});
  }

  method CountMissing(from: set<string>, others: set<string>) returns (n: nat)
    ensures n == |from - others|
  {
    n := 0;
    var rest := from;
    ghost var seen: set<string> := {};
    while rest != {}
      invariant seen + rest == from && seen !! rest
      invariant n == |seen - others|
    {
      var id :| id in rest;
      CountOneMore(seen, others, id);
      rest, seen := rest - {id}, seen + {id};
      if id !in others { n := n + 1; }
    }
    assert seen == from;
  }

  /** `computeChanges`: what was added less what was removed is what the catalogue grew by. */
  method ComputeChanges(oldIds: set<string>, newIds: set<string>) returns (added: nat, removed: nat)
    ensures added == |newIds - oldIds| && removed == |oldIds - newIds|
    ensures |oldIds| + added == |newIds| + removed
  {
    added := CountMissing(newIds, oldIds);
    removed := CountMissing(oldIds, newIds);
    assert oldIds == (oldIds - newIds) + (oldIds * newIds);
    assert newIds == (newIds - oldIds) + (oldIds * newIds);
  }

  method ReportChange(before: Config, next: Config, provider: string, keys: set<string>) returns (o: Outcome)
    ensures Reports(o, before, next, provider, keys)
  {
    var same := true;
    var rest := keys;
    while rest != {}
      invariant rest <= keys
      invariant same <==> forall k :: k in keys - rest ==> SameEntry(before, next, provider, k)
    {
      var k :| k in rest;
      assert keys - (rest - {k}) == (keys - rest) + {k};
      rest := rest - {k};
      same := same && SameEntry(before, next, provider, k);
    }
    assert keys - {} == keys;
    if same { return Unchanged; }
    var added, removed := ComputeChanges(ModelIds(before, keys), ModelIds(next, keys));
    return Changed(added, removed);
  }

  method SettleDefault(c: Config, next: Store)
    modifies next
    ensures next.View() == WithDefault(c, old(next.View()))
  {
    if c.defaultModel.Some? && c.defaultModel.value in next.models {
      next.defaultModel := c.defaultModel;
      next.defaultThinking := if AlwaysThinks(next.models[c.defaultModel.value].capabilities) then Some(true)
                              else c.defaultThinking;
    }
    if next.defaultModel.Some? && next.defaultModel.value !in next.models {
      next.defaultModel, next.defaultThinking := None, None;
    }
    if c.defaultModel.Some? && next.defaultModel.None? { next.defaultThinking := None; }
  }

  method RestoreUserAliases(c: Config, next: Store, provider: string, prefix: string) returns (keys: set<string>)
    modifies next`models
    ensures keys == RefreshedKeys(c, old(next.View()), provider, prefix)
    ensures next.View() == WithUserAliases(c, old(next.View()), provider, prefix)
  {
    keys := (set k | k in c.models && Generated(k, c.models[k], provider, prefix)) + Owned(next.models, provider);
    var preserved := map k | k in c.models && c.models[k].provider == provider && k !in keys :: c.models[k];
    if preserved != map[] { next.models := next.models + preserved; }
  }

  method SettleStore(c: Config, next: Store, provider: string, prefix: string) returns (keys: set<string>)
    modifies next
    ensures keys == RefreshedKeys(c, old(next.View()), provider, prefix)
    ensures next.View() == Settle(c, old(next.View()), provider, prefix)
  {
    keys := RestoreUserAliases(c, next, provider, prefix);
    SettleDefault(c, next);
  }

  /** The managed provider as the refresh needs it: configured, and with a credential. */
  predicate Refreshable(c: Config) {
    MANAGED in c.providers && c.providers[MANAGED].kind == "kimi" && c.providers[MANAGED].oauth.Some?
  }

  /** What the runtime resolves from the configuration is what the refresh logs in with. */
  function RefreshLogin(c: Config, env: CredentialSlot.Env, digest: CredentialSlot.Digest): Login
    requires Refreshable(c)
  {
    var p := c.providers[MANAGED];
    var auth := CredentialSlot.ResolveRuntimeAuth(env, digest, p.baseUrl, p.oauth);
    Login(env, digest, auth.baseUrl, Some(auth.oauthRef.key), auth.oauthRef.oauthHost)
  }

  /** The managed branch; without a credential, or with a catalogue it cannot use, there is nothing to write. */
  method RefreshManagedProvider(c: Config, env: CredentialSlot.Env, digest: CredentialSlot.Digest,
                                models: seq<ModelInfo>)
    returns (next: Option<Config>, o: Outcome)
    ensures next.Some? <==> Refreshable(c) && Usable(models)
    ensures next.Some? ==> next.value == RefreshManaged(c, models, RefreshLogin(c, env, digest))
    ensures next.Some? ==>
              Reports(o, c, next.value, MANAGED,
                      RefreshedKeys(c, ApplyManaged(c, models, RefreshLogin(c, env, digest), true), MANAGED,
                                    MANAGED_PREFIX))
  {
    if !Refreshable(c) { return None, Unchanged; }
    var store := new Store(c);
    var ok := store.ApplyManagedConfig(models, RefreshLogin(c, env, digest), true);
    if !ok { return None, Unchanged; }
    var keys := SettleStore(c, store, MANAGED, MANAGED_PREFIX);
    var result := store.Snapshot();
    o := ReportChange(c, result, MANAGED, keys);
    return Some(result), o;
  }

  lemma SettleKeepsProviders(c: Config, applied: Config, provider: string, prefix: string)
    ensures Settle(c, applied, provider, prefix).providers == applied.providers
  {
  }

  /** The provider entry after a refresh leads to the credential that the refresh used. */
  lemma RefreshKeepsCredential(c: Config, env: CredentialSlot.Env, digest: CredentialSlot.Digest,
                               models: seq<ModelInfo>)
    requires Refreshable(c) && Usable(models)
    requires env.Overrides() || CredentialSlot.Settled(CredentialSlot.RuntimeHost(env, c.providers[MANAGED].oauth))
    ensures var next := RefreshManaged(c, models, RefreshLogin(c, env, digest));
            Refreshable(next) && RefreshLogin(next, env, digest).oauthKey == RefreshLogin(c, env, digest).oauthKey
  {
    var p, login := c.providers[MANAGED], RefreshLogin(c, env, digest);
    CredentialSlot.RefreshKeepsSlot(env, digest, p.baseUrl, p.oauth);
    EntryHoldsLogin(c.providers, login);
    SettleKeepsProviders(c, ApplyManaged(c, models, login, true), MANAGED, MANAGED_PREFIX);
    assert RefreshManaged(c, models, login).providers[MANAGED] == ManagedEntry(c.providers, login);
    var auth := CredentialSlot.ResolveRuntimeAuth(env, digest, p.baseUrl, p.oauth);
    assert LoginRef(login) == CredentialSlot.RefreshedRef(auth);
  }

  /** The configuration that a login provisions leads the runtime to the login's own credential. */
  lemma LoginIsFoundAgain(c: Config, env: CredentialSlot.Env, digest: CredentialSlot.Digest, models: seq<ModelInfo>,
                          preserve: bool, requestedBaseUrl: Option<string>, requestedHost: Option<string>)
    requires Usable(models) && (env.Overrides() ==> requestedBaseUrl.None? && requestedHost.None?)
    ensures var p := if MANAGED in c.providers then Some(c.providers[MANAGED]) else None;
            var auth := CredentialSlot.ResolveLoginAuth(env, digest, if p.Some? then p.value.baseUrl else None,
                                                        if p.Some? then p.value.oauth else None, requestedBaseUrl,
                                                        requestedHost);
            var key, host := CredentialSlot.LoginKey(env, digest, auth), CredentialSlot.LoginHost(env, auth);
            var next := ApplyManaged(c, models, Login(env, digest, auth.baseUrl, Some(key), Some(host)), preserve);
            Refreshable(next)
            && (env.Overrides() || CredentialSlot.Settled(host) ==>
                  RefreshLogin(next, env, digest).oauthKey == Some(key))
  {
    var p := if MANAGED in c.providers then Some(c.providers[MANAGED]) else None;
    var baseUrl, ref := if p.Some? then p.value.baseUrl else None, if p.Some? then p.value.oauth else None;
    var auth := CredentialSlot.ResolveLoginAuth(env, digest, baseUrl, ref, requestedBaseUrl, requestedHost);
    var login := Login(env, digest, auth.baseUrl, Some(CredentialSlot.LoginKey(env, digest, auth)),
                       Some(CredentialSlot.LoginHost(env, auth)));
    CredentialSlot.LoginSlotIsRuntimeSlot(env, digest, baseUrl, ref, requestedBaseUrl, requestedHost);
    EntryHoldsLogin(c.providers, login);
    assert LoginRef(login) == CredentialSlot.ProvisionedRef(env, digest, auth);
    assert LoginBaseUrl(login) == CredentialSlot.ProvisionedBaseUrl(env, auth);
  }

  method PickDefaultModel(c: Config, provider: string, models: seq<ModelInfo>) returns (m: ModelInfo)
    requires models != []
    ensures m == PickDefault(c, provider, models) && m in models
  {
    m := models[0];
    if c.defaultModel.Some? && c.defaultModel.value in c.models && c.models[c.defaultModel.value].provider == provider {
      var id := c.models[c.defaultModel.value].model;
      for i := 0 to |models|
        invariant FindModel(models, id) == FindModel(models[i..], id)
      {
        assert models[i..][0] == models[i] && models[i..][1..] == models[i + 1..];
        if models[i].id == id { return models[i]; }
      }
    }
  }

  /** The open-platform branch; an empty catalogue is skipped. */
  method RefreshOpenPlatform(c: Config, platform: string, models: seq<ModelInfo>, entry: Provider)
    returns (next: Option<Config>, o: Outcome)
    ensures next.Some? <==> models != []
    ensures next.Some? ==> next.value == RefreshOpen(c, platform, models, entry)
    ensures next.Some? ==>
              Reports(o, c, next.value, platform,
                      RefreshedKeys(c, ApplyOpen(c, platform, models, PickDefault(c, platform, models), false, entry),
                                    platform, platform + "/"))
  {
    if models == [] { return None, Unchanged; }
    var selected := PickDefaultModel(c, platform, models);
    var store := new Store(c);
    store.ApplyOpenConfig(platform, models, selected, false, entry);
    var keys := SettleStore(c, store, platform, platform + "/");
    var result := store.Snapshot();
    o := ReportChange(c, result, platform, keys);
    return Some(result), o;
  }

  // ---------- What a refresh leaves, alias by alias ----------

  ghost predicate Catalogue(entries: seq<Entry>, provider: string, prefix: string) {
    AllFor(entries, provider) && forall e :: e in entries ==> prefix <= e.key
  }

  /** Applying a catalogue, whatever default it selects. */
  ghost predicate Applies(c: Config, applied: Config, provider: string, entries: seq<Entry>) {
    && applied.models == Replace(c.models, provider, entries)
    && applied.defaultModel.Some? && applied.defaultModel.value in applied.models
  }

  /**
   * The independent description: what the catalogue lists is patched, the other generated aliases of the
   * provider are gone, and everything else is as it was.
   */
  function Expected(models: map<string, Alias>, provider: string, prefix: string, entries: seq<Entry>, key: string)
    : Option<Alias>
  {
    match PatchFor(entries, key)
    case Some(p) => Some(Spread(Get(models, key), p))
    case None =>
      if key in models && !Generated(key, models[key], provider, prefix) then Some(models[key]) else None
  }

  lemma SettledModels(c: Config, applied: Config, provider: string, prefix: string, entries: seq<Entry>, key: string)
    requires Applies(c, applied, provider, entries) && Catalogue(entries, provider, prefix)
    ensures Get(Settle(c, applied, provider, prefix).models, key)
         == Expected(c.models, provider, prefix, entries, key)
  {
    ReplaceAt(c.models, provider, entries, key);
    ListedKeysHavePrefix(entries, provider, prefix, key);
    var refreshed := RefreshedKeys(c, applied, provider, prefix);
    SettleAt(c, applied, provider, prefix, key);
    assert Get(applied.models, key).Some? <==> key in applied.models;
    assert key in refreshed <==>
           (key in c.models && Generated(key, c.models[key], provider, prefix))
           || (key in applied.models && applied.models[key].provider == provider);
  }

  lemma ListedKeysHavePrefix(entries: seq<Entry>, provider: string, prefix: string, key: string)
    requires Catalogue(entries, provider, prefix)
    ensures PatchFor(entries, key).Some? ==> prefix <= key && PatchFor(entries, key).value.provider == provider
  {
    PatchAllAt(map[], entries, key);
    PatchForProvider(entries, provider, key);
  }

  /** Restoring the user's aliases, one alias at a time. */
  lemma SettleAt(c: Config, applied: Config, provider: string, prefix: string, key: string)
    ensures Get(Settle(c, applied, provider, prefix).models, key)
         == if key in c.models && c.models[key].provider == provider
               && key !in RefreshedKeys(c, applied, provider, prefix)
            then Some(c.models[key]) else Get(applied.models, key)
  {
  }

  /** The default after a refresh: the previous one if its alias survives, and an existing one in any case. */
  lemma SettledDefault(c: Config, applied: Config, provider: string, prefix: string, entries: seq<Entry>)
    requires Applies(c, applied, provider, entries)
    ensures var next := Settle(c, applied, provider, prefix);
            && HasDefault(next)
            && next.defaultModel == (if c.defaultModel.Some? && c.defaultModel.value in next.models then c.defaultModel
                                     else applied.defaultModel)
            && next.defaultThinking
               == (if c.defaultModel.Some? && c.defaultModel.value in next.models then
                     if AlwaysThinks(next.models[c.defaultModel.value].capabilities) then Some(true)
                     else c.defaultThinking
                   else applied.defaultThinking)
  {
  }

  lemma ManagedApplies(c: Config, models: seq<ModelInfo>, login: Login)
    requires Usable(models)
    ensures Applies(c, ApplyManaged(c, models, login, true), MANAGED, ManagedEntries(models))
    ensures Catalogue(ManagedEntries(models), MANAGED, MANAGED_PREFIX)
  {
    SelectedDefaultExists(c, models, true);
  }

  lemma {:induction false} FindModelIsListed(models: seq<ModelInfo>, id: string)
    ensures FindModel(models, id).Some? ==> FindModel(models, id).value in models
  {
    if models != [] { FindModelIsListed(models[1..], id); }
  }

  lemma OpenApplies(c: Config, platform: string, models: seq<ModelInfo>, entry: Provider)
    requires models != []
    ensures Applies(c, ApplyOpen(c, platform, models, PickDefault(c, platform, models), false, entry), platform,
                    OpenEntries(platform, models))
    ensures Catalogue(OpenEntries(platform, models), platform, platform + "/")
  {
    var m := PickDefault(c, platform, models);
    PickedIsListed(c, platform, models);
    var i :| 0 <= i < |models| && models[i] == m;
    EntryIsWritten(c.models, platform, OpenEntries(platform, models), i);
  }

  lemma ManagedRefreshExpected(c: Config, models: seq<ModelInfo>, login: Login)
    requires Usable(models)
    ensures var next := RefreshManaged(c, models, login);
            && (forall key :: Get(next.models, key)
                              == Expected(c.models, MANAGED, MANAGED_PREFIX, ManagedEntries(models), key))
            && HasDefault(next)
            && (c.defaultModel.Some? && c.defaultModel.value in next.models ==> next.defaultModel == c.defaultModel)
  {
    var applied := ApplyManaged(c, models, login, true);
    ManagedApplies(c, models, login);
    forall key ensures Get(RefreshManaged(c, models, login).models, key)
                    == Expected(c.models, MANAGED, MANAGED_PREFIX, ManagedEntries(models), key)
    {
      SettledModels(c, applied, MANAGED, MANAGED_PREFIX, ManagedEntries(models), key);
    }
    SettledDefault(c, applied, MANAGED, MANAGED_PREFIX, ManagedEntries(models));
  }

  lemma OpenRefreshExpected(c: Config, platform: string, models: seq<ModelInfo>, entry: Provider)
    requires models != []
    ensures var next := RefreshOpen(c, platform, models, entry);
            && (forall key :: Get(next.models, key)
                              == Expected(c.models, platform, platform + "/", OpenEntries(platform, models), key))
            && HasDefault(next)
            && (c.defaultModel.Some? && c.defaultModel.value in next.models ==> next.defaultModel == c.defaultModel)
  {
    var applied := ApplyOpen(c, platform, models, PickDefault(c, platform, models), false, entry);
    OpenApplies(c, platform, models, entry);
    forall key ensures Get(RefreshOpen(c, platform, models, entry).models, key)
                    == Expected(c.models, platform, platform + "/", OpenEntries(platform, models), key)
    {
      SettledModels(c, applied, platform, platform + "/", OpenEntries(platform, models), key);
    }
    SettledDefault(c, applied, platform, platform + "/", OpenEntries(platform, models));
  }

  /**
   * A managed refresh, alias by alias: the listed ones as the catalogue says, the other generated ones of the provider
   * gone, and everything else, the user's own aliases of the provider too, as it was. The default is the previous one
   * if that is still there, and else the first model.
   */
  lemma ManagedRefreshModels(c: Config, models: seq<ModelInfo>, login: Login, key: string)
    requires Usable(models)
    ensures var next := RefreshManaged(c, models, login);
            && Get(next.models, key)
               == (if LastWithKey(models, "kimi-code/", key).Some? then
                     Some(ManagedAlias(Get(c.models, key), models, key))
                   else if key in c.models
                           && !(c.models[key].provider == "managed:kimi-code" && "kimi-code/" <= key)
                   then Some(c.models[key])
                   else None)
            && next.defaultModel
               == (if c.defaultModel.Some? && c.defaultModel.value in next.models then c.defaultModel
                   else Some("kimi-code/" + models[0].id))
            && next.defaultModel.value in next.models
  {
    var next, applied := RefreshManaged(c, models, login), ApplyManaged(c, models, login, true);
    ManagedRefreshExpected(c, models, login);
    ManagedSpread(Get(c.models, key), models, key);
    ManagedApplies(c, models, login);
    SettledDefault(c, applied, MANAGED, MANAGED_PREFIX, ManagedEntries(models));
    assert Get(next.models, key) == Expected(c.models, MANAGED, MANAGED_PREFIX, ManagedEntries(models), key);
    if CanPreserve(c, models) { PreservedStays(c, models, login); }
  }

  lemma PreservedStays(c: Config, models: seq<ModelInfo>, login: Login)
    requires Usable(models) && CanPreserve(c, models)
    ensures c.defaultModel.value in RefreshManaged(c, models, login).models
  {
    var next, d := RefreshManaged(c, models, login), c.defaultModel.value;
    ManagedRefreshExpected(c, models, login);
    ManagedSpread(Get(c.models, d), models, d);
    assert Get(next.models, d) == Expected(c.models, MANAGED, MANAGED_PREFIX, ManagedEntries(models), d);
  }

  /** The same for an open platform, whose new default is the picked model. */
  lemma OpenRefreshModels(c: Config, platform: string, models: seq<ModelInfo>, entry: Provider, key: string)
    requires models != []
    ensures var next := RefreshOpen(c, platform, models, entry);
            && Get(next.models, key)
               == (if LastWithKey(models, platform + "/", key).Some? then
                     Some(OpenAlias(Get(c.models, key), platform, models, key))
                   else if key in c.models && !(c.models[key].provider == platform && platform + "/" <= key) then
                     Some(c.models[key])
                   else None)
            && next.defaultModel
               == (if c.defaultModel.Some? && c.defaultModel.value in next.models then c.defaultModel
                   else Some(platform + "/" + PickDefault(c, platform, models).id))
            && next.defaultModel.value in next.models
  {
    var next := RefreshOpen(c, platform, models, entry);
    OpenRefreshExpected(c, platform, models, entry);
    OpenSpread(Get(c.models, key), platform, models, key);
    OpenApplies(c, platform, models, entry);
    SettledDefault(c, ApplyOpen(c, platform, models, PickDefault(c, platform, models), false, entry), platform,
                   platform + "/", OpenEntries(platform, models));
    assert Get(next.models, key) == Expected(c.models, platform, platform + "/", OpenEntries(platform, models), key);
  }

  /** The picked model: the first that the default's alias stands for, if it is this provider's, or else the first. */
  lemma PickedDefaultSays(c: Config, provider: string, models: seq<ModelInfo>) returns (i: nat)
    requires models != []
    ensures i < |models| && PickDefault(c, provider, models) == models[i]
    ensures var id := if c.defaultModel.Some? && c.defaultModel.value in c.models
                         && c.models[c.defaultModel.value].provider == provider
                      then Some(c.models[c.defaultModel.value].model) else None;
            (forall j :: 0 <= j < i ==> id != Some(models[j].id))
            && (id == Some(models[i].id)
                || (i == 0 && forall j :: 0 <= j < |models| ==> id != Some(models[j].id)))
  {
    i := 0;
    if c.defaultModel.Some? && c.defaultModel.value in c.models
       && c.models[c.defaultModel.value].provider == provider {
      i := FirstWithId(models, c.models[c.defaultModel.value].model);
    }
  }

  lemma {:induction false} FirstWithId(models: seq<ModelInfo>, id: string) returns (i: nat)
    requires models != []
    ensures i < |models| && FindModel(models, id).GetOr(models[0]) == models[i]
    ensures forall j :: 0 <= j < i ==> models[j].id != id
    ensures models[i].id == id
            || (i == 0 && FindModel(models, id).None? && forall j :: 0 <= j < |models| ==> models[j].id != id)
  {
    i := 0;
    if models[0].id != id && |models| > 1 {
      var k := FirstWithId(models[1..], id);
      if models[1..][k].id == id { i := k + 1; }
      assert forall j :: 1 <= j < |models| ==> models[j] == models[1..][j - 1];
    }
  }

  /** The model ids that a report counts. */
  lemma ModelIdsSay(c: Config, keys: set<string>, id: string)
    ensures id in ModelIds(c, keys) <==> id != "" && exists k :: k in keys && k in c.models && c.models[k].model == id
  {
  }

  /** The user's own aliases of the provider come through unchanged. */
  lemma UserAliasesSurvive(c: Config, applied: Config, provider: string, prefix: string, entries: seq<Entry>,
                           key: string)
    requires Applies(c, applied, provider, entries) && Catalogue(entries, provider, prefix)
    requires key in c.models && !(prefix <= key)
    ensures Get(Settle(c, applied, provider, prefix).models, key) == Some(c.models[key])
  {
    SettledModels(c, applied, provider, prefix, entries, key);
    PatchAllAt(c.models, entries, key);
  }

  // ---------- Refreshing again ----------

  predicate Kept(c: Config, next: Config) {
    c.defaultModel.Some? && c.defaultModel.value in next.models
  }

  /** The default ends on a model that cannot stop thinking, with thinking not on. */
  predicate ThinkingLost(next: Config) {
    HasDefault(next) && AlwaysThinks(next.models[next.defaultModel.value].capabilities)
    && next.defaultThinking != Some(true)
  }

  predicate HasDefault(c: Config) {
    c.defaultModel.Some? && c.defaultModel.value in c.models
  }

  lemma ExpectedTwice(models: map<string, Alias>, once: map<string, Alias>, provider: string, prefix: string,
                      entries: seq<Entry>, key: string)
    requires Catalogue(entries, provider, prefix)
    requires Get(once, key) == Expected(models, provider, prefix, entries, key)
    ensures Expected(once, provider, prefix, entries, key) == Get(once, key)
  {
    PatchForProvider(entries, provider, key);
  }

  lemma SameModels(a: map<string, Alias>, b: map<string, Alias>)
    requires forall key :: Get(a, key) == Get(b, key)
    ensures a == b
  {
    forall key ensures key in a <==> key in b { assert Get(a, key) == Get(b, key); }
    forall key | key in a ensures a[key] == b[key] { assert Get(a, key) == Get(b, key); }
  }

  /** A refresh that changes no alias keeps the default, and switches thinking on where it had been lost. */
  lemma SameModelsKeepDefault(once: Config, applied: Config, provider: string, prefix: string)
    requires HasDefault(once) && Settle(once, applied, provider, prefix).models == once.models
    ensures var twice := Settle(once, applied, provider, prefix);
            && twice.defaultModel == once.defaultModel
            && twice.defaultThinking == if ThinkingLost(once) then Some(true) else once.defaultThinking
  {
    var restored := WithUserAliases(once, applied, provider, prefix);
    assert RestoreDefault(restored, once.defaultModel, once.defaultThinking).defaultModel == once.defaultModel;
  }

  /**
   * A second managed refresh with the same catalogue is reported as no change: models and default stay. Thinking
   * stays too, unless the first refresh had lost it; then it is switched on.
   */
  lemma ManagedRefreshTwice(c: Config, models: seq<ModelInfo>, login: Login, keys: set<string>)
    requires Usable(models)
    ensures var once := RefreshManaged(c, models, login);
            var twice := RefreshManaged(once, models, login);
            && twice.models == once.models && twice.defaultModel == once.defaultModel
            && ModelsEqual(once, twice, MANAGED, keys)
            && HasDefault(once)
            && twice.defaultThinking == if ThinkingLost(once) then Some(true) else once.defaultThinking
  {
    var once := RefreshManaged(c, models, login);
    var twice := RefreshManaged(once, models, login);
    ManagedRefreshExpected(c, models, login);
    ManagedRefreshExpected(once, models, login);
    ManagedApplies(c, models, login);
    forall key ensures Get(twice.models, key) == Get(once.models, key) {
      ExpectedTwice(c.models, once.models, MANAGED, MANAGED_PREFIX, ManagedEntries(models), key);
    }
    SameModels(twice.models, once.models);
    SameModelsKeepDefault(once, ApplyManaged(once, models, login, true), MANAGED, MANAGED_PREFIX);
  }

  lemma OpenRefreshTwice(c: Config, platform: string, models: seq<ModelInfo>, entry: Provider, keys: set<string>)
    requires models != []
    ensures var once := RefreshOpen(c, platform, models, entry);
            var twice := RefreshOpen(once, platform, models, entry);
            && twice.models == once.models && twice.defaultModel == once.defaultModel
            && ModelsEqual(once, twice, platform, keys)
            && HasDefault(once)
            && twice.defaultThinking == if ThinkingLost(once) then Some(true) else once.defaultThinking
  {
    var once := RefreshOpen(c, platform, models, entry);
    var twice := RefreshOpen(once, platform, models, entry);
    OpenRefreshExpected(c, platform, models, entry);
    OpenRefreshExpected(once, platform, models, entry);
    OpenApplies(c, platform, models, entry);
    forall key ensures Get(twice.models, key) == Get(once.models, key) {
      ExpectedTwice(c.models, once.models, platform, platform + "/", OpenEntries(platform, models), key);
    }
    SameModels(twice.models, once.models);
    SameModelsKeepDefault(once, ApplyOpen(once, platform, models, PickDefault(once, platform, models), false, entry),
                          platform, platform + "/");
  }

  /** The same alias but for the order of its capabilities, or none on either side. */
  predicate SameButOrder(a: Option<Alias>, b: Option<Alias>) {
    match (a, b)
    case (None, None) => true
    case (Some(x), Some(y)) =>
      && x.provider == y.provider && x.model == y.model && x.maxContextSize == y.maxContextSize
      && x.supportEfforts == y.supportEfforts && x.defaultEffort == y.defaultEffort && x.displayName == y.displayName
      && x.protocol == y.protocol && x.extras == y.extras && x.capabilities.Some? == y.capabilities.Some?
      && (x.capabilities.Some? ==> multiset(x.capabilities.value) == multiset(y.capabilities.value))
    case (_, _) => false
  }

  /** A refresh reports no change exactly when no alias differs in more than the order of its capabilities. */
  lemma UnchangedMeansUnchanged(c: Config, applied: Config, provider: string, prefix: string, entries: seq<Entry>,
                                o: Outcome)
    requires Applies(c, applied, provider, entries) && Catalogue(entries, provider, prefix)
    requires Reports(o, c, Settle(c, applied, provider, prefix), provider, RefreshedKeys(c, applied, provider, prefix))
    ensures o == Unchanged <==>
              forall key :: SameButOrder(Get(c.models, key), Get(Settle(c, applied, provider, prefix).models, key))
  {
    var next, refreshed := Settle(c, applied, provider, prefix), RefreshedKeys(c, applied, provider, prefix);
    if o == Unchanged {
      forall key ensures SameButOrder(Get(c.models, key), Get(next.models, key)) {
        UnchangedAt(c, applied, provider, prefix, entries, key);
      }
    } else {
      assert !ModelsEqual(c, next, provider, refreshed);
      var key :| key in refreshed && !SameEntry(c, next, provider, key);
      assert !SameButOrder(Get(c.models, key), Get(next.models, key));
    }
  }

  lemma UnchangedAt(c: Config, applied: Config, provider: string, prefix: string, entries: seq<Entry>, key: string)
    requires Applies(c, applied, provider, entries) && Catalogue(entries, provider, prefix)
    requires ModelsEqual(c, Settle(c, applied, provider, prefix), provider, RefreshedKeys(c, applied, provider, prefix))
    ensures SameButOrder(Get(c.models, key), Get(Settle(c, applied, provider, prefix).models, key))
  {
    var next, refreshed := Settle(c, applied, provider, prefix), RefreshedKeys(c, applied, provider, prefix);
    SettledModels(c, applied, provider, prefix, entries, key);
    ReplaceAt(c.models, provider, entries, key);
    PatchForProvider(entries, provider, key);
    assert key in refreshed ==> SameEntry(c, next, provider, key);
    if PatchFor(entries, key).Some? {
      assert Get(applied.models, key).Some? && key in refreshed;
    }
  }

  // ---------- Thinking ----------

  /** Entries that carry, under one prefix, the capabilities of a catalogue. */
  ghost predicate Carry(entries: seq<Entry>, models: seq<ModelInfo>, prefix: string) {
    |entries| == |models| && forall i :: 0 <= i < |models| ==>
      entries[i].key == prefix + models[i].id && entries[i].patch.capabilities == Capabilities(models[i])
  }

  lemma {:induction false} CapabilitiesFor(entries: seq<Entry>, models: seq<ModelInfo>, prefix: string, key: string)
    requires Carry(entries, models, prefix)
    ensures LastWithKey(models, prefix, key).Some? == PatchFor(entries, key).Some?
    ensures LastWithKey(models, prefix, key).Some? ==>
              PatchFor(entries, key).value.capabilities == Capabilities(LastWithKey(models, prefix, key).value)
  {
    if models != [] { CapabilitiesFor(entries[..|models| - 1], models[..|models| - 1], prefix, key); }
  }

  /** The previous default survives a refresh: the catalogue lists it, or it is not one of its generated aliases. */
  predicate Survives(c: Config, provider: string, prefix: string, models: seq<ModelInfo>) {
    && c.defaultModel.Some?
    && var d := c.defaultModel.value;
       LastWithKey(models, prefix, d).Some? || (d in c.models && !Generated(d, c.models[d], provider, prefix))
  }

  lemma SurvivesIsKept(c: Config, next: Config, provider: string, prefix: string, entries: seq<Entry>,
                       models: seq<ModelInfo>)
    requires Carry(entries, models, prefix)
    requires forall key :: Get(next.models, key) == Expected(c.models, provider, prefix, entries, key)
    ensures Kept(c, next) <==> Survives(c, provider, prefix, models)
  {
    if c.defaultModel.Some? {
      var d := c.defaultModel.value;
      CapabilitiesFor(entries, models, prefix, d);
      assert Get(next.models, d) == Expected(c.models, provider, prefix, entries, d);
    }
  }

  /** Whether the model a catalogue lists last under a key cannot stop thinking. */
  predicate LastThinksOnly(models: seq<ModelInfo>, prefix: string, key: string) {
    var last := LastWithKey(models, prefix, key);
    last.Some? && last.value.thinking == Some(Only)
  }

  lemma ListedAliasThinks(c: Config, next: Config, provider: string, prefix: string, entries: seq<Entry>,
                          models: seq<ModelInfo>, i: nat)
    requires Carry(entries, models, prefix) && i < |models|
    requires forall key :: Get(next.models, key) == Expected(c.models, provider, prefix, entries, key)
    ensures var key := prefix + models[i].id;
            key in next.models
            && (AlwaysThinks(next.models[key].capabilities) <==> LastThinksOnly(models, prefix, key))
  {
    var key := prefix + models[i].id;
    LastWithKeyIsListed(models, prefix, key);
    CapabilitiesFor(entries, models, prefix, key);
    CapabilitiesSay(LastWithKey(models, prefix, key).value);
    assert Get(next.models, key) == Expected(c.models, provider, prefix, entries, key);
  }

  /**
   * A managed refresh leaves an always-thinking default without thinking in exactly one case: the previous default
   * does not survive, and the catalogue lists its first model's id again, the last time as always thinking, while
   * the first entry itself does not force thinking and the configuration does not ask for it.
   */
  lemma ManagedThinkingLostIff(c: Config, models: seq<ModelInfo>, login: Login)
    requires Usable(models)
    ensures HasDefault(RefreshManaged(c, models, login))
    ensures ThinkingLost(RefreshManaged(c, models, login)) <==> LosesManagedThinking(c, models)
  {
    var next, applied := RefreshManaged(c, models, login), ApplyManaged(c, models, login, true);
    var entries := ManagedEntries(models);
    ManagedApplies(c, models, login);
    ManagedRefreshExpected(c, models, login);
    SettledDefault(c, applied, MANAGED, MANAGED_PREFIX, entries);
    SurvivesIsKept(c, next, MANAGED, MANAGED_PREFIX, entries, models);
    ListedAliasThinks(c, next, MANAGED, MANAGED_PREFIX, entries, models, 0);
  }

  predicate LosesManagedThinking(c: Config, models: seq<ModelInfo>)
    requires models != []
  {
    && !Survives(c, MANAGED, MANAGED_PREFIX, models)
    && LastThinksOnly(models, MANAGED_PREFIX, ManagedKey(models[0].id))
    && !ForcedThinking(Some(models[0]), c.defaultThinking.GetOr(models[0].reasoning))
  }

  /** With distinct ids an always-thinking default always ends with thinking on. */
  lemma DistinctIdsKeepThinking(c: Config, models: seq<ModelInfo>, login: Login)
    requires Usable(models)
    requires forall i, j :: 0 <= i < j < |models| ==> models[i].id != models[j].id
    ensures var next := RefreshManaged(c, models, login);
            HasDefault(next) && !ThinkingLost(next)
  {
    ManagedThinkingLostIff(c, models, login);
    LastWithDistinctIds(models, MANAGED_PREFIX, 0);
  }

  lemma {:induction false} LastWithDistinctIds(models: seq<ModelInfo>, prefix: string, i: nat)
    requires i < |models| && forall j :: i < j < |models| ==> models[i].id != models[j].id
    ensures LastWithKey(models, prefix, prefix + models[i].id) == Some(models[i])
  {
    var key := prefix + models[i].id;
    if i < |models| - 1 {
      var last := models[|models| - 1];
      assert models[i].id == key[|prefix|..] && last.id == (prefix + last.id)[|prefix|..];
      LastWithDistinctIds(models[..|models| - 1], prefix, i);
    }
  }

  const NOTHING := Config(map[], map[], None, None, None, None)

  /** Such a catalogue: the same id twice, first as not thinking, then as always thinking. */
  lemma RepeatedIdLosesThinking(m: ModelInfo, login: Login)
    requires m.contextLength > 0
    ensures var models := [m.(thinking := Some(No)), m.(thinking := Some(Only))];
            var next := RefreshManaged(NOTHING, models, login);
            ThinkingLost(next)
  {
    var models := [m.(thinking := Some(No)), m.(thinking := Some(Only))];
    ManagedThinkingLostIff(NOTHING, models, login);
  }

  /**
   * An open-platform refresh leaves an always-thinking default without thinking exactly when the previous default
   * does not survive and the catalogue lists the newly picked model last as always thinking.
   */
  lemma OpenThinkingLostIff(c: Config, platform: string, models: seq<ModelInfo>, entry: Provider)
    requires models != []
    ensures HasDefault(RefreshOpen(c, platform, models, entry))
    ensures ThinkingLost(RefreshOpen(c, platform, models, entry)) <==>
              !Survives(c, platform, platform + "/", models)
              && LastThinksOnly(models, platform + "/", AliasKey(platform, PickDefault(c, platform, models).id))
  {
    var next, m := RefreshOpen(c, platform, models, entry), PickDefault(c, platform, models);
    var entries := OpenEntries(platform, models);
    OpenApplies(c, platform, models, entry);
    OpenRefreshExpected(c, platform, models, entry);
    SettledDefault(c, ApplyOpen(c, platform, models, m, false, entry), platform, platform + "/", entries);
    SurvivesIsKept(c, next, platform, platform + "/", entries, models);
    PickedIsListed(c, platform, models);
    var i :| 0 <= i < |models| && models[i] == m;
    ListedAliasThinks(c, next, platform, platform + "/", entries, models, i);
  }

  lemma PickedIsListed(c: Config, platform: string, models: seq<ModelInfo>)
    requires models != []
    ensures PickDefault(c, platform, models) in models
  {
    if c.defaultModel.Some? && c.defaultModel.value in c.models {
      FindModelIsListed(models, c.models[c.defaultModel.value].model);
    }
  }

  /** Such a refresh: the first one of a platform whose model cannot stop thinking. */
  lemma FirstOpenRefreshLosesThinking(platform: string, m: ModelInfo, entry: Provider)
    requires m.thinking == Some(Only)
    ensures ThinkingLost(RefreshOpen(NOTHING, platform, [m], entry))
  {
    OpenThinkingLostIff(NOTHING, platform, [m], entry);
    assert LastWithKey([m], platform + "/", AliasKey(platform, m.id)) == Some(m);
  }

  lemma ExpectedNamesProviders(c: Config, provider: string, prefix: string, entries: seq<Entry>, key: string)
    requires WellFormed(c) && Catalogue(entries, provider, prefix)
    ensures var a := Expected(c.models, provider, prefix, entries, key);
            a.Some? ==> a.value.provider == provider || a.value.provider in c.providers
  {
    PatchForProvider(entries, provider, key);
  }

  /** Refreshing keeps the configuration well formed. */
  lemma ManagedRefreshKeepsWellFormed(c: Config, models: seq<ModelInfo>, login: Login)
    requires WellFormed(c) && Usable(models)
    ensures WellFormed(RefreshManaged(c, models, login))
  {
    var next := RefreshManaged(c, models, login);
    ManagedRefreshExpected(c, models, login);
    ManagedApplies(c, models, login);
    forall k | k in next.models ensures next.models[k].provider in next.providers {
      assert Get(next.models, k) == Some(next.models[k]);
      ExpectedNamesProviders(c, MANAGED, MANAGED_PREFIX, ManagedEntries(models), k);
    }
  }

  lemma OpenRefreshKeepsWellFormed(c: Config, platform: string, models: seq<ModelInfo>, entry: Provider)
    requires WellFormed(c) && models != []
    ensures WellFormed(RefreshOpen(c, platform, models, entry))
  {
    var next := RefreshOpen(c, platform, models, entry);
    OpenRefreshExpected(c, platform, models, entry);
    OpenApplies(c, platform, models, entry);
    forall k | k in next.models ensures next.models[k].provider in next.providers {
      assert Get(next.models, k) == Some(next.models[k]);
      ExpectedNamesProviders(c, platform, platform + "/", OpenEntries(platform, models), k);
    }
  }
}
