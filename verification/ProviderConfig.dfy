/**
 * The provider configuration and its edits in place: those of the managed provider, of the open platforms and of
 * custom registries.
 */
module ProviderConfig {
  import opened Wrappers
  import CredentialSlot

  const MANAGED := "managed:kimi-code"
  const MANAGED_PREFIX := "kimi-code/"

  // ---------- The configuration ----------

  datatype Source = Source(kind: string, url: string, apiKey: string)

  /** A provider entry. */
  datatype Provider = Provider(kind: string, baseUrl: Option<string>, apiKey: string,
                               oauth: Option<CredentialSlot.RefInput>, oauths: seq<CredentialSlot.RefInput>,
                               source: Option<Source>)

  datatype Service = Service(baseUrl: string, oauth: CredentialSlot.OAuthRef)

  /** The services section; `others` holds the services that none of this code knows. */
  datatype Services = Services(search: Option<Service>, fetch: Option<Service>, others: map<string, string>)

  /** A model alias; `extras` holds the fields that none of this code knows. */
  datatype Alias = Alias(provider: string, model: string, maxContextSize: int, capabilities: Option<seq<string>>,
                         supportEfforts: Option<seq<string>>, defaultEffort: Option<string>,
                         displayName: Option<string>, protocol: Protocol, extras: map<string, string>)

  /** The three fields the managed provider always writes, each possibly undefined. */
  datatype Protocol = Protocol(name: Option<string>, betaApi: Option<bool>, adaptiveThinking: Option<bool>)

  const NO_PROTOCOL := Protocol(None, None, None)

  datatype Config = Config(providers: map<string, Provider>, models: map<string, Alias>, defaultModel: Option<string>,
                           defaultThinking: Option<bool>, defaultProvider: Option<string>,
                           services: Option<Services>)

  function Get(models: map<string, Alias>, key: string): Option<Alias> {
    if key in models then Some(models[key]) else None
  }

  /** Every alias names an existing provider, and the default is unset or an existing alias. */
  ghost predicate WellFormed(c: Config) {
    && (forall k :: k in c.models ==> c.models[k].provider in c.providers)
    && (c.defaultModel.Some? ==> c.defaultModel.value in c.models)
  }

  // ---------- Catalogues ----------

  datatype ThinkingType = Only | No | Both

  datatype ModelInfo = ModelInfo(id: string, contextLength: int, reasoning: bool, imageIn: bool, videoIn: bool,
                                 toolUse: Option<bool>, thinking: Option<ThinkingType>,
                                 efforts: Option<seq<string>>, defaultEffort: Option<string>,
                                 displayName: Option<string>, protocol: Option<string>)

  function ThinkingCapabilities(m: ModelInfo): seq<string> {
    match m.thinking
    case Some(Only) => ["thinking", "always_thinking"]
    case Some(Both) => ["thinking"]
    case Some(No) => []
    case None => Flag(m.reasoning, "thinking")
  }

  function Flag(on: bool, name: string): seq<string> {
    if on then [name] else []
  }

  function Capabilities(m: ModelInfo): Option<seq<string>> {
    var caps := ThinkingCapabilities(m) + Flag(m.imageIn, "image_in") + Flag(m.videoIn, "video_in")
                + Flag(m.toolUse.GetOr(true), "tool_use");
    if caps == [] then None else Some(caps)
  }

  predicate AlwaysThinks(capabilities: Option<seq<string>>) {
    "always_thinking" in capabilities.GetOr([])
  }

  /** What a model is declared to do is what its capabilities list, each once. */
  lemma CapabilitiesSay(m: ModelInfo)
    ensures var caps := Capabilities(m).GetOr([]);
            && (AlwaysThinks(Capabilities(m)) <==> m.thinking == Some(Only))
            && ("thinking" in caps <==> m.thinking in {Some(Only), Some(Both)} || (m.thinking.None? && m.reasoning))
            && ("image_in" in caps <==> m.imageIn) && ("video_in" in caps <==> m.videoIn)
            && ("tool_use" in caps <==> m.toolUse != Some(false))
            && NoRepeats(caps)
  {
    CapabilityNames();
    ThinkingSays(m);
    var a, b, c, d := ThinkingCapabilities(m), Flag(m.imageIn, "image_in"), Flag(m.videoIn, "video_in"),
                      Flag(m.toolUse.GetOr(true), "tool_use");
    JoinWithoutRepeats(a, b);
    JoinWithoutRepeats(a + b, c);
    JoinWithoutRepeats(a + b + c, d);
    assert Capabilities(m).GetOr([]) == a + b + c + d;
  }

  lemma ThinkingSays(m: ModelInfo)
    ensures var a := ThinkingCapabilities(m);
            && ("always_thinking" in a <==> m.thinking == Some(Only))
            && ("thinking" in a <==> m.thinking in {Some(Only), Some(Both)} || (m.thinking.None? && m.reasoning))
            && (forall x :: x in a ==> x == "thinking" || x == "always_thinking")
            && NoRepeats(a)
  {
    CapabilityNames();
    var only := ["thinking", "always_thinking"];
    assert only[0] == "thinking" && only[1] == "always_thinking";
  }

  ghost predicate NoRepeats(s: seq<string>) {
    forall i, j :: 0 <= i < j < |s| ==> s[i] != s[j]
  }

  /** Lists without repetitions that share nothing have none when joined. */
  lemma JoinWithoutRepeats(a: seq<string>, b: seq<string>)
    requires NoRepeats(a) && NoRepeats(b) && forall x :: x in a ==> x !in b
    ensures NoRepeats(a + b) && forall x :: x in a + b <==> x in a || x in b
  {
    forall i, j | 0 <= i < j < |a + b| ensures (a + b)[i] != (a + b)[j] {
      assert i < |a| <= j ==> a[i] in a && b[j - |a|] in b;
    }
  }

  lemma CapabilityNames()
    ensures "thinking" != "always_thinking" && "thinking" != "image_in" && "thinking" != "video_in"
    ensures "thinking" != "tool_use" && "always_thinking" != "image_in" && "always_thinking" != "video_in"
    ensures "always_thinking" != "tool_use" && "image_in" != "video_in" && "image_in" != "tool_use"
    ensures "video_in" != "tool_use"
  {
    assert "thinking"[0] == 't' && "always_thinking"[0] == 'a' && "image_in"[0] == 'i' && "video_in"[0] == 'v';
    assert "tool_use"[0] == 't' && "thinking"[1] == 'h' && "tool_use"[1] == 'o';
  }

  /** What a refresh writes into one alias: a field that is `None` where it may be is left alone. */
  datatype Patch = Patch(provider: string, model: string, maxContextSize: int, capabilities: Option<seq<string>>,
                         supportEfforts: Option<seq<string>>, defaultEffort: Option<string>,
                         displayName: Option<string>, protocol: Option<Protocol>)

  datatype Entry = Entry(key: string, patch: Patch)

  function Or<T>(a: Option<T>, b: Option<T>): Option<T> {
    if a.Some? then a else b
  }

  /** Spreading the existing alias and the new fields after it. */
  function Spread(existing: Option<Alias>, p: Patch): Alias {
    match existing
    case None => Alias(p.provider, p.model, p.maxContextSize, p.capabilities, p.supportEfforts, p.defaultEffort,
                       p.displayName, p.protocol.GetOr(NO_PROTOCOL), map[])
    case Some(a) => Alias(p.provider, p.model, p.maxContextSize, p.capabilities, Or(p.supportEfforts, a.supportEfforts),
                          Or(p.defaultEffort, a.defaultEffort), Or(p.displayName, a.displayName),
                          p.protocol.GetOr(a.protocol), a.extras)
  }

  function PutEntry(models: map<string, Alias>, e: Entry): map<string, Alias> {
    models[e.key := Spread(Get(models, e.key), e.patch)]
  }

  function PatchAll(models: map<string, Alias>, entries: seq<Entry>): map<string, Alias> {
    if entries == [] then models else PutEntry(PatchAll(models, entries[..|entries| - 1]), entries[|entries| - 1])
  }

  /** Deleting a provider's aliases whose keys are not in the catalogue. */
  function DropStale(models: map<string, Alias>, provider: string, keep: set<string>): map<string, Alias> {
    map k | k in models && !(models[k].provider == provider && k !in keep) :: models[k]
  }

  function Keys(entries: seq<Entry>): set<string> {
    set e | e in entries :: e.key
  }

  /** Replacing a provider's part of the models by a catalogue. */
  function Replace(models: map<string, Alias>, provider: string, entries: seq<Entry>): map<string, Alias> {
    PatchAll(DropStale(models, provider, Keys(entries)), entries)
  }

  // ---------- The catalogue as one patch per key ----------

  /** Two patches of one alias in a row, as one. */
  function Combine(first: Option<Patch>, p: Patch): Patch {
    match first
    case None => p
    case Some(q) => p.(supportEfforts := Or(p.supportEfforts, q.supportEfforts),
                       defaultEffort := Or(p.defaultEffort, q.defaultEffort),
                       displayName := Or(p.displayName, q.displayName), protocol := Or(p.protocol, q.protocol))
  }

  function PatchFor(entries: seq<Entry>, key: string): Option<Patch> {
    if entries == [] then None
    else
      var before, e := PatchFor(entries[..|entries| - 1], key), entries[|entries| - 1];
      if e.key == key then Some(Combine(before, e.patch)) else before
  }

  /** Whatever the order and the repetitions, each alias ends as the old one with one combined patch. */
  lemma {:induction false} PatchAllAt(models: map<string, Alias>, entries: seq<Entry>, key: string)
    ensures PatchFor(entries, key).Some? <==> key in Keys(entries)
    ensures Get(PatchAll(models, entries), key)
         == match PatchFor(entries, key)
            case None => Get(models, key)
            case Some(p) => Some(Spread(Get(models, key), p))
  {
    if entries != [] {
      var front, e := entries[..|entries| - 1], entries[|entries| - 1];
      assert entries == front + [e];
      assert Keys(entries) == Keys(front) + {e.key};
      PatchAllAt(models, front, key);
    }
  }

  /** The models after a catalogue replaced a provider's part, alias by alias. */
  lemma ReplaceAt(models: map<string, Alias>, provider: string, entries: seq<Entry>, key: string)
    ensures Get(Replace(models, provider, entries), key)
         == match PatchFor(entries, key)
            case Some(p) => Some(Spread(Get(models, key), p))
            case None => if key in models && models[key].provider != provider then Some(models[key]) else None
  {
    PatchAllAt(DropStale(models, provider, Keys(entries)), entries, key);
  }

  ghost predicate AllFor(entries: seq<Entry>, provider: string) {
    forall e :: e in entries ==> e.patch.provider == provider
  }

  lemma {:induction false} PatchForProvider(entries: seq<Entry>, provider: string, key: string)
    requires AllFor(entries, provider)
    ensures PatchFor(entries, key).Some? ==> PatchFor(entries, key).value.provider == provider
  {
    if entries != [] {
      assert forall e :: e in entries[..|entries| - 1] ==> e in entries;
      PatchForProvider(entries[..|entries| - 1], provider, key);
      assert entries[|entries| - 1] in entries;
    }
  }

  // ---------- The managed provider ----------

  function ManagedKey(id: string): string {
    MANAGED_PREFIX + id
  }

  function ManagedPatch(m: ModelInfo): Patch {
    var thinks := "thinking" in Capabilities(m).GetOr([]) || AlwaysThinks(Capabilities(m));
    var anthropic := m.protocol == Some("anthropic");
    Patch(MANAGED, m.id, m.contextLength, Capabilities(m), m.efforts, m.defaultEffort, m.displayName,
          Some(Protocol(m.protocol, if anthropic then Some(true) else None,
                        if anthropic && thinks then Some(true) else None)))
  }

  function ManagedEntries(models: seq<ModelInfo>): seq<Entry> {
    seq(|models|, i requires 0 <= i < |models| => Entry(ManagedKey(models[i].id), ManagedPatch(models[i])))
  }

  function ForcedThinking(m: Option<ModelInfo>, fallback: bool): bool {
    if m.Some? && m.value.thinking == Some(Only) then true
    else if m.Some? && m.value.thinking == Some(No) then false
    else fallback
  }

  /** The last model whose alias has this key: what a map built from the catalogue holds. */
  function LastWithKey(models: seq<ModelInfo>, prefix: string, key: string): Option<ModelInfo> {
    if models == [] then None
    else if prefix + models[|models| - 1].id == key then Some(models[|models| - 1])
    else LastWithKey(models[..|models| - 1], prefix, key)
  }

  predicate CanPreserve(c: Config, models: seq<ModelInfo>) {
    && c.defaultModel.GetOr("") != ""
    && (LastWithKey(models, MANAGED_PREFIX, c.defaultModel.value).Some?
        || (c.defaultModel.value in c.models && c.models[c.defaultModel.value].provider != MANAGED))
  }

  /** The default model a managed login or refresh selects, and its thinking. */
  function SelectDefault(c: Config, models: seq<ModelInfo>, preserve: bool): (string, bool)
    requires models != []
  {
    if preserve && CanPreserve(c, models) then
      var kept := LastWithKey(models, MANAGED_PREFIX, c.defaultModel.value);
      (c.defaultModel.value,
       ForcedThinking(kept, c.defaultThinking.GetOr(if kept.Some? then kept.value.reasoning else false)))
    else
      (ManagedKey(models[0].id), ForcedThinking(Some(models[0]), c.defaultThinking.GetOr(models[0].reasoning)))
  }

  predicate Usable(models: seq<ModelInfo>) {
    models != [] && forall m :: m in models ==> m.contextLength > 0
  }

  /** What a managed login or refresh passes on: the environment it runs in and the credential it resolved. */
  datatype Login = Login(env: CredentialSlot.Env, digest: CredentialSlot.Digest, baseUrl: Option<string>,
                         oauthKey: Option<string>, oauthHost: Option<string>)

  function LoginBaseUrl(l: Login): string {
    CredentialSlot.DefaultedBaseUrl(l.env, l.baseUrl)
  }

  function LoginRef(l: Login): CredentialSlot.OAuthRef {
    if l.oauthKey.Some? then CredentialSlot.ManagedRef(None, l.oauthKey.value, l.oauthHost)
    else CredentialSlot.ResolveRef(l.env, l.digest, l.oauthHost, Some(LoginBaseUrl(l)))
  }

  function StoredRefs(providers: map<string, Provider>): Option<CredentialSlot.StoredRefs> {
    if MANAGED in providers then
      Some(CredentialSlot.StoredRefs(providers[MANAGED].oauth, providers[MANAGED].oauths))
    else None
  }

  /** The managed provider's entry; its pool leads with the reference of the login. */
  function ManagedEntry(providers: map<string, Provider>, l: Login): Provider {
    PooledEntry(LoginBaseUrl(l), CredentialSlot.Pool(LoginRef(l), StoredRefs(providers)))
  }

  function PooledEntry(baseUrl: string, pool: seq<CredentialSlot.OAuthRef>): Provider {
    var inputs := seq(|pool|, i requires 0 <= i < |pool| => CredentialSlot.AsInput(pool[i]));
    if pool == [] then Provider("kimi", Some(baseUrl), "", None, [], None)
    else Provider("kimi", Some(baseUrl), "", Some(inputs[0]), inputs[1..], None)
  }

  function ManagedServices(l: Login): Services {
    Services(Some(Service(LoginBaseUrl(l) + "/search", LoginRef(l))),
             Some(Service(LoginBaseUrl(l) + "/fetch", LoginRef(l))), map[])
  }

  function ApplyManaged(c: Config, models: seq<ModelInfo>, login: Login, preserve: bool): Config
    requires Usable(models)
  {
    var (key, thinking) := SelectDefault(c, models, preserve);
    Config(c.providers[MANAGED := ManagedEntry(c.providers, login)], Replace(c.models, MANAGED, ManagedEntries(models)),
           Some(key), Some(thinking), c.defaultProvider, Some(ManagedServices(login)))
  }

  /** The entry has the credential, as its primary one or as a fallback. */
  ghost predicate Holds(p: Provider, ref: CredentialSlot.OAuthRef) {
    (p.oauth.Some? && IsInput(p.oauth.value, ref)) || exists i :: 0 <= i < |p.oauths| && IsInput(p.oauths[i], ref)
  }

  predicate IsInput(input: CredentialSlot.RefInput, ref: CredentialSlot.OAuthRef) {
    && input.storage == Some(ref.storage) && input.key == Some(ref.key)
    && input.oauthHost.GetOr("") == ref.oauthHost.GetOr("")
  }

  lemma PooledEntryHolds(baseUrl: string, pool: seq<CredentialSlot.OAuthRef>, ref: CredentialSlot.OAuthRef)
    requires CredentialSlot.Listed(ref, pool)
    ensures Holds(PooledEntry(baseUrl, pool), ref)
  {
    var i :| 0 <= i < |pool| && CredentialSlot.SameRef(pool[i], ref);
    var entry := PooledEntry(baseUrl, pool);
    if i > 0 { assert IsInput(entry.oauths[i - 1], ref); }
  }

  /**
   * The entry holds the login's own credential first, forgets none that was stored under the provider, whether as the
   * primary one or as a fallback, and takes nothing else over.
   */
  lemma EntryHoldsLogin(providers: map<string, Provider>, l: Login)
    ensures var entry := ManagedEntry(providers, l);
            && entry.kind == "kimi" && entry.apiKey == "" && entry.source.None?
            && entry.baseUrl == Some(LoginBaseUrl(l)) && entry.oauth == Some(CredentialSlot.AsInput(LoginRef(l)))
            && ("managed:kimi-code" in providers ==>
                  var p := providers["managed:kimi-code"];
                  && (forall r :: CredentialSlot.ConfiguredRef(p.oauth) == Some(r) ==> Holds(entry, r))
                  && (forall r, i ::
                        0 <= i < |p.oauths| && CredentialSlot.ConfiguredRef(Some(p.oauths[i])) == Some(r) ==>
                          Holds(entry, r)))
  {
    var pool, stored := CredentialSlot.Pool(LoginRef(l), StoredRefs(providers)), StoredRefs(providers);
    CredentialSlot.PoolKeepsCredentials(LoginRef(l), stored);
    forall r | CredentialSlot.Stored(stored, r) ensures Holds(ManagedEntry(providers, l), r) {
      PooledEntryHolds(LoginBaseUrl(l), pool, r);
    }
    if "managed:kimi-code" in providers {
      var p := providers["managed:kimi-code"];
      forall r | CredentialSlot.ConfiguredRef(p.oauth) == Some(r) ensures Holds(ManagedEntry(providers, l), r) {
        assert CredentialSlot.Stored(stored, r);
      }
      forall r, i | 0 <= i < |p.oauths| && CredentialSlot.ConfiguredRef(Some(p.oauths[i])) == Some(r)
        ensures Holds(ManagedEntry(providers, l), r)
      {
        assert CredentialSlot.Stored(stored, r);
      }
    }
  }

  /** What a login is stored with: its own key if it has one, and else the key of its environment. */
  lemma LoginRefSays(l: Login)
    ensures LoginBaseUrl(l) == CredentialSlot.DefaultedBaseUrl(l.env, l.baseUrl)
    ensures LoginRef(l).storage == CredentialSlot.File
    ensures LoginRef(l).key == if l.oauthKey.Some? then l.oauthKey.value
                               else CredentialSlot.ResolveKey(l.env, l.digest, l.oauthHost, Some(LoginBaseUrl(l)))
    ensures LoginRef(l).oauthHost == CredentialSlot.PersistedHost(LoginRef(l).key, l.oauthHost)
  {
  }

  /** The two services of the managed provider live below its base URL and use the login's credential. */
  lemma ServicesSay(c: Config, models: seq<ModelInfo>, l: Login, preserve: bool)
    requires Usable(models)
    ensures var services := ApplyManaged(c, models, l, preserve).services;
            && services.Some? && services.value.others == map[]
            && services.value.search == Some(Service(LoginBaseUrl(l) + "/search", LoginRef(l)))
            && services.value.fetch == Some(Service(LoginBaseUrl(l) + "/fetch", LoginRef(l)))
  {
  }

  /** Without the two managed services; a section left empty goes too. */
  function RemoveServices(services: Option<Services>): Option<Services> {
    if services.None? || services.value.others == map[] then None
    else Some(Services(None, None, services.value.others))
  }

  function Owned(models: map<string, Alias>, provider: string): set<string> {
    set k | k in models && models[k].provider == provider
  }

  function RemoveAliases(c: Config, provider: string): Config {
    c.(providers := c.providers - {provider}, models := c.models - Owned(c.models, provider),
       defaultModel := if c.defaultModel.Some? && c.defaultModel.value in Owned(c.models, provider) then None
                       else c.defaultModel)
  }

  /** Removing a platform or a registry provider: the provider, its aliases, and what named it. */
  function Remove(c: Config, provider: string): Config {
    RemoveAliases(c, provider).(defaultProvider := if c.defaultProvider == Some(provider) then None
                                                   else c.defaultProvider)
  }

  /** Logging out of the managed provider. */
  function LogOut(c: Config): Config {
    Remove(c, MANAGED).(services := RemoveServices(c.services))
  }

  function Clear(c: Config): Config {
    RemoveAliases(c, MANAGED).(services := RemoveServices(c.services))
  }

  // ---------- Open platforms ----------

  function AliasKey(provider: string, model: string): string {
    provider + "/" + model
  }

  function OpenPatch(provider: string, m: ModelInfo): Patch {
    Patch(provider, m.id, m.contextLength, Capabilities(m), m.efforts, m.defaultEffort, m.displayName, None)
  }

  function OpenEntries(provider: string, models: seq<ModelInfo>): seq<Entry> {
    seq(|models|, i requires 0 <= i < |models| =>
      Entry(AliasKey(provider, models[i].id), OpenPatch(provider, models[i])))
  }

  function ApplyOpen(c: Config, platform: string, models: seq<ModelInfo>, selected: ModelInfo, thinking: bool,
                     entry: Provider): Config
  {
    c.(providers := c.providers[platform := entry],
       models := Replace(c.models, platform, OpenEntries(platform, models)),
       defaultModel := Some(AliasKey(platform, selected.id)), defaultThinking := Some(thinking))
  }

  // ---------- Custom registries ----------

  const DEFAULT_MAX_CONTEXT := 131072

  datatype RegistryModel = RegistryModel(id: string, name: Option<string>, toolCall: Option<bool>,
                                         reasoning: Option<bool>,
                                         modalities: Option<Modalities>, context: Option<int>, output: Option<int>)

  datatype Modalities = Modalities(input: set<string>, output: set<string>)

  /** A registry's provider entry; its models are a record, so their keys are distinct. */
  datatype RegistryEntry = RegistryEntry(id: string, kind: string, api: string, models: seq<(string, RegistryModel)>)

  function MaxContext(m: RegistryModel): int {
    if m.context.GetOr(0) > 0 then m.context.value
    else if m.output.GetOr(0) > 0 then m.output.value
    else DEFAULT_MAX_CONTEXT
  }

  function RegistryCapabilities(m: RegistryModel): seq<string> {
    if m.toolCall.None? && m.reasoning.None? && m.modalities.None? then ["tool_use"]
    else
      var io := m.modalities.GetOr(Modalities({}, {}));
      Flag(m.toolCall == Some(true), "tool_use") + Flag(m.reasoning == Some(true), "thinking")
      + Flag("image" in io.input, "image_in") + Flag("video" in io.input, "video_in")
      + Flag("image" in io.output, "image_out") + Flag("audio" in io.output, "audio_out")
  }

  function RegistryPatch(provider: string, m: RegistryModel): Patch {
    Patch(provider, m.id, MaxContext(m), Some(RegistryCapabilities(m)), None, None,
          Some(if m.name.GetOr("") != "" then m.name.value else m.id), None)
  }

  function RegistryEntries(e: RegistryEntry): seq<Entry> {
    seq(|e.models|, i requires 0 <= i < |e.models| =>
      Entry(AliasKey(e.id, e.models[i].0), RegistryPatch(e.id, e.models[i].1)))
  }

  function RegistryProvider(e: RegistryEntry, source: Source): Provider {
    Provider(e.kind, Some(e.api), source.apiKey, None, [], Some(source))
  }

  function ApplyRegistry(c: Config, e: RegistryEntry, source: Source): Config {
    c.(providers := c.providers[e.id := RegistryProvider(e, source)],
       models := Replace(c.models, e.id, RegistryEntries(e)))
  }

  predicate Carries(p: Provider, url: string) {
    p.source.Some? && p.source.value.kind == "apiJson" && p.source.value.url == url
  }

  function Imported(entries: seq<RegistryEntry>): set<string> {
    set e | e in entries :: e.id
  }

  /** The providers a re-import drops: of this registry, and no longer in it. */
  function Orphans(providers: map<string, Provider>, entries: seq<RegistryEntry>, url: string): set<string> {
    set id | id in providers && Carries(providers[id], url) && id !in Imported(entries)
  }

  /** Removing several providers; the order makes no difference. */
  function RemoveMany(c: Config, ids: set<string>): Config {
    var owned := set k | k in c.models && c.models[k].provider in ids;
    Config(c.providers - ids, c.models - owned,
           if c.defaultModel.Some? && c.defaultModel.value in owned then None else c.defaultModel,
           c.defaultThinking,
           if c.defaultProvider.Some? && c.defaultProvider.value in ids then None else c.defaultProvider,
           c.services)
  }

  function ImportOne(c: Config, e: RegistryEntry, source: Source): Config {
    ApplyRegistry(if e.id in c.providers then Remove(c, e.id) else c, e, source)
  }

  function ImportAll(c: Config, entries: seq<RegistryEntry>, source: Source): Config {
    if entries == [] then c
    else ImportOne(ImportAll(c, entries[..|entries| - 1], source), entries[|entries| - 1], source)
  }

  function Reimport(c: Config, entries: seq<RegistryEntry>, source: Source): Config {
    ImportAll(RemoveMany(c, Orphans(c.providers, entries, source.url)), entries, source)
  }

  // ---------- The configuration as it is edited ----------

  class Store {
    var providers: map<string, Provider>
    var models: map<string, Alias>
    var defaultModel: Option<string>
    var defaultThinking: Option<bool>
    var defaultProvider: Option<string>
    var services: Option<Services>

    ghost function View(): Config
      reads this
    {
      Config(providers, models, defaultModel, defaultThinking, defaultProvider, services)
    }

    constructor (c: Config)
      ensures View() == c
    {
      providers, models := c.providers, c.models;
      defaultModel, defaultThinking, defaultProvider := c.defaultModel, c.defaultThinking, c.defaultProvider;
      services := c.services;
    }

    method Snapshot() returns (c: Config)
      ensures c == View()
    {
      c := Config(providers, models, defaultModel, defaultThinking, defaultProvider, services);
    }

    method DeleteStale(provider: string, keep: set<string>)
      modifies this`models
      ensures models == DropStale(old(models), provider, keep)
    {
      var rest := models.Keys;
      while rest != {}
        invariant rest <= models.Keys
        invariant forall k :: k in models ==> k in old(models) && models[k] == old(models)[k]
        invariant forall k :: k in old(models) && k !in rest ==>
                    (k in models <==> !(old(models)[k].provider == provider && k !in keep))
        invariant forall k :: k in rest ==> k in old(models)
      {
        var k :| k in rest;
        rest := rest - {k};
        if models[k].provider == provider && k !in keep { models := models - {k}; }
      }
    }

    method WriteEntries(entries: seq<Entry>)
      modifies this`models
      ensures models == PatchAll(old(models), entries)
    {
      for i := 0 to |entries|
        invariant models == PatchAll(old(models), entries[..i])
      {
        var existing := if entries[i].key in models then Some(models[entries[i].key]) else None;
        models := models[entries[i].key := Spread(existing, entries[i].patch)];
        assert entries[..i + 1][..i] == entries[..i];
      }
      assert entries[..|entries|] == entries;
    }

    method ChooseDefault(infos: seq<ModelInfo>, preserve: bool) returns (key: string, thinking: bool)
      requires infos != []
      ensures (key, thinking) == SelectDefault(View(), infos, preserve)
    {
      if preserve && defaultModel.GetOr("") != "" {
        var current := defaultModel.value;
        var kept := None;
        for i := 0 to |infos|
          invariant kept == LastWithKey(infos[..i], MANAGED_PREFIX, current)
        {
          assert infos[..i + 1][..i] == infos[..i];
          if ManagedKey(infos[i].id) == current { kept := Some(infos[i]); }
        }
        assert infos[..|infos|] == infos;
        if kept.Some? || (current in models && models[current].provider != MANAGED) {
          var fallback := defaultThinking.GetOr(if kept.Some? then kept.value.reasoning else false);
          return current, ForcedThinking(kept, fallback);
        }
      }
      return ManagedKey(infos[0].id), ForcedThinking(Some(infos[0]), defaultThinking.GetOr(infos[0].reasoning));
    }

    /** `applyManagedKimiCodeConfig`: it throws before it changes anything. */
    method ApplyManagedConfig(infos: seq<ModelInfo>, login: Login, preserve: bool) returns (ok: bool)
      modifies this
      ensures ok == Usable(infos)
      ensures View() == if ok then ApplyManaged(old(View()), infos, login, preserve) else old(View())
    {
      if infos == [] { return false; }
      for i := 0 to |infos|
        invariant forall m :: m in infos[..i] ==> m.contextLength > 0
        invariant View() == old(View())
      {
        if infos[i].contextLength <= 0 { return false; }
      }
      assert infos[..|infos|] == infos;
      var oauth := LoginRef(login);
      var pool := CredentialSlot.OAuthPool(oauth, StoredRefs(providers));
      var key, thinking := ChooseDefault(infos, preserve);
      providers := providers[MANAGED := PooledEntry(LoginBaseUrl(login), pool)];
      DeleteStale(MANAGED, Keys(ManagedEntries(infos)));
      WriteEntries(ManagedEntries(infos));
      defaultModel := Some(key);
      defaultThinking := Some(thinking);
      services := Some(Services(Some(Service(LoginBaseUrl(login) + "/search", oauth)),
                                Some(Service(LoginBaseUrl(login) + "/fetch", oauth)), map[]));
      return true;
    }

    method DeleteAliases(provider: string) returns (removed: set<string>)
      modifies this`models
      ensures removed == Owned(old(models), provider) && models == old(models) - removed
    {
      removed := {};
      var rest := models.Keys;
      while rest != {}
        invariant rest <= models.Keys && models == old(models) - removed
        invariant removed <= old(models).Keys && removed !! rest
        invariant forall k :: k in old(models) && k !in rest ==> (k in removed <==> old(models)[k].provider == provider)
      {
        var k :| k in rest;
        rest := rest - {k};
        if models[k].provider == provider {
          models := models - {k};
          removed := removed + {k};
        }
      }
    }

    /** Deletes the managed services, and the section if nothing is left of it. */
    method DeleteServices() returns (removed: seq<string>)
      modifies this`services
      ensures services == RemoveServices(old(services))
      ensures "moonshotSearch" in removed <==> old(services).Some? && old(services).value.search.Some?
      ensures "moonshotFetch" in removed <==> old(services).Some? && old(services).value.fetch.Some?
    {
      ServiceNames();
      removed := [];
      if services.None? { return; }
      if services.value.search.Some? { removed := removed + ["moonshotSearch"]; }
      if services.value.fetch.Some? { removed := removed + ["moonshotFetch"]; }
      services := Some(services.value.(search := None, fetch := None));
      if services.value.others == map[] { services := None; }
    }

    /** `clearManagedKimiCodeConfig`. */
    method ClearManagedConfig()
      returns (removedProvider: bool, removed: set<string>, defaultCleared: bool, removedServices: seq<string>)
      modifies this
      ensures View() == Clear(old(View()))
      ensures removedProvider == (MANAGED in old(providers)) && removed == Owned(old(models), MANAGED)
      ensures defaultCleared == (old(defaultModel).Some? && old(defaultModel).value in removed)
      ensures "moonshotSearch" in removedServices <==> old(services).Some? && old(services).value.search.Some?
      ensures "moonshotFetch" in removedServices <==> old(services).Some? && old(services).value.fetch.Some?
    {
      removedProvider := MANAGED in providers;
      providers := providers - {MANAGED};
      removed := DeleteAliases(MANAGED);
      defaultCleared := defaultModel.Some? && defaultModel.value in removed;
      if defaultCleared { defaultModel := None; }
      removedServices := DeleteServices();
    }

    /** `removeOpenPlatformConfig` and `removeCustomRegistryProvider`. */
    method RemoveProvider(provider: string)
      modifies this
      ensures View() == Remove(old(View()), provider)
    {
      providers := providers - {provider};
      var removed := DeleteAliases(provider);
      if defaultModel.Some? && defaultModel.value in removed { defaultModel := None; }
      if defaultProvider == Some(provider) { defaultProvider := None; }
    }

    /** `applyManagedKimiCodeLogoutConfig`. */
    method LogOutManaged()
      modifies this
      ensures View() == LogOut(old(View()))
    {
      RemoveProvider(MANAGED);
      var _ := DeleteServices();
    }

    /** `applyOpenPlatformConfig`. */
    method ApplyOpenConfig(platform: string, infos: seq<ModelInfo>, selected: ModelInfo, thinking: bool,
                           entry: Provider)
      modifies this
      ensures View() == ApplyOpen(old(View()), platform, infos, selected, thinking, entry)
    {
      providers := providers[platform := entry];
      DeleteStale(platform, Keys(OpenEntries(platform, infos)));
      WriteEntries(OpenEntries(platform, infos));
      defaultModel := Some(AliasKey(platform, selected.id));
      defaultThinking := Some(thinking);
    }

    /** `applyCustomRegistryProvider`. */
    method ApplyRegistryProvider(e: RegistryEntry, source: Source)
      modifies this
      ensures View() == ApplyRegistry(old(View()), e, source)
    {
      providers := providers[e.id := RegistryProvider(e, source)];
      DeleteStale(e.id, Keys(RegistryEntries(e)));
      WriteEntries(RegistryEntries(e));
    }

    /** `applyCustomRegistryEntries`. */
    method ImportRegistry(entries: seq<RegistryEntry>, source: Source)
      modifies this
      ensures View() == Reimport(old(View()), entries, source)
    {
      var surviving := set e | e in entries :: e.id;
      var rest := providers.Keys;
      ghost var gone: set<string> := {};
      RemoveNone(View());
      while rest != {}
        invariant rest <= providers.Keys && providers == old(providers) - gone
        invariant gone <= Orphans(old(providers), entries, source.url)
        invariant forall id :: id in Orphans(old(providers), entries, source.url) && id !in rest ==> id in gone
        invariant gone !! rest
        invariant View() == RemoveMany(old(View()), gone)
      {
        var id :| id in rest;
        rest := rest - {id};
        if id !in surviving && Carries(providers[id], source.url) {
          RemoveOneMore(old(View()), gone, id);
          RemoveProvider(id);
          gone := gone + {id};
        }
      }
      assert gone == Orphans(old(providers), entries, source.url);
      ghost var cleaned := View();
      for i := 0 to |entries|
        invariant View() == ImportAll(cleaned, entries[..i], source)
      {
        assert entries[..i + 1][..i] == entries[..i];
        if entries[i].id in providers { RemoveProvider(entries[i].id); }
        ApplyRegistryProvider(entries[i], source);
      }
      assert entries[..|entries|] == entries;
    }
  }

  lemma ServiceNames()
    ensures "moonshotSearch" != "moonshotFetch"
  {
    assert "moonshotSearch"[8] == 'S' && "moonshotFetch"[8] == 'F';
  }

  lemma RemoveNone(c: Config)
    ensures RemoveMany(c, {}) == c
  {
    assert c.models - {} == c.models && c.providers - {} == c.providers;
  }

  lemma RemoveOneMore(c: Config, ids: set<string>, id: string)
    ensures Remove(RemoveMany(c, ids), id) == RemoveMany(c, ids + {id})
  {
    assert Remove(RemoveMany(c, ids), id).models == RemoveMany(c, ids + {id}).models;
    assert Remove(RemoveMany(c, ids), id).providers == RemoveMany(c, ids + {id}).providers;
  }

  // ---------- The aliases, field by field ----------

  function EffortsOf(m: ModelInfo): Option<seq<string>> { m.efforts }

  function DefaultEffortOf(m: ModelInfo): Option<string> { m.defaultEffort }

  function NameOf(m: ModelInfo): Option<string> { m.displayName }

  /** What the last listing of an alias that declares a field says of it. */
  function Declared<T>(field: ModelInfo -> Option<T>, models: seq<ModelInfo>, prefix: string, key: string): Option<T> {
    if models == [] then None
    else
      var m := models[|models| - 1];
      if prefix + m.id == key && field(m).Some? then field(m)
      else Declared(field, models[..|models| - 1], prefix, key)
  }

  predicate Thinks(m: ModelInfo) {
    m.thinking == Some(Only) || m.thinking == Some(Both) || (m.thinking == None && m.reasoning)
  }

  function AnthropicFlags(m: ModelInfo): Protocol {
    if m.protocol == Some("anthropic") then Protocol(m.protocol, Some(true), if Thinks(m) then Some(true) else None)
    else Protocol(m.protocol, None, None)
  }

  /** The first that is there: what the catalogue declares, or what the alias had before. */
  function Keep<T>(declared: Option<T>, before: Option<T>): Option<T> {
    match declared
    case Some(x) => Some(x)
    case None => before
  }

  /** A listed alias of the managed provider: the last listing, and from before what no listing declares. */
  function ManagedAlias(before: Option<Alias>, models: seq<ModelInfo>, key: string): Alias
    requires LastWithKey(models, "kimi-code/", key).Some?
  {
    var m, p := LastWithKey(models, "kimi-code/", key).value, "kimi-code/";
    Alias("managed:kimi-code", m.id, m.contextLength, Capabilities(m),
          Keep(Declared(EffortsOf, models, p, key), if before.Some? then before.value.supportEfforts else None),
          Keep(Declared(DefaultEffortOf, models, p, key), if before.Some? then before.value.defaultEffort else None),
          Keep(Declared(NameOf, models, p, key), if before.Some? then before.value.displayName else None),
          AnthropicFlags(m), if before.Some? then before.value.extras else map[])
  }

  /** A listed alias of an open platform, whose protocol fields are left as they were. */
  function OpenAlias(before: Option<Alias>, platform: string, models: seq<ModelInfo>, key: string): Alias
    requires LastWithKey(models, platform + "/", key).Some?
  {
    var m, p := LastWithKey(models, platform + "/", key).value, platform + "/";
    Alias(platform, m.id, m.contextLength, Capabilities(m),
          Keep(Declared(EffortsOf, models, p, key), if before.Some? then before.value.supportEfforts else None),
          Keep(Declared(DefaultEffortOf, models, p, key), if before.Some? then before.value.defaultEffort else None),
          Keep(Declared(NameOf, models, p, key), if before.Some? then before.value.displayName else None),
          if before.Some? then before.value.protocol else Protocol(None, None, None),
          if before.Some? then before.value.extras else map[])
  }

  /** Entries that say of each model what the catalogue says. */
  ghost predicate Describe(entries: seq<Entry>, models: seq<ModelInfo>, provider: string, prefix: string,
                           managed: bool)
  {
    |entries| == |models| && forall i :: 0 <= i < |models| ==>
      var m, p := models[i], entries[i].patch;
      && entries[i].key == prefix + m.id && p.provider == provider && p.model == m.id
      && p.maxContextSize == m.contextLength && p.capabilities == Capabilities(m) && p.supportEfforts == m.efforts
      && p.defaultEffort == m.defaultEffort && p.displayName == m.displayName
      && p.protocol == if managed then Some(AnthropicFlags(m)) else None
  }

  lemma ManagedEntriesDescribe(models: seq<ModelInfo>)
    ensures Describe(ManagedEntries(models), models, "managed:kimi-code", "kimi-code/", true)
  {
    forall m: ModelInfo ensures ManagedPatch(m).protocol == Some(AnthropicFlags(m)) { CapabilitiesSay(m); }
  }

  lemma OpenEntriesDescribe(platform: string, models: seq<ModelInfo>)
    ensures Describe(OpenEntries(platform, models), models, platform, platform + "/", false)
  {
  }

  lemma {:induction false} PatchSays(entries: seq<Entry>, models: seq<ModelInfo>, provider: string, prefix: string,
                                     managed: bool, key: string)
    requires Describe(entries, models, provider, prefix, managed)
    ensures PatchFor(entries, key).Some? == LastWithKey(models, prefix, key).Some?
    ensures LastWithKey(models, prefix, key).Some? ==>
              PatchFor(entries, key) == Some(WholePatch(models, provider, prefix, managed, key))
    ensures LastWithKey(models, prefix, key).None? ==>
              Declared(EffortsOf, models, prefix, key).None? && Declared(DefaultEffortOf, models, prefix, key).None?
              && Declared(NameOf, models, prefix, key).None?
  {
    if models != [] {
      PatchSays(entries[..|models| - 1], models[..|models| - 1], provider, prefix, managed, key);
    }
  }

  lemma SpreadSays(before: Option<Alias>, p: Patch)
    ensures Spread(before, p)
         == Alias(p.provider, p.model, p.maxContextSize, p.capabilities,
                  Keep(p.supportEfforts, if before.Some? then before.value.supportEfforts else None),
                  Keep(p.defaultEffort, if before.Some? then before.value.defaultEffort else None),
                  Keep(p.displayName, if before.Some? then before.value.displayName else None),
                  if p.protocol.Some? then p.protocol.value
                  else if before.Some? then before.value.protocol else Protocol(None, None, None),
                  if before.Some? then before.value.extras else map[])
  {
  }

  /** The one patch that a catalogue comes to for one alias. */
  function WholePatch(models: seq<ModelInfo>, provider: string, prefix: string, managed: bool, key: string): Patch
    requires LastWithKey(models, prefix, key).Some?
  {
    var m := LastWithKey(models, prefix, key).value;
    Patch(provider, m.id, m.contextLength, Capabilities(m), Declared(EffortsOf, models, prefix, key),
          Declared(DefaultEffortOf, models, prefix, key), Declared(NameOf, models, prefix, key),
          if managed then Some(AnthropicFlags(m)) else None)
  }

  lemma ManagedSpread(before: Option<Alias>, models: seq<ModelInfo>, key: string)
    ensures PatchFor(ManagedEntries(models), key).Some? == LastWithKey(models, "kimi-code/", key).Some?
    ensures LastWithKey(models, "kimi-code/", key).Some? ==>
              Spread(before, PatchFor(ManagedEntries(models), key).value) == ManagedAlias(before, models, key)
  {
    ManagedEntriesDescribe(models);
    PatchSays(ManagedEntries(models), models, "managed:kimi-code", "kimi-code/", true, key);
    if LastWithKey(models, "kimi-code/", key).Some? {
      SpreadSays(before, WholePatch(models, "managed:kimi-code", "kimi-code/", true, key));
    }
  }

  lemma OpenSpread(before: Option<Alias>, platform: string, models: seq<ModelInfo>, key: string)
    ensures PatchFor(OpenEntries(platform, models), key).Some? == LastWithKey(models, platform + "/", key).Some?
    ensures LastWithKey(models, platform + "/", key).Some? ==>
              Spread(before, PatchFor(OpenEntries(platform, models), key).value)
              == OpenAlias(before, platform, models, key)
  {
    OpenEntriesDescribe(platform, models);
    PatchSays(OpenEntries(platform, models), models, platform, platform + "/", false, key);
    if LastWithKey(models, platform + "/", key).Some? {
      SpreadSays(before, WholePatch(models, platform, platform + "/", false, key));
    }
  }

  /** After a managed login: listed aliases field by field, the provider's others gone, everyone else's untouched. */
  lemma ManagedApplySays(c: Config, models: seq<ModelInfo>, login: Login, preserve: bool, key: string)
    requires Usable(models)
    ensures Get(ApplyManaged(c, models, login, preserve).models, key)
         == if LastWithKey(models, "kimi-code/", key).Some? then Some(ManagedAlias(Get(c.models, key), models, key))
            else if key in c.models && c.models[key].provider != "managed:kimi-code" then Some(c.models[key]) else None
  {
    ReplaceAt(c.models, MANAGED, ManagedEntries(models), key);
    ManagedSpread(Get(c.models, key), models, key);
  }

  /** The same after adding an open platform. */
  lemma OpenApplySays(c: Config, platform: string, models: seq<ModelInfo>, selected: ModelInfo, thinking: bool,
                      entry: Provider, key: string)
    ensures var next := ApplyOpen(c, platform, models, selected, thinking, entry);
            && Get(next.models, key)
               == (if LastWithKey(models, platform + "/", key).Some? then
                     Some(OpenAlias(Get(c.models, key), platform, models, key))
                   else if key in c.models && c.models[key].provider != platform then Some(c.models[key]) else None)
            && next.defaultModel == Some(platform + "/" + selected.id) && next.defaultThinking == Some(thinking)
            && next.providers == c.providers[platform := entry]
  {
    ReplaceAt(c.models, platform, OpenEntries(platform, models), key);
    OpenSpread(Get(c.models, key), platform, models, key);
  }

  /** The default that a managed login selects, and the thinking that goes with it. */
  lemma ManagedDefaultSays(c: Config, models: seq<ModelInfo>, login: Login, preserve: bool)
    requires Usable(models)
    ensures var next := ApplyManaged(c, models, login, preserve);
            var d := if c.defaultModel.Some? then c.defaultModel.value else "";
            var kept := preserve && d != ""
                        && (LastWithKey(models, "kimi-code/", d).Some?
                            || (d in c.models && c.models[d].provider != "managed:kimi-code"));
            var m := if kept then LastWithKey(models, "kimi-code/", d) else Some(models[0]);
            && next.defaultModel == Some(if kept then d else "kimi-code/" + models[0].id)
            && next.defaultThinking
               == Some(if m.Some? && m.value.thinking == Some(Only) then true
                       else if m.Some? && m.value.thinking == Some(No) then false
                       else if c.defaultThinking.Some? then c.defaultThinking.value
                       else m.Some? && m.value.reasoning)
  {
  }

  // ---------- The same for registries ----------

  /** A registry model's capabilities are the declared ones, or tool use if nothing at all is declared. */
  lemma RegistryCapabilitiesSay(m: RegistryModel, x: string)
    ensures var silent := m.toolCall == None && m.reasoning == None && m.modalities == None;
            var input := if m.modalities.Some? then m.modalities.value.input else {};
            var output := if m.modalities.Some? then m.modalities.value.output else {};
            x in RegistryCapabilities(m) <==>
              || (x == "tool_use" && (silent || m.toolCall == Some(true)))
              || (x == "thinking" && m.reasoning == Some(true))
              || (x == "image_in" && "image" in input) || (x == "video_in" && "video" in input)
              || (x == "image_out" && "image" in output) || (x == "audio_out" && "audio" in output)
  {
    if m.toolCall.Some? || m.reasoning.Some? || m.modalities.Some? {
      var io := m.modalities.GetOr(Modalities({}, {}));
      InSixFlags(Flag(m.toolCall == Some(true), "tool_use"), Flag(m.reasoning == Some(true), "thinking"),
                 Flag("image" in io.input, "image_in"), Flag("video" in io.input, "video_in"),
                 Flag("image" in io.output, "image_out"), Flag("audio" in io.output, "audio_out"), x);
    }
  }

  lemma InSixFlags(a: seq<string>, b: seq<string>, c: seq<string>, d: seq<string>, e: seq<string>, f: seq<string>,
                   x: string)
    ensures x in a + b + c + d + e + f <==> x in a || x in b || x in c || x in d || x in e || x in f
  {
  }

  function LastListed(models: seq<(string, RegistryModel)>, prefix: string, key: string): Option<RegistryModel> {
    if models == [] then None
    else if prefix + models[|models| - 1].0 == key then Some(models[|models| - 1].1)
    else LastListed(models[..|models| - 1], prefix, key)
  }

  /** A listed alias of a registry provider. */
  function RegistryAlias(before: Option<Alias>, provider: string, m: RegistryModel): Alias {
    var context := if m.context.Some? && m.context.value > 0 then m.context.value
                   else if m.output.Some? && m.output.value > 0 then m.output.value else 131072;
    var name := if m.name.Some? && m.name.value != "" then m.name.value else m.id;
    match before
    case None =>
      Alias(provider, m.id, context, Some(RegistryCapabilities(m)), None, None, Some(name), Protocol(None, None, None),
            map[])
    case Some(a) =>
      Alias(provider, m.id, context, Some(RegistryCapabilities(m)), a.supportEfforts, a.defaultEffort, Some(name),
            a.protocol, a.extras)
  }

  lemma {:induction false} RegistryPatchSays(
      entries: seq<Entry>, models: seq<(string, RegistryModel)>, provider: string, before: Option<Alias>, key: string)
    requires |entries| == |models| && forall i :: 0 <= i < |models| ==>
               entries[i] == Entry(provider + "/" + models[i].0, RegistryPatch(provider, models[i].1))
    ensures var last := LastListed(models, provider + "/", key);
            PatchFor(entries, key).Some? == last.Some?
            && (last.Some? ==>
                  && PatchFor(entries, key).value == RegistryPatch(provider, last.value)
                  && Spread(before, PatchFor(entries, key).value) == RegistryAlias(before, provider, last.value))
  {
    if models != [] { RegistryPatchSays(entries[..|models| - 1], models[..|models| - 1], provider, before, key); }
  }

  /** After applying a registry entry: its provider, and the aliases as after a login. */
  lemma RegistryApplySays(c: Config, e: RegistryEntry, source: Source, key: string)
    ensures var next, m := ApplyRegistry(c, e, source), LastListed(e.models, e.id + "/", key);
            && next.providers
               == c.providers[e.id := Provider(e.kind, Some(e.api), source.apiKey, None, [], Some(source))]
            && Get(next.models, key)
               == if m.Some? then Some(RegistryAlias(Get(c.models, key), e.id, m.value))
                  else if key in c.models && c.models[key].provider != e.id then Some(c.models[key]) else None
  {
    ReplaceAt(c.models, e.id, RegistryEntries(e), key);
    RegistryPatchSays(RegistryEntries(e), e.models, e.id, Get(c.models, key), key);
  }
}
