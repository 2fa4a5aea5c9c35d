/**
 * Which credential slot a login writes and which one the runtime reads: the resolvers of the managed provider,
 * the key and host selection of the toolkit, and the pool of credentials kept beside the primary one.
 */
module CredentialSlot {
  import opened Wrappers

  const PROVIDER_NAME := "managed:kimi-code"
  const DEFAULT_KEY := "oauth/kimi-code"
  const SCOPED_PREFIX := "oauth/kimi-code-env-"
  const DEFAULT_HOST := "https://auth.kimi.com"
  const DEFAULT_BASE_URL := "https://api.kimi.com/coding/v1"

  /** The environment variables; they are fixed. */
  datatype Env = Env(baseUrl: Option<string>, codeHost: Option<string>, legacyHost: Option<string>) {
    function OAuthHost(): Option<string> {
      if codeHost.Some? then codeHost else legacyHost
    }

    predicate Overrides() {
      baseUrl.Some? || OAuthHost().Some?
    }

    /** The host of the OAuth flow's own configuration. */
    function FlowHost(): string {
      OAuthHost().GetOr(DEFAULT_HOST)
    }
  }

  datatype Storage = File | Keyring

  datatype OAuthRef = OAuthRef(storage: Storage, key: string, oauthHost: Option<string>)

  /** A reference as the configuration file has it. */
  datatype RefInput = RefInput(storage: Option<Storage>, key: Option<string>, oauthHost: Option<string>)

  datatype LoginAuth = LoginAuth(baseUrl: Option<string>, oauthHost: Option<string>, oauthRef: Option<OAuthRef>)
  datatype RuntimeAuth = RuntimeAuth(baseUrl: Option<string>, oauthRef: OAuthRef)

  /** The digest of an (OAuth host, base URL) pair; nothing is known about it. */
  type Digest = (string, string) -> string

  // ---------- Normalisation ----------

  /** The white space and line terminators that `trim` removes. */
  predicate IsSpace(c: char) {
    var n := c as int;
    9 <= n <= 13 || n == 32 || n == 0xA0 || n == 0x1680 || 0x2000 <= n <= 0x200A || n == 0x2028 || n == 0x2029
    || n == 0x202F || n == 0x205F || n == 0x3000 || n == 0xFEFF
  }

  /** Tab, line feed, vertical tab, form feed, carriage return, the Unicode spaces, the separators and the BOM. */
  lemma SpacesAre(c: char)
    ensures IsSpace(c) <==>
              c in {'\t', '\n', '\U{B}', '\U{C}', '\r', ' ', '\U{A0}', '\U{1680}', '\U{2000}', '\U{2001}', '\U{2002}',
                    '\U{2003}', '\U{2004}', '\U{2005}', '\U{2006}', '\U{2007}', '\U{2008}', '\U{2009}', '\U{200A}',
                    '\U{2028}', '\U{2029}', '\U{202F}', '\U{205F}', '\U{3000}', '\U{FEFF}'}
  {
  }

  function TrimStart(s: string): string {
    if s != "" && IsSpace(s[0]) then TrimStart(s[1..]) else s
  }

  function TrimEnd(s: string): string {
    if s != "" && IsSpace(s[|s| - 1]) then TrimEnd(s[..|s| - 1]) else s
  }

  function StripSlashes(s: string): string {
    if s != "" && s[|s| - 1] == '/' then StripSlashes(s[..|s| - 1]) else s
  }

  function NormalizeEndpoint(s: string): string {
    StripSlashes(TrimEnd(TrimStart(s)))
  }

  /** Normalising once is enough. */
  predicate Settled(host: string) {
    NormalizeEndpoint(NormalizeEndpoint(host)) == NormalizeEndpoint(host)
  }

  lemma {:induction false} StripSlashesTwice(s: string)
    ensures StripSlashes(StripSlashes(s)) == StripSlashes(s)
  {
    if s != "" && s[|s| - 1] == '/' { StripSlashesTwice(s[..|s| - 1]); }
  }

  lemma {:induction false} StripSlashesIsPrefix(s: string)
    ensures |StripSlashes(s)| <= |s| && StripSlashes(s) == s[..|StripSlashes(s)|]
  {
    if s != "" && s[|s| - 1] == '/' { StripSlashesIsPrefix(s[..|s| - 1]); }
  }

  lemma SpaceFreeIsSettled(host: string)
    requires forall c :: c in host ==> !IsSpace(c)
    ensures NormalizeEndpoint(host) == StripSlashes(host) && Settled(host)
  {
    assert TrimStart(host) == host && TrimEnd(host) == host;
    StripSlashesIsPrefix(host);
    StripSlashesTwice(host);
    var t := StripSlashes(host);
    if t != "" {
      assert t[0] == host[0] && t[0] in host;
      assert t[|t| - 1] == host[|t| - 1] && t[|t| - 1] in host;
    }
    assert TrimStart(t) == t && TrimEnd(t) == t;
  }

  lemma {:induction false} TrimStartShape(s: string)
    ensures |TrimStart(s)| <= |s| && TrimStart(s) == s[|s| - |TrimStart(s)|..]
    ensures TrimStart(s) == "" || !IsSpace(TrimStart(s)[0])
  {
    if s != "" && IsSpace(s[0]) { TrimStartShape(s[1..]); }
  }

  lemma {:induction false} TrimEndShape(s: string)
    ensures |TrimEnd(s)| <= |s| && TrimEnd(s) == s[..|TrimEnd(s)|]
    ensures TrimEnd(s) == "" || !IsSpace(TrimEnd(s)[|TrimEnd(s)| - 1])
  {
    if s != "" && IsSpace(s[|s| - 1]) { TrimEndShape(s[..|s| - 1]); }
  }

  lemma NormalizedShape(s: string)
    ensures var n := NormalizeEndpoint(s); (n == "" || !IsSpace(n[0])) && StripSlashes(n) == n
  {
    TrimStartShape(s);
    TrimEndShape(TrimStart(s));
    StripSlashesIsPrefix(TrimEnd(TrimStart(s)));
    StripSlashesTwice(TrimEnd(TrimStart(s)));
  }

  /** A host is settled exactly when its normal form does not end in white space, as `"a /"` lets it do. */
  lemma SettledIff(host: string)
    ensures var n := NormalizeEndpoint(host); Settled(host) <==> n == "" || !IsSpace(n[|n| - 1])
  {
    var n := NormalizeEndpoint(host);
    NormalizedShape(host);
    if n != "" {
      assert TrimStart(n) == n;
      TrimEndShape(n);
      StripSlashesIsPrefix(TrimEnd(n));
    }
  }

  lemma UnsettledHost()
    ensures NormalizeEndpoint("a /") == "a " && NormalizeEndpoint("a ") == "a" && !Settled("a /")
  {
    var s, t, u := "a /", "a ", "a";
    assert TrimStart(s) == s && TrimEnd(s) == s && s[..2] == t && StripSlashes(t) == t;
    assert TrimStart(t) == t && t[..1] == u && TrimEnd(u) == u && TrimEnd(t) == u && StripSlashes(u) == u;
  }

  // ---------- The resolvers ----------

  function DefaultedBaseUrl(env: Env, baseUrl: Option<string>): string {
    StripSlashes(baseUrl.GetOr(env.baseUrl.GetOr(DEFAULT_BASE_URL)))
  }

  function Key(digest: Digest, oauthHost: string, baseUrl: string): string {
    if oauthHost == NormalizeEndpoint(DEFAULT_HOST) && baseUrl == NormalizeEndpoint(DEFAULT_BASE_URL) then DEFAULT_KEY
    else SCOPED_PREFIX + digest(oauthHost, baseUrl)
  }

  function ResolveKey(env: Env, digest: Digest, oauthHost: Option<string>, baseUrl: Option<string>): string {
    Key(digest, NormalizeEndpoint(oauthHost.GetOr(DEFAULT_HOST)), DefaultedBaseUrl(env, baseUrl))
  }

  function PersistedHost(key: string, oauthHost: Option<string>): Option<string> {
    var normalized := NormalizeEndpoint(oauthHost.GetOr(DEFAULT_HOST));
    if key == DEFAULT_KEY && normalized == NormalizeEndpoint(DEFAULT_HOST) then None else Some(normalized)
  }

  function ManagedRef(storage: Option<Storage>, key: string, oauthHost: Option<string>): OAuthRef {
    OAuthRef(storage.GetOr(File), key, PersistedHost(key, oauthHost))
  }

  function ConfiguredRef(ref: Option<RefInput>): Option<OAuthRef> {
    if ref.None? || ref.value.key.None? then None
    else Some(ManagedRef(ref.value.storage, ref.value.key.value, ref.value.oauthHost))
  }

  function ResolveRef(env: Env, digest: Digest, oauthHost: Option<string>, baseUrl: Option<string>): OAuthRef {
    ManagedRef(None, ResolveKey(env, digest, oauthHost, baseUrl), oauthHost)
  }

  function Normalized(url: Option<string>): Option<string> {
    if url.Some? then Some(StripSlashes(url.value)) else None
  }

  function ResolveRuntimeAuth(env: Env, digest: Digest, configuredBaseUrl: Option<string>,
                              configuredRef: Option<RefInput>)
    : RuntimeAuth
  {
    var baseUrl := if env.baseUrl.Some? then Normalized(env.baseUrl) else configuredBaseUrl;
    var host := if env.Overrides() then env.OAuthHost()
                else if configuredRef.Some? then configuredRef.value.oauthHost else None;
    var expected := ResolveRef(env, digest, host, baseUrl);
    var configured := ConfiguredRef(configuredRef);
    if configured.None? || env.Overrides() || configured.value.key != expected.key then RuntimeAuth(baseUrl, expected)
    else RuntimeAuth(baseUrl, configured.value)
  }

  function ResolveLoginAuth(env: Env, digest: Digest, configuredBaseUrl: Option<string>,
                            configuredRef: Option<RefInput>,
                            requestedBaseUrl: Option<string>, requestedHost: Option<string>): LoginAuth
  {
    var baseUrl := if requestedBaseUrl.Some? then Normalized(requestedBaseUrl)
                   else if env.baseUrl.Some? then Normalized(env.baseUrl) else configuredBaseUrl;
    var host := if requestedHost.Some? then requestedHost else env.OAuthHost();
    var configured := ConfiguredRef(configuredRef);
    if requestedBaseUrl.Some? || requestedHost.Some? || env.Overrides() || configured.None? then
      LoginAuth(baseUrl, host, None)
    else if configured.value.key == ResolveKey(env, digest, configured.value.oauthHost, baseUrl) then
      LoginAuth(baseUrl, host, configured)
    else LoginAuth(baseUrl, host, None)
  }

  // ---------- The toolkit ----------

  /** `oauthHostFor`: the host to talk to. */
  function HostFor(env: Env, ref: Option<OAuthRef>, oauthHost: Option<string>): string {
    if ref.Some? && ref.value.oauthHost.Some? then ref.value.oauthHost.value else oauthHost.GetOr(env.FlowHost())
  }

  function LoginHost(env: Env, auth: LoginAuth): string {
    HostFor(env, auth.oauthRef, auth.oauthHost)
  }

  function LoginKey(env: Env, digest: Digest, auth: LoginAuth): string {
    if auth.oauthRef.Some? then auth.oauthRef.value.key
    else ResolveKey(env, digest, Some(LoginHost(env, auth)), auth.baseUrl)
  }

  /** What provisioning stores in the provider entry: its base URL and its primary reference. */
  function ProvisionedBaseUrl(env: Env, auth: LoginAuth): string {
    DefaultedBaseUrl(env, auth.baseUrl)
  }

  function ProvisionedRef(env: Env, digest: Digest, auth: LoginAuth): OAuthRef {
    ManagedRef(None, LoginKey(env, digest, auth), Some(LoginHost(env, auth)))
  }

  function AsInput(ref: OAuthRef): RefInput {
    RefInput(Some(ref.storage), Some(ref.key), ref.oauthHost)
  }

  /** What the runtime resolves once the login has been provisioned. */
  function RuntimeAfter(env: Env, digest: Digest, auth: LoginAuth): RuntimeAuth {
    ResolveRuntimeAuth(env, digest, Some(ProvisionedBaseUrl(env, auth)),
                       Some(AsInput(ProvisionedRef(env, digest, auth))))
  }

  // ---------- What the resolvers give ----------

  ghost predicate OnlySlashes(s: string) {
    forall i :: 0 <= i < |s| ==> s[i] == '/'
  }

  ghost predicate OnlySpaces(s: string) {
    forall i :: 0 <= i < |s| ==> IsSpace(s[i])
  }

  /** Stripping takes off exactly the slashes at the end. */
  lemma {:induction false} StripSlashesTakesSlashes(s: string)
    ensures var t := StripSlashes(s);
            && |t| <= |s| && t == s[..|t|] && OnlySlashes(s[|t|..]) && (t == "" || t[|t| - 1] != '/')
  {
    if s != "" && s[|s| - 1] == '/' {
      var front := s[..|s| - 1];
      StripSlashesTakesSlashes(front);
      var n := |StripSlashes(front)|;
      assert s[n..] == front[n..] + "/";
    }
  }

  lemma {:induction false} TrimStartTakesSpaces(s: string)
    ensures var t := TrimStart(s); |t| <= |s| && OnlySpaces(s[..|s| - |t|])
  {
    if s != "" && IsSpace(s[0]) {
      TrimStartTakesSpaces(s[1..]);
      assert s[..|s| - |TrimStart(s)|] == [s[0]] + s[1..][..|s| - 1 - |TrimStart(s)|];
    }
  }

  lemma {:induction false} TrimEndTakesSpaces(s: string)
    ensures var t := TrimEnd(s); |t| <= |s| && OnlySpaces(s[|t|..])
  {
    if s != "" && IsSpace(s[|s| - 1]) {
      var front := s[..|s| - 1];
      TrimEndTakesSpaces(front);
      var n := |TrimEnd(front)|;
      assert s[n..] == front[n..] + [s[|s| - 1]];
    }
  }

  /**
   * A normal form is what is left of a host without the white space around it and the slashes then at its end; what
   * is taken off is nothing else, and no more can be taken off.
   */
  lemma NormalizingTakesSpacesAndSlashes(s: string) returns (i: nat, j: nat, k: nat)
    ensures i <= k <= j <= |s| && NormalizeEndpoint(s) == s[i..k]
    ensures OnlySpaces(s[..i]) && OnlySpaces(s[j..]) && OnlySlashes(s[k..j])
    ensures i < j ==> !IsSpace(s[i]) && !IsSpace(s[j - 1])
    ensures i < k ==> s[k - 1] != '/'
  {
    i, j := TrimmedAt(s);
    StripSlashesTakesSlashes(s[i..j]);
    k := i + |StripSlashes(s[i..j])|;
    assert s[i..j][..k - i] == s[i..k] && s[i..j][k - i..] == s[k..j];
  }

  /** Where the white space at the start ends, and where that at the end begins. */
  lemma TrimmedAt(s: string) returns (i: nat, j: nat)
    ensures i <= j <= |s| && TrimEnd(TrimStart(s)) == s[i..j]
    ensures OnlySpaces(s[..i]) && OnlySpaces(s[j..])
    ensures i < j ==> !IsSpace(s[i]) && !IsSpace(s[j - 1])
  {
    var t := TrimStart(s);
    var u := TrimEnd(t);
    TrimStartShape(s);
    TrimStartTakesSpaces(s);
    TrimEndShape(t);
    TrimEndTakesSpaces(t);
    i := |s| - |t|;
    j := i + |u|;
    assert t == s[i..] && t[..|u|] == s[i..j] && t[|u|..] == s[j..];
    if i < j { assert t[0] == s[i] && u[|u| - 1] == s[j - 1]; }
  }

  /** The default host and base URL, whatever slashes follow them, keep the key from before there were others. */
  lemma DefaultsKeepDefaultKey(env: Env, digest: Digest, oauthHost: Option<string>, baseUrl: Option<string>)
    ensures var host := NormalizeEndpoint(if oauthHost.Some? then oauthHost.value else "https://auth.kimi.com");
            var url := StripSlashes(if baseUrl.Some? then baseUrl.value
                                    else if env.baseUrl.Some? then env.baseUrl.value
                                    else "https://api.kimi.com/coding/v1");
            ResolveKey(env, digest, oauthHost, baseUrl)
            == if host == "https://auth.kimi.com" && url == "https://api.kimi.com/coding/v1" then "oauth/kimi-code"
               else "oauth/kimi-code-env-" + digest(host, url)
  {
    DefaultsAreNormal();
  }

  /** A reference keeps its key and storage; the default host of the default key is left out. */
  lemma ManagedRefSays(storage: Option<Storage>, key: string, oauthHost: Option<string>)
    ensures var ref := ManagedRef(storage, key, oauthHost);
            var host := NormalizeEndpoint(if oauthHost.Some? then oauthHost.value else "https://auth.kimi.com");
            && ref.key == key && ref.storage == (if storage == Some(Keyring) then Keyring else File)
            && ref.oauthHost == if key == "oauth/kimi-code" && host == "https://auth.kimi.com" then None else Some(host)
  {
    DefaultsAreNormal();
  }

  /** A stored reference without a key is none; any other is read as it stands. */
  lemma ConfiguredRefSays(ref: Option<RefInput>)
    ensures ConfiguredRef(ref).Some? <==> ref.Some? && ref.value.key.Some?
    ensures ConfiguredRef(ref).Some? ==>
              ConfiguredRef(ref).value.key == ref.value.key.value
              && ConfiguredRef(ref).value.storage == (if ref.value.storage == Some(Keyring) then Keyring else File)
  {
  }

  /** What a login goes by: the request before the environment, and the environment before what is configured. */
  lemma LoginPrecedence(env: Env, digest: Digest, baseUrl: Option<string>, ref: Option<RefInput>,
                        requestedBaseUrl: Option<string>, requestedHost: Option<string>)
    ensures var auth := ResolveLoginAuth(env, digest, baseUrl, ref, requestedBaseUrl, requestedHost);
            && ProvisionedBaseUrl(env, auth)
               == StripSlashes(if requestedBaseUrl.Some? then requestedBaseUrl.value
                               else if env.baseUrl.Some? then env.baseUrl.value
                               else if baseUrl.Some? then baseUrl.value
                               else "https://api.kimi.com/coding/v1")
            && (requestedHost.Some? ==> LoginHost(env, auth) == requestedHost.value)
            && (requestedHost.None? && env.codeHost.Some? ==> LoginHost(env, auth) == env.codeHost.value)
            && (requestedHost.None? && env.codeHost.None? && env.legacyHost.Some? ==>
                  LoginHost(env, auth) == env.legacyHost.value)
            && (requestedHost.None? && env.codeHost.None? && env.legacyHost.None? ==>
                  LoginHost(env, auth)
                  == if auth.oauthRef.Some? && auth.oauthRef.value.oauthHost.Some? then
                       auth.oauthRef.value.oauthHost.value
                     else "https://auth.kimi.com")
            && (auth.oauthRef.Some? ==> auth.oauthRef == ConfiguredRef(ref))
  {
    if requestedBaseUrl.Some? { StripSlashesTwice(requestedBaseUrl.value); }
    if env.baseUrl.Some? { StripSlashesTwice(env.baseUrl.value); }
  }

  /** A login without any override goes by the configured reference exactly when its key is that of its environment. */
  lemma LoginUsesConfigured(env: Env, digest: Digest, baseUrl: Option<string>, ref: Option<RefInput>)
    requires env.baseUrl.None? && env.codeHost.None? && env.legacyHost.None?
    ensures var auth, configured := ResolveLoginAuth(env, digest, baseUrl, ref, None, None), ConfiguredRef(ref);
            auth.oauthRef
            == if configured.Some?
                  && configured.value.key == ResolveKey(env, digest, configured.value.oauthHost, baseUrl)
               then configured else None
  {
  }

  /** What the runtime goes by: the environment if it says anything, and else what is configured. */
  lemma RuntimePrecedence(env: Env, digest: Digest, baseUrl: Option<string>, ref: Option<RefInput>)
    ensures var auth := ResolveRuntimeAuth(env, digest, baseUrl, ref);
            var overridden := env.baseUrl.Some? || env.codeHost.Some? || env.legacyHost.Some?;
            var host := if env.codeHost.Some? then env.codeHost
                        else if env.legacyHost.Some? then env.legacyHost
                        else if !overridden && ref.Some? then ref.value.oauthHost else None;
            && auth.baseUrl == (if env.baseUrl.Some? then Some(StripSlashes(env.baseUrl.value)) else baseUrl)
            && auth.oauthRef.key == ResolveKey(env, digest, host, auth.baseUrl)
            && (auth.oauthRef == ManagedRef(None, auth.oauthRef.key, host)
                || (!overridden && ConfiguredRef(ref) == Some(auth.oauthRef)))
  {
  }

  // ---------- The slot that is written is the slot that is read ----------

  /** A resolved login always keys its slot by its own host and base URL. */
  lemma LoginKeyIsItsOwn(env: Env, digest: Digest, baseUrl: Option<string>, ref: Option<RefInput>,
                         requestedBaseUrl: Option<string>, requestedHost: Option<string>)
    ensures var auth := ResolveLoginAuth(env, digest, baseUrl, ref, requestedBaseUrl, requestedHost);
            LoginKey(env, digest, auth)
            == Key(digest, NormalizeEndpoint(LoginHost(env, auth)), ProvisionedBaseUrl(env, auth))
  {
  }

  /** A host survives being persisted and read back, up to normalisation. */
  lemma PersistedHostReadsBack(key: string, host: string)
    ensures NormalizeEndpoint(PersistedHost(key, Some(host)).GetOr(DEFAULT_HOST))
         == if key == DEFAULT_KEY && NormalizeEndpoint(host) == NormalizeEndpoint(DEFAULT_HOST)
            then NormalizeEndpoint(host) else NormalizeEndpoint(NormalizeEndpoint(host))
  {
  }

  lemma DefaultsAreNormal()
    ensures NormalizeEndpoint(DEFAULT_HOST) == DEFAULT_HOST && NormalizeEndpoint(DEFAULT_BASE_URL) == DEFAULT_BASE_URL
    ensures Settled(DEFAULT_HOST)
  {
  }

  /** Without environment overrides the runtime goes by what was persisted. */
  lemma RuntimeFromConfig(env: Env, digest: Digest, auth: LoginAuth)
    requires !env.Overrides()
    requires LoginKey(env, digest, auth)
          == Key(digest, NormalizeEndpoint(LoginHost(env, auth)), ProvisionedBaseUrl(env, auth))
    ensures var persisted := ProvisionedRef(env, digest, auth).oauthHost;
            var runtime := RuntimeAfter(env, digest, auth).oauthRef;
            && runtime.key
               == Key(digest, NormalizeEndpoint(persisted.GetOr(DEFAULT_HOST)), ProvisionedBaseUrl(env, auth))
            && runtime.oauthHost == PersistedHost(runtime.key, persisted)
  {
    StripSlashesTwice(auth.baseUrl.GetOr(env.baseUrl.GetOr(DEFAULT_BASE_URL)));
  }

  /** With environment overrides it goes by the environment, as the login did. */
  lemma RuntimeFromEnv(env: Env, digest: Digest, auth: LoginAuth)
    requires env.Overrides() && auth.oauthRef.None? && auth.oauthHost == env.OAuthHost()
    requires auth.baseUrl == Normalized(env.baseUrl) || env.baseUrl.None?
    ensures var runtime := RuntimeAfter(env, digest, auth).oauthRef;
            && runtime.key == LoginKey(env, digest, auth)
            && runtime.oauthHost == PersistedHost(runtime.key, env.OAuthHost())
  {
    StripSlashesTwice(auth.baseUrl.GetOr(env.baseUrl.GetOr(DEFAULT_BASE_URL)));
    if env.baseUrl.Some? { StripSlashesTwice(env.baseUrl.value); }
  }

  lemma FromConfigAgrees(env: Env, digest: Digest, auth: LoginAuth)
    requires !env.Overrides() && Settled(LoginHost(env, auth))
    requires LoginKey(env, digest, auth)
          == Key(digest, NormalizeEndpoint(LoginHost(env, auth)), ProvisionedBaseUrl(env, auth))
    ensures var runtime := RuntimeAfter(env, digest, auth).oauthRef;
            && runtime.key == LoginKey(env, digest, auth)
            && NormalizeEndpoint(HostFor(env, Some(runtime), None)) == NormalizeEndpoint(LoginHost(env, auth))
  {
    var key, host := LoginKey(env, digest, auth), LoginHost(env, auth);
    var persisted := PersistedHost(key, Some(host));
    DefaultsAreNormal();
    RuntimeFromConfig(env, digest, auth);
    PersistedHostReadsBack(key, host);
    assert NormalizeEndpoint(persisted.GetOr(DEFAULT_HOST)) == NormalizeEndpoint(host);
  }

  lemma FromEnvAgrees(env: Env, digest: Digest, auth: LoginAuth)
    requires env.Overrides() && auth.oauthRef.None? && auth.oauthHost == env.OAuthHost()
    requires auth.baseUrl == Normalized(env.baseUrl) || env.baseUrl.None?
    requires Settled(LoginHost(env, auth))
    ensures var runtime := RuntimeAfter(env, digest, auth).oauthRef;
            NormalizeEndpoint(HostFor(env, Some(runtime), None)) == NormalizeEndpoint(LoginHost(env, auth))
  {
    var key := LoginKey(env, digest, auth);
    RuntimeFromEnv(env, digest, auth);
    DefaultsAreNormal();
    assert LoginHost(env, auth) == env.FlowHost();
  }

  /**
   * For every configuration, environment and request, as long as the environment and the request do not both
   * override: the runtime reads the slot the login wrote, and talks to the host the token came from.
   */
  lemma LoginSlotIsRuntimeSlot(env: Env, digest: Digest, baseUrl: Option<string>, ref: Option<RefInput>,
                               requestedBaseUrl: Option<string>, requestedHost: Option<string>)
    requires env.Overrides() ==> requestedBaseUrl.None? && requestedHost.None?
    ensures var auth := ResolveLoginAuth(env, digest, baseUrl, ref, requestedBaseUrl, requestedHost);
            var runtime := RuntimeAfter(env, digest, auth).oauthRef;
            Settled(LoginHost(env, auth)) ==>
              && runtime.key == LoginKey(env, digest, auth)
              && NormalizeEndpoint(HostFor(env, Some(runtime), None)) == NormalizeEndpoint(LoginHost(env, auth))
    ensures env.Overrides() ==>
              var auth := ResolveLoginAuth(env, digest, baseUrl, ref, requestedBaseUrl, requestedHost);
              RuntimeAfter(env, digest, auth).oauthRef.key == LoginKey(env, digest, auth)
  {
    var auth := ResolveLoginAuth(env, digest, baseUrl, ref, requestedBaseUrl, requestedHost);
    LoginKeyIsItsOwn(env, digest, baseUrl, ref, requestedBaseUrl, requestedHost);
    if env.Overrides() {
      RuntimeFromEnv(env, digest, auth);
      if Settled(LoginHost(env, auth)) { FromEnvAgrees(env, digest, auth); }
    } else if Settled(LoginHost(env, auth)) {
      FromConfigAgrees(env, digest, auth);
    }
  }

  /** Digests without collisions. */
  ghost predicate Injective(digest: Digest) {
    forall a, b, c, d :: digest(a, b) == digest(c, d) ==> a == c && b == d
  }

  lemma KeyInjective(digest: Digest, a: string, b: string, c: string, d: string)
    requires Injective(digest) && Key(digest, a, b) == Key(digest, c, d)
    ensures a == c && b == d
  {
    assert |SCOPED_PREFIX + digest(a, b)| >= |SCOPED_PREFIX| > |DEFAULT_KEY|;
    assert |SCOPED_PREFIX + digest(c, d)| > |DEFAULT_KEY|;
    if Key(digest, a, b) != DEFAULT_KEY {
      assert digest(a, b) == (SCOPED_PREFIX + digest(a, b))[|SCOPED_PREFIX|..];
      assert digest(c, d) == (SCOPED_PREFIX + digest(c, d))[|SCOPED_PREFIX|..];
    }
  }

  /** Without environment overrides and digest collisions the slots agree exactly for the settled hosts. */
  lemma SlotAgreesIffSettled(env: Env, digest: Digest, baseUrl: Option<string>, ref: Option<RefInput>,
                             requestedBaseUrl: Option<string>, requestedHost: Option<string>)
    requires !env.Overrides() && Injective(digest)
    ensures var auth := ResolveLoginAuth(env, digest, baseUrl, ref, requestedBaseUrl, requestedHost);
            RuntimeAfter(env, digest, auth).oauthRef.key == LoginKey(env, digest, auth)
            <==> Settled(LoginHost(env, auth))
  {
    var auth := ResolveLoginAuth(env, digest, baseUrl, ref, requestedBaseUrl, requestedHost);
    var key, host := LoginKey(env, digest, auth), LoginHost(env, auth);
    LoginKeyIsItsOwn(env, digest, baseUrl, ref, requestedBaseUrl, requestedHost);
    if Settled(host) {
      FromConfigAgrees(env, digest, auth);
    } else {
      RuntimeFromConfig(env, digest, auth);
      PersistedHostReadsBack(key, host);
      DefaultsAreNormal();
      if RuntimeAfter(env, digest, auth).oauthRef.key == key {
        KeyInjective(digest, NormalizeEndpoint(host), ProvisionedBaseUrl(env, auth),
                     NormalizeEndpoint(PersistedHost(key, Some(host)).GetOr(DEFAULT_HOST)),
                     ProvisionedBaseUrl(env, auth));
      }
    }
  }

  /** Such a host: the login with `"a /"` keys by `"a "`, and the runtime by `"a"`. */
  lemma UnsettledHostMovesSlot(digest: Digest)
    requires Injective(digest)
    ensures var env := Env(None, None, None);
            var auth := ResolveLoginAuth(env, digest, None, None, None, Some("a /"));
            RuntimeAfter(env, digest, auth).oauthRef.key != LoginKey(env, digest, auth)
  {
    UnsettledHost();
    SlotAgreesIffSettled(Env(None, None, None), digest, None, None, None, Some("a /"));
  }

  /**
   * With environment overrides the runtime ignores what the login asked for, so the slots agree exactly when the
   * request asked for nothing else than the environment.
   */
  lemma SlotAgreesIffRequestIsEnvironment(env: Env, digest: Digest, baseUrl: Option<string>, ref: Option<RefInput>,
                                          requestedBaseUrl: Option<string>, requestedHost: Option<string>)
    requires env.Overrides() && Injective(digest)
    ensures var auth := ResolveLoginAuth(env, digest, baseUrl, ref, requestedBaseUrl, requestedHost);
            RuntimeAfter(env, digest, auth).oauthRef.key == LoginKey(env, digest, auth)
            <==> (requestedHost.Some? ==> NormalizeEndpoint(requestedHost.value) == NormalizeEndpoint(env.FlowHost()))
                 && (requestedBaseUrl.Some? && env.baseUrl.Some? ==>
                       StripSlashes(requestedBaseUrl.value) == StripSlashes(env.baseUrl.value))
  {
    var auth := ResolveLoginAuth(env, digest, baseUrl, ref, requestedBaseUrl, requestedHost);
    LoginKeyIsItsOwn(env, digest, baseUrl, ref, requestedBaseUrl, requestedHost);
    var base := ProvisionedBaseUrl(env, auth);
    StripSlashesTwice(auth.baseUrl.GetOr(env.baseUrl.GetOr(DEFAULT_BASE_URL)));
    if requestedBaseUrl.Some? { StripSlashesTwice(requestedBaseUrl.value); }
    if env.baseUrl.Some? { StripSlashesTwice(env.baseUrl.value); }
    var runtimeBase := if env.baseUrl.Some? then StripSlashes(env.baseUrl.value) else base;
    assert RuntimeAfter(env, digest, auth).oauthRef.key
        == Key(digest, NormalizeEndpoint(env.FlowHost()), runtimeBase);
    if RuntimeAfter(env, digest, auth).oauthRef.key == LoginKey(env, digest, auth) {
      KeyInjective(digest, NormalizeEndpoint(LoginHost(env, auth)), base, NormalizeEndpoint(env.FlowHost()),
                   runtimeBase);
    }
  }

  /** Such a request: the environment names one host, the request another. */
  lemma ContraryRequestMovesSlot(digest: Digest)
    requires Injective(digest)
    ensures var env := Env(None, Some("a"), None);
            var auth := ResolveLoginAuth(env, digest, None, None, None, Some("b"));
            RuntimeAfter(env, digest, auth).oauthRef.key != LoginKey(env, digest, auth)
  {
    var a, b := "a", "b";
    assert TrimStart(a) == a && TrimEnd(a) == a && StripSlashes(a) == a;
    assert TrimStart(b) == b && TrimEnd(b) == b && StripSlashes(b) == b && a[0] != b[0];
    SlotAgreesIffRequestIsEnvironment(Env(None, Some("a"), None), digest, None, None, None, Some("b"));
  }

  /**
   * Logging in again with nothing but the provisioned configuration uses the same slot, unless the first login
   * asked for something else than the environment.
   */
  lemma SecondLoginKeepsSlot(env: Env, digest: Digest, baseUrl: Option<string>, ref: Option<RefInput>,
                             requestedBaseUrl: Option<string>, requestedHost: Option<string>)
    requires env.Overrides() ==> requestedBaseUrl.None? && requestedHost.None?
    ensures var auth := ResolveLoginAuth(env, digest, baseUrl, ref, requestedBaseUrl, requestedHost);
            env.Overrides() || Settled(LoginHost(env, auth)) ==>
              LoginKey(env, digest, LoginAgain(env, digest, auth)) == LoginKey(env, digest, auth)
  {
    var auth := ResolveLoginAuth(env, digest, baseUrl, ref, requestedBaseUrl, requestedHost);
    LoginKeyIsItsOwn(env, digest, baseUrl, ref, requestedBaseUrl, requestedHost);
    LoginKeyIsItsOwn(env, digest, Some(ProvisionedBaseUrl(env, auth)), Some(AsInput(ProvisionedRef(env, digest, auth))),
                     None, None);
    StripSlashesTwice(auth.baseUrl.GetOr(env.baseUrl.GetOr(DEFAULT_BASE_URL)));
    if env.Overrides() {
      if env.baseUrl.Some? { StripSlashesTwice(env.baseUrl.value); }
    } else if Settled(LoginHost(env, auth)) {
      SecondLoginFromConfig(env, digest, auth);
    }
  }

  /** What a login without a request resolves to after `auth` has been provisioned. */
  function LoginAgain(env: Env, digest: Digest, auth: LoginAuth): LoginAuth {
    ResolveLoginAuth(env, digest, Some(ProvisionedBaseUrl(env, auth)), Some(AsInput(ProvisionedRef(env, digest, auth))),
                     None, None)
  }

  lemma SecondLoginFromConfig(env: Env, digest: Digest, auth: LoginAuth)
    requires !env.Overrides() && Settled(LoginHost(env, auth))
    requires LoginKey(env, digest, auth)
          == Key(digest, NormalizeEndpoint(LoginHost(env, auth)), ProvisionedBaseUrl(env, auth))
    ensures LoginKey(env, digest, LoginAgain(env, digest, auth)) == LoginKey(env, digest, auth)
  {
    var key, host := LoginKey(env, digest, auth), LoginHost(env, auth);
    var base := ProvisionedBaseUrl(env, auth);
    var persisted := PersistedHost(key, Some(host));
    var stored := ConfiguredRef(Some(AsInput(ProvisionedRef(env, digest, auth)))).value;
    StripSlashesTwice(auth.baseUrl.GetOr(env.baseUrl.GetOr(DEFAULT_BASE_URL)));
    PersistedHostReadsBack(key, host);
    DefaultsAreNormal();
    PersistedHostAgain(key, persisted);
    assert stored.key == key && stored.oauthHost == PersistedHost(key, persisted);
    assert ResolveKey(env, digest, stored.oauthHost, Some(base)) == key;
  }

  lemma PersistedHostAgain(key: string, host: Option<string>)
    requires Settled(host.GetOr(DEFAULT_HOST))
    ensures NormalizeEndpoint(PersistedHost(key, host).GetOr(DEFAULT_HOST))
         == NormalizeEndpoint(host.GetOr(DEFAULT_HOST))
  {
    DefaultsAreNormal();
  }

  // ---------- Storage names ----------

  function StorageName(providerName: string, key: string): Result<string, string> {
    if providerName != PROVIDER_NAME then Err("No OAuth manager configured for provider.")
    else if key == "kimi-code" || key == DEFAULT_KEY then Ok("kimi-code")
    else if |key| > 6 && key[..6] == "oauth/" then Ok(key[6..])
    else if '/' !in key && !(key != "" && key[0] == '.') then Ok(key)
    else Err("Invalid Kimi OAuth token key.")
  }

  /** The name under which a key is stored, and the keys and providers that have none. */
  lemma StorageNameSays(provider: string, key: string)
    ensures StorageName(provider, key).Ok? <==>
              provider == "managed:kimi-code"
              && ((|key| > 6 && "oauth/" <= key) || ('/' !in key && (key == "" || key[0] != '.')))
    ensures StorageName(provider, key).Ok? ==>
              StorageName(provider, key).value
              == if key == "oauth/kimi-code" then "kimi-code"
                 else if |key| > 6 && "oauth/" <= key then key[6..]
                 else key
    ensures StorageName(provider, key).Err? ==>
              StorageName(provider, key).error
              == if provider != "managed:kimi-code" then "No OAuth manager configured for provider."
                 else "Invalid Kimi OAuth token key."
  {
    assert "kimi-code"[0] == 'k' && forall i :: 0 <= i < |"kimi-code"| ==> "kimi-code"[i] != '/';
    assert "oauth/kimi-code"[..6] == "oauth/";
  }

  /** Resolved keys name storage of their own: two environments share a file only if they are the same. */
  lemma SlotsSeparateEnvironments(digest: Digest, a: string, b: string, c: string, d: string)
    requires Injective(digest)
    ensures StorageName(PROVIDER_NAME, Key(digest, a, b)).Ok?
    ensures StorageName(PROVIDER_NAME, Key(digest, a, b)) == StorageName(PROVIDER_NAME, Key(digest, c, d))
       <==> a == c && b == d
  {
    KeyStorage(digest, a, b);
    KeyStorage(digest, c, d);
    if StorageName(PROVIDER_NAME, Key(digest, a, b)) == StorageName(PROVIDER_NAME, Key(digest, c, d)) {
      var k, l := Key(digest, a, b), Key(digest, c, d);
      assert k == "oauth/" + k[6..] && l == "oauth/" + l[6..];
      KeyInjective(digest, a, b, c, d);
    }
  }

  lemma KeyStorage(digest: Digest, a: string, b: string)
    ensures var k := Key(digest, a, b);
            |k| > 6 && k[..6] == "oauth/" && StorageName(PROVIDER_NAME, k) == Ok(k[6..])
  {
    var k := Key(digest, a, b);
    if k == DEFAULT_KEY {
      assert DEFAULT_KEY[6..] == "kimi-code";
    } else {
      assert |SCOPED_PREFIX| > 9 && SCOPED_PREFIX[..6] == "oauth/";
    }
  }

  // ---------- The pool of credentials ----------

  predicate SameRef(a: OAuthRef, b: OAuthRef) {
    a.storage == b.storage && a.key == b.key && a.oauthHost.GetOr("") == b.oauthHost.GetOr("")
  }

  predicate Listed(ref: OAuthRef, refs: seq<OAuthRef>) {
    exists i :: 0 <= i < |refs| && SameRef(refs[i], ref)
  }

  ghost predicate Distinct(refs: seq<OAuthRef>) {
    forall i, j :: 0 <= i < j < |refs| ==> !SameRef(refs[i], refs[j])
  }

  /** The references without repetitions: of equal ones the first stays. */
  function Unique(refs: seq<OAuthRef>): seq<OAuthRef> {
    if refs == [] then []
    else
      var unique, last := Unique(refs[..|refs| - 1]), refs[|refs| - 1];
      if Listed(last, unique) then unique else unique + [last]
  }

  lemma ListedSnoc(ref: OAuthRef, refs: seq<OAuthRef>, last: OAuthRef)
    ensures Listed(ref, refs + [last]) <==> Listed(ref, refs) || SameRef(last, ref)
  {
    var more := refs + [last];
    if i :| 0 <= i < |refs| && SameRef(refs[i], ref) { assert SameRef(more[i], ref); }
    if SameRef(last, ref) { assert SameRef(more[|refs|], ref); }
  }

  /** Nothing is lost, nothing is there twice, nothing is added, and the first reference stays in front. */
  lemma {:induction false} UniqueKeeps(refs: seq<OAuthRef>)
    ensures Distinct(Unique(refs))
    ensures forall r :: Listed(r, refs) <==> Listed(r, Unique(refs))
    ensures forall r :: r in Unique(refs) ==> r in refs
    ensures refs != [] ==> Unique(refs) != [] && Unique(refs)[0] == refs[0]
  {
    if refs != [] {
      var front, last := refs[..|refs| - 1], refs[|refs| - 1];
      var unique := Unique(front);
      UniqueKeeps(front);
      assert refs == front + [last];
      forall r ensures Listed(r, refs) <==> Listed(r, Unique(refs)) {
        ListedSnoc(r, front, last);
        ListedSnoc(r, unique, last);
        if SameRef(last, r) && Listed(last, unique) {
          var i :| 0 <= i < |unique| && SameRef(unique[i], last);
          assert SameRef(unique[i], r);
        }
      }
    }
  }

  /** References are the same when storage, key and host are, a missing host being like an empty one. */
  lemma SameRefSays(a: OAuthRef, b: OAuthRef)
    ensures SameRef(a, b) <==>
              a.storage == b.storage && a.key == b.key
              && (a.oauthHost == b.oauthHost || (a.oauthHost in {None, Some("")} && b.oauthHost in {None, Some("")}))
  {
  }

  /** The references that stay, stay in order: each is where those before it leave it. */
  lemma {:induction false} UniqueGrows(refs: seq<OAuthRef>, n: nat)
    requires n <= |refs|
    ensures Unique(refs[..n]) <= Unique(refs)
    decreases |refs| - n
  {
    if n == |refs| {
      assert refs[..n] == refs;
    } else {
      UniqueGrows(refs, n + 1);
      assert refs[..n + 1][..n] == refs[..n];
    }
  }

  method UniqueRefs(refs: seq<OAuthRef>) returns (unique: seq<OAuthRef>)
    ensures unique == Unique(refs)
  {
    unique := [];
    for i := 0 to |refs|
      invariant unique == Unique(refs[..i])
    {
      assert refs[..i + 1][..i] == refs[..i];
      if !Listed(refs[i], unique) { unique := unique + [refs[i]]; }
    }
    assert refs[..|refs|] == refs;
  }

  /** A provider's stored references: its primary one and its fallbacks. */
  datatype StoredRefs = StoredRefs(oauth: Option<RefInput>, oauths: seq<RefInput>)

  function Configured(ref: Option<RefInput>): seq<OAuthRef> {
    var configured := ConfiguredRef(ref);
    if configured.Some? then [configured.value] else []
  }

  function ConfiguredAll(refs: seq<RefInput>): seq<OAuthRef> {
    if refs == [] then [] else ConfiguredAll(refs[..|refs| - 1]) + Configured(Some(refs[|refs| - 1]))
  }

  function Candidates(existing: Option<StoredRefs>): seq<OAuthRef> {
    if existing.None? then [] else Configured(existing.value.oauth) + ConfiguredAll(existing.value.oauths)
  }

  function Pool(primary: OAuthRef, existing: Option<StoredRefs>): seq<OAuthRef> {
    Unique([primary] + Candidates(existing))
  }

  ghost predicate Stored(existing: Option<StoredRefs>, ref: OAuthRef) {
    && existing.Some?
    && (ConfiguredRef(existing.value.oauth) == Some(ref)
        || exists i :: 0 <= i < |existing.value.oauths| && ConfiguredRef(Some(existing.value.oauths[i])) == Some(ref))
  }

  lemma {:induction false} ConfiguredAllGives(refs: seq<RefInput>, ref: OAuthRef) returns (i: nat)
    requires ref in ConfiguredAll(refs)
    ensures i < |refs| && ConfiguredRef(Some(refs[i])) == Some(ref)
  {
    i := |refs| - 1;
    if ref in ConfiguredAll(refs[..i]) { i := ConfiguredAllGives(refs[..i], ref); }
  }

  lemma {:induction false} ConfiguredAllKeeps(refs: seq<RefInput>, i: nat)
    requires i < |refs| && ConfiguredRef(Some(refs[i])).Some?
    ensures ConfiguredRef(Some(refs[i])).value in ConfiguredAll(refs)
  {
    if i < |refs| - 1 { ConfiguredAllKeeps(refs[..|refs| - 1], i); }
  }

  lemma CandidatesAreStored(existing: Option<StoredRefs>, r: OAuthRef)
    ensures r in Candidates(existing) <==> Stored(existing, r)
  {
    if existing.Some? {
      var refs := existing.value.oauths;
      if r in ConfiguredAll(refs) { var i := ConfiguredAllGives(refs, r); }
      if i :| 0 <= i < |refs| && ConfiguredRef(Some(refs[i])) == Some(r) { ConfiguredAllKeeps(refs, i); }
    }
  }

  /** The new reference leads the pool, every stored one is kept, none is there twice, and no other is added. */
  lemma PoolKeepsCredentials(primary: OAuthRef, existing: Option<StoredRefs>)
    ensures var pool := Pool(primary, existing);
            && pool != [] && pool[0] == primary && Distinct(pool)
            && (forall r :: r in pool ==> r == primary || Stored(existing, r))
            && (forall r :: Stored(existing, r) ==> Listed(r, pool))
  {
    var refs := [primary] + Candidates(existing);
    UniqueKeeps(refs);
    forall r ensures r in refs <==> r == primary || Stored(existing, r) { CandidatesAreStored(existing, r); }
    forall r | Stored(existing, r) ensures Listed(r, Pool(primary, existing)) {
      var i :| 0 <= i < |refs| && refs[i] == r;
      assert SameRef(refs[i], r);
    }
  }

  /** `managedOAuthPool`. */
  method OAuthPool(primary: OAuthRef, existing: Option<StoredRefs>) returns (pool: seq<OAuthRef>)
    ensures pool == Pool(primary, existing)
  {
    var stored := [];
    if existing.Some? {
      var fallbacks := existing.value.oauths;
      for i := 0 to |fallbacks|
        invariant stored == ConfiguredAll(fallbacks[..i])
      {
        assert fallbacks[..i + 1][..i] == fallbacks[..i];
        stored := stored + Configured(Some(fallbacks[i]));
      }
      assert fallbacks[..|fallbacks|] == fallbacks;
      stored := Configured(existing.value.oauth) + stored;
    }
    pool := UniqueRefs([primary] + stored);
  }

  // ---------- Refreshing from the configuration ----------

  /** What the managed refresh resolves, and what it then stores: base URL and primary reference. */
  function RefreshedBaseUrl(env: Env, auth: RuntimeAuth): string {
    DefaultedBaseUrl(env, auth.baseUrl)
  }

  function RefreshedRef(auth: RuntimeAuth): OAuthRef {
    ManagedRef(None, auth.oauthRef.key, auth.oauthRef.oauthHost)
  }

  /** The host a configuration's runtime goes by. */
  function RuntimeHost(env: Env, ref: Option<RefInput>): string {
    (if env.Overrides() then env.OAuthHost() else if ref.Some? then ref.value.oauthHost else None).GetOr(DEFAULT_HOST)
  }

  lemma RuntimeIsKeyedByHost(env: Env, digest: Digest, baseUrl: Option<string>, ref: Option<RefInput>)
    ensures var auth := ResolveRuntimeAuth(env, digest, baseUrl, ref);
            && auth.oauthRef.key
               == Key(digest, NormalizeEndpoint(RuntimeHost(env, ref)), DefaultedBaseUrl(env, auth.baseUrl))
            && auth.oauthRef.oauthHost == PersistedHost(auth.oauthRef.key, Some(RuntimeHost(env, ref)))
  {
  }

  /** Refreshing the models does not move the credential slot. */
  lemma RefreshKeepsSlot(env: Env, digest: Digest, baseUrl: Option<string>, ref: Option<RefInput>)
    requires env.Overrides() || Settled(RuntimeHost(env, ref))
    ensures var auth := ResolveRuntimeAuth(env, digest, baseUrl, ref);
            ResolveRuntimeAuth(env, digest, Some(RefreshedBaseUrl(env, auth)), Some(AsInput(RefreshedRef(auth))))
              .oauthRef.key == auth.oauthRef.key
  {
    var auth := ResolveRuntimeAuth(env, digest, baseUrl, ref);
    var key, host := auth.oauthRef.key, RuntimeHost(env, ref);
    var base, stored := Some(RefreshedBaseUrl(env, auth)), Some(AsInput(RefreshedRef(auth)));
    RuntimeIsKeyedByHost(env, digest, baseUrl, ref);
    RuntimeIsKeyedByHost(env, digest, base, stored);
    StripSlashesTwice(auth.baseUrl.GetOr(env.baseUrl.GetOr(DEFAULT_BASE_URL)));
    if env.baseUrl.Some? { StripSlashesTwice(env.baseUrl.value); }
    if !env.Overrides() {
      PersistedHostAgain(key, Some(host));
      SettledAgain(key, host);
      PersistedHostAgain(key, PersistedHost(key, Some(host)));
    }
  }

  lemma SettledAgain(key: string, host: string)
    requires Settled(host)
    ensures Settled(PersistedHost(key, Some(host)).GetOr(DEFAULT_HOST))
  {
    DefaultsAreNormal();
  }
}
