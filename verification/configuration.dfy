/**
 * The client configuration record and how the builder's constructor fills it from the merged
 * properties: the known keys, the two unescaped values and the per-resource cache overrides.
 * Number, boolean and enum parsing and class lookup by name are parameters (`Conversions`).
 */
module Configuration {
  import opened Wrappers
  import opened Strings
  import opened Sources

  // Recognised property names (declared on the ClientBuilder interface).
  const Prefix := "stormpath.client."
  const ApiKeyFileKey := Prefix + "apiKey.file"
  const ApiKeyIdKey := Prefix + "apiKey.id"
  const ApiKeySecretKey := Prefix + "apiKey.secret"
  const CacheEnabledKey := Prefix + "cacheManager.enabled"
  const CacheTtlKey := Prefix + "cacheManager.defaultTtl"
  const CacheTtiKey := Prefix + "cacheManager.defaultTti"
  const CachesKey := Prefix + "cacheManager.caches"
  const BaseUrlKey := Prefix + "baseUrl"
  const ConnectionTimeoutKey := Prefix + "connectionTimeout"
  const AuthenticationSchemeKey := Prefix + "authenticationScheme"
  const ProxyPortKey := Prefix + "proxy.port"
  const ProxyHostKey := Prefix + "proxy.host"
  const ProxyUsernameKey := Prefix + "proxy.username"
  const ProxyPasswordKey := Prefix + "proxy.password"

  /** Values of types the builder only passes along, identified by name or by identity. */
  datatype AuthenticationScheme = AuthenticationScheme(name: string)
  datatype ResourceClass = ResourceClass(name: string)
  datatype ApiKeyResolver = ApiKeyResolver(id: nat)
  datatype BaseUrlResolver = BaseUrlResolver(id: nat)
  datatype TenantResolver = TenantResolver(id: nat)
  datatype RequestAuthenticatorFactory = RequestAuthenticatorFactory(id: nat)

  /** The cache configuration for one resource class, with its own time-to-idle and time-to-live in seconds. */
  datatype CacheOverride = CacheOverride(resource: ResourceClass, timeToIdle: Option<int>, timeToLive: Option<int>)

  datatype ClientConfiguration = ClientConfiguration(
    apiKeyFile: Option<string>,
    apiKeyId: Option<string>,
    apiKeySecret: Option<string>,
    cacheManagerEnabled: bool,
    cacheManagerTtl: int,
    cacheManagerTti: int,
    cacheManagerCaches: map<string, CacheOverride>,
    baseUrl: Option<string>,
    connectionTimeout: int,
    authenticationScheme: Option<AuthenticationScheme>,
    proxyPort: int,
    proxyHost: Option<string>,
    proxyUsername: Option<string>,
    proxyPassword: Option<string>,
    apiKeyResolver: Option<ApiKeyResolver>,
    baseUrlResolver: Option<BaseUrlResolver>,
    tenantResolver: Option<TenantResolver>,
    requestAuthenticatorFactory: Option<RequestAuthenticatorFactory>)

  /** A fresh configuration: caching on with five-minute TTL and TTI, everything else unset. */
  const DefaultConfiguration := ClientConfiguration(
    None, None, None, true, 300, 300, map[], None, 0, None, 0, None, None, None, None, None, None, None)

  /**
   * The parsers the constructor applies to property values: `Boolean.valueOf` (never fails),
   * `Long.valueOf`, `Integer.valueOf`, `Enum.valueOf` on the scheme, and the class lookup of a
   * resource name; `None` is the exception the parser throws.
   */
  datatype Conversions = Conversions(
    parseBoolean: string -> bool,
    parseLong: string -> Option<int>,
    parseInt: string -> Option<int>,
    parseScheme: string -> Option<AuthenticationScheme>,
    classForName: string -> Option<ResourceClass>)

  /** Why the constructor throws. */
  datatype ConfigError =
    | NotANumber(key: string)
    | UnknownScheme(value: string)
    | UnknownResourceClass(name: string)
    | MalformedCacheKey(key: string)

  // ---------------------------------------------------------------------------------------
  // Per-resource cache overrides: keys `<prefix>.<ResourceClass>.tti` and `.ttl`.

  /** A key the cache loop looks at: it starts with the prefix and is not the prefix itself. */
  predicate IsCacheKey(prefix: string, key: string) {
    |key| != |prefix| && StartsWith(key, prefix)
  }

  /**
   * The resource name in a cache key: the text between the character after the prefix and the
   * last four characters; `None` where `substring` would throw, a key too short for both.
   */
  function CacheName(prefix: string, key: string): (r: Option<string>)
    ensures r.Some? <==> |prefix| + 5 <= |key|
    ensures r.Some? ==> |r.value| == |key| - |prefix| - 5
    ensures r.Some? ==> key == key[..|prefix| + 1] + r.value + key[|key| - 4..]
  {
    if |prefix| + 1 <= |key| - 4 then Some(key[|prefix| + 1..|key| - 4]) else None
  }

  function TtiKey(prefix: string, name: string): string { prefix + "." + name + ".tti" }
  function TtlKey(prefix: string, name: string): string { prefix + "." + name + ".ttl" }

  /** The override built for a resource name, or the error its lookup or parsing raises. */
  function CacheEntry(prefix: string, name: string, props: PropertyMap, conv: Conversions): (r: Result<CacheOverride, ConfigError>)
    ensures conv.classForName(name).None? ==> r == Failure(UnknownResourceClass(name))
    ensures conv.classForName(name).Some? && TtiKey(prefix, name) in props &&
            conv.parseLong(props[TtiKey(prefix, name)]).None?
            ==> r == Failure(NotANumber(TtiKey(prefix, name)))
    ensures conv.classForName(name).Some? &&
            !(TtiKey(prefix, name) in props && conv.parseLong(props[TtiKey(prefix, name)]).None?) &&
            TtlKey(prefix, name) in props && conv.parseLong(props[TtlKey(prefix, name)]).None?
            ==> r == Failure(NotANumber(TtlKey(prefix, name)))
    ensures r.Failure?
            ==> r.error in {UnknownResourceClass(name), NotANumber(TtiKey(prefix, name)), NotANumber(TtlKey(prefix, name))}
    ensures r.Success?
            <==> (conv.classForName(name).Some? &&
                  (TtiKey(prefix, name) in props ==> conv.parseLong(props[TtiKey(prefix, name)]).Some?) &&
                  (TtlKey(prefix, name) in props ==> conv.parseLong(props[TtlKey(prefix, name)]).Some?))
    ensures r.Success? ==> r.value.resource == conv.classForName(name).value
    ensures r.Success? ==> (r.value.timeToIdle.Some? <==> TtiKey(prefix, name) in props)
    ensures r.Success? ==> (r.value.timeToLive.Some? <==> TtlKey(prefix, name) in props)
    ensures r.Success? && TtiKey(prefix, name) in props ==>
      r.value.timeToIdle == conv.parseLong(props[TtiKey(prefix, name)])
    ensures r.Success? && TtlKey(prefix, name) in props ==>
      r.value.timeToLive == conv.parseLong(props[TtlKey(prefix, name)])
  {
    var tti, ttl := TtiKey(prefix, name), TtlKey(prefix, name);
    match conv.classForName(name)
    case None => Failure(UnknownResourceClass(name))
    case Some(c) =>
      if tti in props && conv.parseLong(props[tti]).None? then Failure(NotANumber(tti))
      else if ttl in props && conv.parseLong(props[ttl]).None? then Failure(NotANumber(ttl))
      else Success(CacheOverride(c,
        if tti in props then conv.parseLong(props[tti]) else None,
        if ttl in props then conv.parseLong(props[ttl]) else None))
  }

  /** The error the cache loop raises at `key`, if any. */
  function CacheKeyError(prefix: string, key: string, props: PropertyMap, conv: Conversions): Option<ConfigError> {
    if !IsCacheKey(prefix, key) then None
    else match CacheName(prefix, key)
      case None => Some(MalformedCacheKey(key))
      case Some(name) =>
        match CacheEntry(prefix, name, props, conv)
        case Failure(e) => Some(e)
        case Success(_) => None
  }

  predicate CacheKeysValid(prefix: string, props: PropertyMap, conv: Conversions) {
    forall k :: k in props ==> CacheKeyError(prefix, k, props, conv).None?
  }

  /** The resource names named by the cache keys among `keys`. */
  function NamesOf(prefix: string, keys: set<string>): set<string> {
    set k | k in keys && IsCacheKey(prefix, k) && CacheName(prefix, k).Some? :: CacheName(prefix, k).value
  }

  /** One override per resource name found in the properties. */
  function Overrides(prefix: string, props: PropertyMap, conv: Conversions): (m: map<string, CacheOverride>)
    ensures m.Keys <= NamesOf(prefix, props.Keys)
    ensures CacheKeysValid(prefix, props, conv) ==> m.Keys == NamesOf(prefix, props.Keys)
    ensures forall n :: n in m ==> conv.classForName(n) == Some(m[n].resource)
  {
    map n | n in NamesOf(prefix, props.Keys) && CacheEntry(prefix, n, props, conv).Success? ::
      CacheEntry(prefix, n, props, conv).value
  }

  /**
   * The constructor's loop over the property names: every cache key contributes the override of
   * its resource name, unless that name already has one. It stops at the first key whose name
   * cannot be cut out, whose class is unknown or whose TTI/TTL is not a number.
   */
  method ParseCacheOverrides(prefix: string, props: PropertyMap, conv: Conversions, caches0: map<string, CacheOverride>)
    returns (r: Result<map<string, CacheOverride>, ConfigError>)
    ensures r.Success? <==> CacheKeysValid(prefix, props, conv)
    ensures r.Success? ==> r.value == Overrides(prefix, props, conv) + caches0
    ensures r.Failure? ==> exists k :: k in props && CacheKeyError(prefix, k, props, conv) == Some(r.error)
  {
    var caches := caches0;
    var remaining := props.Keys;
    ghost var done: set<string> := {};
    while remaining != {}
      invariant done + remaining == props.Keys && done !! remaining
      invariant forall k :: k in done ==> CacheKeyError(prefix, k, props, conv).None?
      invariant caches.Keys == caches0.Keys + NamesOf(prefix, done)
      invariant forall n :: n in caches0 ==> caches[n] == caches0[n]
      invariant forall n :: n in caches && n !in caches0 ==> CacheEntry(prefix, n, props, conv) == Success(caches[n])
      decreases remaining
    {
      var prop :| prop in remaining;
      NamesOfAdd(prefix, done, prop);
      var isPrefix := |prop| == |prefix|;
      if !isPrefix && StartsWith(prop, prefix) {
        var cacheClass := CacheName(prefix, prop);
        if cacheClass.None? {
          return Failure(MalformedCacheKey(prop));
        }
        var entry := CacheEntry(prefix, cacheClass.value, props, conv);
        if entry.Failure? {
          return Failure(entry.error);
        }
        if cacheClass.value !in caches {
          caches := caches[cacheClass.value := entry.value];
        }
      }
      remaining := remaining - {prop};
      done := done + {prop};
    }
    OverridesCollected(prefix, props, conv, caches0, caches);
    return Success(caches);
  }

  lemma NamesOfAdd(prefix: string, keys: set<string>, k: string)
    ensures NamesOf(prefix, keys + {k}) ==
      NamesOf(prefix, keys) + (if IsCacheKey(prefix, k) && CacheName(prefix, k).Some? then {CacheName(prefix, k).value} else {})
  {
  }

  /** Once every key has been visited without error, the collected map is the overrides over `caches0`. */
  lemma OverridesCollected(prefix: string, props: PropertyMap, conv: Conversions,
                           caches0: map<string, CacheOverride>, caches: map<string, CacheOverride>)
    requires CacheKeysValid(prefix, props, conv)
    requires caches.Keys == caches0.Keys + NamesOf(prefix, props.Keys)
    requires forall n :: n in caches0 ==> caches[n] == caches0[n]
    requires forall n :: n in caches && n !in caches0 ==> CacheEntry(prefix, n, props, conv) == Success(caches[n])
    ensures caches == Overrides(prefix, props, conv) + caches0
  {
    var all := Overrides(prefix, props, conv);
    forall n | n in NamesOf(prefix, props.Keys)
      ensures n in all
    {
      var k :| k in props.Keys && IsCacheKey(prefix, k) && CacheName(prefix, k) == Some(n);
      assert CacheKeyError(prefix, k, props, conv).None?;
    }
  }

  /** A `.tti` and a `.ttl` key for one resource name give one override carrying both values. */
  lemma TtiAndTtlShareOneOverride(prefix: string, name: string, props: PropertyMap, conv: Conversions)
    requires CacheKeysValid(prefix, props, conv)
    requires TtiKey(prefix, name) in props && TtlKey(prefix, name) in props
    ensures name in Overrides(prefix, props, conv)
    ensures Overrides(prefix, props, conv)[name].timeToIdle == conv.parseLong(props[TtiKey(prefix, name)])
    ensures Overrides(prefix, props, conv)[name].timeToLive == conv.parseLong(props[TtlKey(prefix, name)])
    ensures conv.parseLong(props[TtiKey(prefix, name)]).Some? && conv.parseLong(props[TtlKey(prefix, name)]).Some?
  {
    var key := TtiKey(prefix, name);
    CacheNameOf(prefix, name, ".tti");
    assert CacheKeyError(prefix, key, props, conv).None?;
    assert name in NamesOf(prefix, props.Keys);
  }

  /** The name cut out of `<prefix>.<name><four characters>` is `name`. */
  lemma CacheNameOf(prefix: string, name: string, suffix: string)
    requires |suffix| == 4
    ensures IsCacheKey(prefix, prefix + "." + name + suffix)
    ensures CacheName(prefix, prefix + "." + name + suffix) == Some(name)
  {
    var key := prefix + "." + name + suffix;
    assert key[..|prefix|] == prefix;
    assert key[|prefix| + 1..|key| - 4] == name;
  }

  /** Keys outside the cache prefix never produce an override. */
  lemma OverrideNamesFromCacheKeys(prefix: string, props: PropertyMap, conv: Conversions, n: string)
    requires n in Overrides(prefix, props, conv)
    ensures exists k :: k in props && IsCacheKey(prefix, k) && CacheName(prefix, k) == Some(n)
    ensures Overrides(prefix, props, conv)[n].resource == conv.classForName(n).value
  {
  }

  // ---------------------------------------------------------------------------------------
  // Extraction of the known keys.

  /** The TTL and TTI values, if present, are numbers. */
  predicate HeadConvertible(props: PropertyMap, conv: Conversions) {
    (CacheTtlKey in props ==> conv.parseLong(props[CacheTtlKey]).Some?) &&
    (CacheTtiKey in props ==> conv.parseLong(props[CacheTtiKey]).Some?)
  }

  /** The property names the constructor copies into the configuration one by one. */
  const KnownKeys := {ApiKeyFileKey, ApiKeyIdKey, ApiKeySecretKey, CacheEnabledKey, CacheTtlKey, CacheTtiKey,
                      BaseUrlKey, ConnectionTimeoutKey, AuthenticationSchemeKey, ProxyPortKey, ProxyHostKey,
                      ProxyUsernameKey, ProxyPasswordKey}

  /** Every value the constructor parses can be parsed. */
  predicate Convertible(props: PropertyMap, conv: Conversions) {
    HeadConvertible(props, conv) &&
    CacheKeysValid(CachesKey, props, conv) &&
    (ConnectionTimeoutKey in props ==> conv.parseInt(props[ConnectionTimeoutKey]).Some?) &&
    (AuthenticationSchemeKey in props ==> conv.parseScheme(props[AuthenticationSchemeKey]).Some?) &&
    (ProxyPortKey in props ==> conv.parseInt(props[ProxyPortKey]).Some?)
  }

  /** `e` is the error of one of the values that cannot be parsed. */
  predicate Explains(props: PropertyMap, conv: Conversions, e: ConfigError) {
    (e == NotANumber(CacheTtlKey) && CacheTtlKey in props && conv.parseLong(props[CacheTtlKey]).None?) ||
    (e == NotANumber(CacheTtiKey) && CacheTtiKey in props && conv.parseLong(props[CacheTtiKey]).None?) ||
    (exists k :: k in props && CacheKeyError(CachesKey, k, props, conv) == Some(e)) ||
    (e == NotANumber(ConnectionTimeoutKey) && ConnectionTimeoutKey in props &&
      conv.parseInt(props[ConnectionTimeoutKey]).None?) ||
    (AuthenticationSchemeKey in props && e == UnknownScheme(props[AuthenticationSchemeKey]) &&
      conv.parseScheme(props[AuthenticationSchemeKey]).None?) ||
    (e == NotANumber(ProxyPortKey) && ProxyPortKey in props && conv.parseInt(props[ProxyPortKey]).None?)
  }

  /**
   * `cfg` is the default configuration with every known key that is present written over its
   * field: the key-file path and base URL with `\:` unescaped, id, secret and the proxy host,
   * user name and password verbatim, and the rest parsed. Absent keys keep the default.
   */
  predicate ExtractedFrom(props: PropertyMap, conv: Conversions, cfg: ClientConfiguration)
    requires Convertible(props, conv)
    ensures ExtractedFrom(props, conv, cfg)
            ==> (cfg.apiKeyResolver.None? && cfg.baseUrlResolver.None? &&
                 cfg.tenantResolver.None? && cfg.requestAuthenticatorFactory.None?)
    ensures ExtractedFrom(props, conv, cfg)
            ==> ((cfg.apiKeyFile.Some? <==> ApiKeyFileKey in props) &&
                 (cfg.baseUrl.Some? <==> BaseUrlKey in props) &&
                 (cfg.proxyHost.Some? <==> ProxyHostKey in props))
    ensures ExtractedFrom(props, conv, cfg)
            ==> cfg.cacheManagerCaches.Keys == NamesOf(CachesKey, props.Keys)
  {
    var d := DefaultConfiguration;
    cfg.apiKeyFile == (if ApiKeyFileKey in props then Some(UnescapeColons(props[ApiKeyFileKey])) else d.apiKeyFile) &&
    cfg.apiKeyId == (if ApiKeyIdKey in props then Some(props[ApiKeyIdKey]) else d.apiKeyId) &&
    cfg.apiKeySecret == (if ApiKeySecretKey in props then Some(props[ApiKeySecretKey]) else d.apiKeySecret) &&
    cfg.cacheManagerEnabled ==
      (if CacheEnabledKey in props then conv.parseBoolean(props[CacheEnabledKey]) else d.cacheManagerEnabled) &&
    cfg.cacheManagerTtl ==
      (if CacheTtlKey in props then conv.parseLong(props[CacheTtlKey]).value else d.cacheManagerTtl) &&
    cfg.cacheManagerTti ==
      (if CacheTtiKey in props then conv.parseLong(props[CacheTtiKey]).value else d.cacheManagerTti) &&
    cfg.cacheManagerCaches == Overrides(CachesKey, props, conv) &&
    cfg.baseUrl == (if BaseUrlKey in props then Some(UnescapeColons(props[BaseUrlKey])) else d.baseUrl) &&
    cfg.connectionTimeout ==
      (if ConnectionTimeoutKey in props then conv.parseInt(props[ConnectionTimeoutKey]).value else d.connectionTimeout) &&
    cfg.authenticationScheme ==
      (if AuthenticationSchemeKey in props then conv.parseScheme(props[AuthenticationSchemeKey]) else d.authenticationScheme) &&
    cfg.proxyPort == (if ProxyPortKey in props then conv.parseInt(props[ProxyPortKey]).value else d.proxyPort) &&
    cfg.proxyHost == (if ProxyHostKey in props then Some(props[ProxyHostKey]) else d.proxyHost) &&
    cfg.proxyUsername == (if ProxyUsernameKey in props then Some(props[ProxyUsernameKey]) else d.proxyUsername) &&
    cfg.proxyPassword == (if ProxyPasswordKey in props then Some(props[ProxyPasswordKey]) else d.proxyPassword) &&
    cfg.apiKeyResolver == d.apiKeyResolver && cfg.baseUrlResolver == d.baseUrlResolver &&
    cfg.tenantResolver == d.tenantResolver && cfg.requestAuthenticatorFactory == d.requestAuthenticatorFactory
  }

  /**
   * The keys read before the cache overrides (the key file, id, secret, cache switch, TTL and TTI):
   * each present key is written over its field of `cfg0`; nothing else changes.
   */
  method ReadHeadKeys(props: PropertyMap, conv: Conversions, cfg0: ClientConfiguration)
    returns (r: Result<ClientConfiguration, ConfigError>)
    ensures r.Success? <==> HeadConvertible(props, conv)
    ensures r.Failure? ==>
      (r.error == NotANumber(CacheTtlKey) && CacheTtlKey in props && conv.parseLong(props[CacheTtlKey]).None?) ||
      (r.error == NotANumber(CacheTtiKey) && CacheTtiKey in props && conv.parseLong(props[CacheTtiKey]).None?)
    ensures r.Success? ==> var cfg := r.value;
      cfg.apiKeyFile == (if ApiKeyFileKey in props then Some(UnescapeColons(props[ApiKeyFileKey])) else cfg0.apiKeyFile) &&
      cfg.apiKeyId == (if ApiKeyIdKey in props then Some(props[ApiKeyIdKey]) else cfg0.apiKeyId) &&
      cfg.apiKeySecret == (if ApiKeySecretKey in props then Some(props[ApiKeySecretKey]) else cfg0.apiKeySecret) &&
      cfg.cacheManagerEnabled ==
        (if CacheEnabledKey in props then conv.parseBoolean(props[CacheEnabledKey]) else cfg0.cacheManagerEnabled) &&
      cfg.cacheManagerTtl ==
        (if CacheTtlKey in props then conv.parseLong(props[CacheTtlKey]).value else cfg0.cacheManagerTtl) &&
      cfg.cacheManagerTti ==
        (if CacheTtiKey in props then conv.parseLong(props[CacheTtiKey]).value else cfg0.cacheManagerTti) &&
      cfg.(apiKeyFile := cfg0.apiKeyFile, apiKeyId := cfg0.apiKeyId, apiKeySecret := cfg0.apiKeySecret,
           cacheManagerEnabled := cfg0.cacheManagerEnabled, cacheManagerTtl := cfg0.cacheManagerTtl,
           cacheManagerTti := cfg0.cacheManagerTti) == cfg0
  {
    var cfg := cfg0;
    cfg := cfg.(apiKeyFile := if ApiKeyFileKey in props then Some(UnescapeColons(props[ApiKeyFileKey])) else cfg.apiKeyFile);
    cfg := cfg.(apiKeyId := if ApiKeyIdKey in props then Some(props[ApiKeyIdKey]) else cfg.apiKeyId);
    cfg := cfg.(apiKeySecret := if ApiKeySecretKey in props then Some(props[ApiKeySecretKey]) else cfg.apiKeySecret);
    cfg := cfg.(cacheManagerEnabled :=
      if CacheEnabledKey in props then conv.parseBoolean(props[CacheEnabledKey]) else cfg.cacheManagerEnabled);
    if CacheTtlKey in props {
      var ttl := conv.parseLong(props[CacheTtlKey]);
      if ttl.None? {
        return Failure(NotANumber(CacheTtlKey));
      }
      cfg := cfg.(cacheManagerTtl := ttl.value);
    }
    if CacheTtiKey in props {
      var tti := conv.parseLong(props[CacheTtiKey]);
      if tti.None? {
        return Failure(NotANumber(CacheTtiKey));
      }
      cfg := cfg.(cacheManagerTti := tti.value);
    }
    return Success(cfg);
  }

  /**
   * The base URL, connection timeout and authentication scheme, read after the cache overrides:
   * each present key is written over its field of `cfg0`; nothing else changes.
   */
  method ReadConnectionKeys(props: PropertyMap, conv: Conversions, cfg0: ClientConfiguration)
    returns (r: Result<ClientConfiguration, ConfigError>)
    ensures r.Success? <==>
      (ConnectionTimeoutKey in props ==> conv.parseInt(props[ConnectionTimeoutKey]).Some?) &&
      (AuthenticationSchemeKey in props ==> conv.parseScheme(props[AuthenticationSchemeKey]).Some?)
    ensures r.Failure? ==>
      (r.error == NotANumber(ConnectionTimeoutKey) && ConnectionTimeoutKey in props &&
        conv.parseInt(props[ConnectionTimeoutKey]).None?) ||
      (AuthenticationSchemeKey in props && r.error == UnknownScheme(props[AuthenticationSchemeKey]) &&
        conv.parseScheme(props[AuthenticationSchemeKey]).None?)
    ensures r.Success? ==> var cfg := r.value;
      cfg.baseUrl == (if BaseUrlKey in props then Some(UnescapeColons(props[BaseUrlKey])) else cfg0.baseUrl) &&
      cfg.connectionTimeout ==
        (if ConnectionTimeoutKey in props then conv.parseInt(props[ConnectionTimeoutKey]).value else cfg0.connectionTimeout) &&
      cfg.authenticationScheme ==
        (if AuthenticationSchemeKey in props then conv.parseScheme(props[AuthenticationSchemeKey]) else cfg0.authenticationScheme) &&
      cfg.(baseUrl := cfg0.baseUrl, connectionTimeout := cfg0.connectionTimeout,
           authenticationScheme := cfg0.authenticationScheme) == cfg0
  {
    var cfg := cfg0;
    cfg := cfg.(baseUrl := if BaseUrlKey in props then Some(UnescapeColons(props[BaseUrlKey])) else cfg.baseUrl);
    if ConnectionTimeoutKey in props {
      var timeout := conv.parseInt(props[ConnectionTimeoutKey]);
      if timeout.None? {
        return Failure(NotANumber(ConnectionTimeoutKey));
      }
      cfg := cfg.(connectionTimeout := timeout.value);
    }
    if AuthenticationSchemeKey in props {
      var scheme := conv.parseScheme(props[AuthenticationSchemeKey]);
      if scheme.None? {
        return Failure(UnknownScheme(props[AuthenticationSchemeKey]));
      }
      cfg := cfg.(authenticationScheme := scheme);
    }
    return Success(cfg);
  }

  /**
   * The proxy port, host, user name and password, read last: each present key is written over its
   * field of `cfg0`; nothing else changes.
   */
  method ReadProxyKeys(props: PropertyMap, conv: Conversions, cfg0: ClientConfiguration)
    returns (r: Result<ClientConfiguration, ConfigError>)
    ensures r.Success? <==> (ProxyPortKey in props ==> conv.parseInt(props[ProxyPortKey]).Some?)
    ensures r.Failure? ==> r.error == NotANumber(ProxyPortKey)
    ensures r.Success? ==> var cfg := r.value;
      cfg.proxyPort == (if ProxyPortKey in props then conv.parseInt(props[ProxyPortKey]).value else cfg0.proxyPort) &&
      cfg.proxyHost == (if ProxyHostKey in props then Some(props[ProxyHostKey]) else cfg0.proxyHost) &&
      cfg.proxyUsername == (if ProxyUsernameKey in props then Some(props[ProxyUsernameKey]) else cfg0.proxyUsername) &&
      cfg.proxyPassword == (if ProxyPasswordKey in props then Some(props[ProxyPasswordKey]) else cfg0.proxyPassword) &&
      cfg.(proxyPort := cfg0.proxyPort, proxyHost := cfg0.proxyHost, proxyUsername := cfg0.proxyUsername,
           proxyPassword := cfg0.proxyPassword) == cfg0
  {
    var cfg := cfg0;
    if ProxyPortKey in props {
      var port := conv.parseInt(props[ProxyPortKey]);
      if port.None? {
        return Failure(NotANumber(ProxyPortKey));
      }
      cfg := cfg.(proxyPort := port.value);
    }
    cfg := cfg.(proxyHost := if ProxyHostKey in props then Some(props[ProxyHostKey]) else cfg.proxyHost);
    cfg := cfg.(proxyUsername := if ProxyUsernameKey in props then Some(props[ProxyUsernameKey]) else cfg.proxyUsername);
    cfg := cfg.(proxyPassword := if ProxyPasswordKey in props then Some(props[ProxyPasswordKey]) else cfg.proxyPassword);
    return Success(cfg);
  }

  /** Copies the known keys into a fresh configuration, in the constructor's order. */
  method ExtractConfiguration(props: PropertyMap, conv: Conversions) returns (r: Result<ClientConfiguration, ConfigError>)
    ensures r.Success? <==> Convertible(props, conv)
    ensures r.Success? ==> ExtractedFrom(props, conv, r.value)
    ensures r.Failure? ==> Explains(props, conv, r.error)
  {
    var head := ReadHeadKeys(props, conv, DefaultConfiguration);
    if head.Failure? {
      return Failure(head.error);
    }
    var caches := ParseCacheOverrides(CachesKey, props, conv, head.value.cacheManagerCaches);
    if caches.Failure? {
      return Failure(caches.error);
    }
    assert caches.value == Overrides(CachesKey, props, conv);
    var connection := ReadConnectionKeys(props, conv, head.value.(cacheManagerCaches := caches.value));
    if connection.Failure? {
      return Failure(connection.error);
    }
    var proxy := ReadProxyKeys(props, conv, connection.value);
    if proxy.Failure? {
      return Failure(proxy.error);
    }
    return Success(proxy.value);
  }

  /** Properties that name none of the known keys and no cache override leave every default in place. */
  lemma NoKnownKeysKeepsDefaults(props: PropertyMap, conv: Conversions, cfg: ClientConfiguration)
    requires forall k :: k in props ==> k !in KnownKeys && !IsCacheKey(CachesKey, k)
    requires Convertible(props, conv) && ExtractedFrom(props, conv, cfg)
    ensures cfg == DefaultConfiguration
  {
    assert NamesOf(CachesKey, props.Keys) == {};
    assert Overrides(CachesKey, props, conv) == map[];
  }
}
