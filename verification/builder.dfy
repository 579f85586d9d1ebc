/**
 * DefaultClientBuilder: the builder's own state, its setters, its constructor (source list,
 * merge and extraction) and `build()`, which settles the cache manager, the proxy, the
 * credentials and the two resolvers before the client is made.
 */
module Builder {
  import opened Wrappers
  import opened Sources
  import opened Configuration

  /** An API key: an id and a secret. */
  datatype ApiKey = ApiKey(id: string, secret: string)

  /** Client credentials: those wrapping an API key, or credentials of another kind. */
  datatype ClientCredentials = ApiKeyCredentials(apiKey: ApiKey) | OtherCredentials(id: nat)

  /** A proxy; the two-argument form leaves user name and password unset. */
  datatype Proxy = Proxy(host: Option<string>, port: int, username: Option<string>, password: Option<string>)

  /** The cache manager the client gets. */
  datatype CacheManager =
    | DisabledCacheManager
    | InMemoryCacheManager(defaultTimeToIdle: int, defaultTimeToLive: int, caches: set<CacheOverride>)
    | SuppliedCacheManager(id: nat)

  /** The API-key resolver: the configured one, or a default one over a known key. */
  datatype KeyResolverChoice = ConfiguredKeyResolver(resolver: ApiKeyResolver) | DefaultApiKeyResolver(key: ApiKey)

  /** The base-URL resolver: the configured one, or a default one over the configured URL. */
  datatype UrlResolverChoice = ConfiguredUrlResolver(resolver: BaseUrlResolver) | DefaultBaseUrlResolver(baseUrl: string)

  /** What the client is constructed from; `tenantResolver` is set only by the nine-argument form. */
  datatype Client = Client(
    credentials: ClientCredentials,
    apiKeyResolver: KeyResolverChoice,
    baseUrlResolver: UrlResolverChoice,
    proxy: Option<Proxy>,
    cacheManager: CacheManager,
    authenticationScheme: Option<AuthenticationScheme>,
    requestAuthenticatorFactory: Option<RequestAuthenticatorFactory>,
    connectionTimeout: int,
    tenantResolver: Option<TenantResolver>)

  /** Why `build()` throws. */
  datatype BuildError = CredentialsNotFound | MissingApiKeyResolver | MissingBaseUrl

  /**
   * The proxy that `build()` derives from the configuration, or `None` when it keeps the proxy
   * given to `setProxy`. The condition is `port > 0 || (host != null && (user == null || password == null))`,
   * so a positive port wins over a complete user name and password.
   */
  function ProxyOverride(cfg: ClientConfiguration): (r: Option<Proxy>)
    ensures r.None? <==>
      cfg.proxyPort <= 0 && cfg.proxyHost.None? && !(cfg.proxyUsername.Some? && cfg.proxyPassword.Some?)
    ensures r.Some? ==> r.value.host == cfg.proxyHost && r.value.port == cfg.proxyPort
    ensures r.Some? ==> (r.value.username.Some? <==>
      cfg.proxyPort <= 0 && cfg.proxyUsername.Some? && cfg.proxyPassword.Some?)
    ensures r.Some? && r.value.username.Some? ==>
      r.value.username == cfg.proxyUsername && r.value.password == cfg.proxyPassword
    ensures r.Some? && r.value.username.None? ==> r.value.password.None?
  {
    // Java's && binds tighter than ||: the parentheses below are where Java puts them.
    if cfg.proxyPort > 0 || (cfg.proxyHost.Some? && (cfg.proxyUsername.None? || cfg.proxyPassword.None?)) then
      Some(Proxy(cfg.proxyHost, cfg.proxyPort, None, None))
    else if cfg.proxyUsername.Some? && cfg.proxyPassword.Some? then
      Some(Proxy(cfg.proxyHost, cfg.proxyPort, cfg.proxyUsername, cfg.proxyPassword))
    else
      None
  }

  /**
   * The credentials `build()` uses: those set explicitly, else the API key wrapped, else what the
   * provider chain yields (`provided`, `None` when the chain finds nothing).
   */
  function EffectiveCredentials(explicit: Option<ClientCredentials>, apiKey: Option<ApiKey>,
                                provided: Option<ClientCredentials>): (r: Option<ClientCredentials>)
    ensures r.None? <==> explicit.None? && apiKey.None? && provided.None?
    ensures explicit.Some? ==> r == explicit
    ensures explicit.None? && apiKey.Some? ==> r == Some(ApiKeyCredentials(apiKey.value))
    ensures explicit.None? && apiKey.None? ==> r == provided
  {
    if explicit.Some? then explicit
    else if apiKey.Some? then Some(ApiKeyCredentials(apiKey.value))
    else provided
  }

  /** The API-key resolver: the configured one, else one over the key of API-key credentials. */
  function KeyResolverFor(configured: Option<ApiKeyResolver>, credentials: ClientCredentials): (r: Option<KeyResolverChoice>)
    ensures r.None? <==> configured.None? && !credentials.ApiKeyCredentials?
    ensures configured.Some? ==> r == Some(ConfiguredKeyResolver(configured.value))
    ensures configured.None? && credentials.ApiKeyCredentials? ==> r == Some(DefaultApiKeyResolver(credentials.apiKey))
    ensures r.Some? && r.value.DefaultApiKeyResolver? ==>
      configured.None? && credentials == ApiKeyCredentials(r.value.key)
  {
    if configured.Some? then Some(ConfiguredKeyResolver(configured.value))
    else if credentials.ApiKeyCredentials? then Some(DefaultApiKeyResolver(credentials.apiKey))
    else None
  }

  /** The base-URL resolver: the configured one, else one over the configured base URL. */
  function UrlResolverFor(configured: Option<BaseUrlResolver>, baseUrl: Option<string>): (r: Option<UrlResolverChoice>)
    ensures r.None? <==> configured.None? && baseUrl.None?
    ensures configured.Some? ==> r == Some(ConfiguredUrlResolver(configured.value))
    ensures configured.None? && baseUrl.Some? ==> r == Some(DefaultBaseUrlResolver(baseUrl.value))
    ensures r.Some? && r.value.DefaultBaseUrlResolver? ==> configured.None? && baseUrl == Some(r.value.baseUrl)
  {
    if configured.Some? then Some(ConfiguredUrlResolver(configured.value))
    else if baseUrl.Some? then Some(DefaultBaseUrlResolver(baseUrl.value))
    else None
  }

  /** The merged properties of the ten default sources. */
  function LoadedProperties(home: string, sep: char, read: Source -> PropertyMap): PropertyMap {
    Merge(ReadAll(ExpandAll(BaseLocations(home, sep), BundledLocation), read))
  }

  /**
   * The constructor's configuration work: enumerate the sources, read and merge them, and copy the
   * known keys into a fresh configuration. `home` and `sep` stand for the `user.home` property and
   * the file separator, `read` for reading one source.
   */
  method LoadConfiguration(home: string, sep: char, read: Source -> PropertyMap, conv: Conversions)
    returns (r: Result<ClientConfiguration, ConfigError>)
    ensures r.Success? <==> Convertible(LoadedProperties(home, sep, read), conv)
    ensures r.Success? ==> ExtractedFrom(LoadedProperties(home, sep, read), conv, r.value)
    ensures r.Failure? ==> Explains(LoadedProperties(home, sep, read), conv, r.error)
  {
    var sources := EnumerateSources(home, sep);
    var props := MergeSources(sources, read);
    r := ExtractConfiguration(props, conv);
  }

  /**
   * The base URL of the loaded configuration is the last source's value for the key, with `\:`
   * unescaped; a key no source defines leaves it unset.
   */
  lemma LoadedBaseUrlFromLastSource(home: string, sep: char, read: Source -> PropertyMap,
                                    conv: Conversions, cfg: ClientConfiguration, i: int)
    requires Convertible(LoadedProperties(home, sep, read), conv)
    requires ExtractedFrom(LoadedProperties(home, sep, read), conv, cfg)
    requires var maps := ReadAll(ExpandAll(BaseLocations(home, sep), BundledLocation), read);
      0 <= i < |maps| && BaseUrlKey in maps[i] && forall j :: i < j < |maps| ==> BaseUrlKey !in maps[j]
    ensures var maps := ReadAll(ExpandAll(BaseLocations(home, sep), BundledLocation), read);
      cfg.baseUrl == Some(Strings.UnescapeColons(maps[i][BaseUrlKey]))
  {
    var maps := ReadAll(ExpandAll(BaseLocations(home, sep), BundledLocation), read);
    MergeLastWins(maps, i, BaseUrlKey);
  }

  class DefaultClientBuilder {
    var apiKey: Option<ApiKey>
    var proxy: Option<Proxy>
    var cacheManager: Option<CacheManager>
    var clientCredentials: Option<ClientCredentials>
    var clientConfig: ClientConfiguration

    /** A builder over an already loaded configuration, with nothing set explicitly. */
    constructor (config: ClientConfiguration)
      ensures apiKey.None? && proxy.None? && cacheManager.None? && clientCredentials.None?
      ensures clientConfig == config
    {
      apiKey := None;
      proxy := None;
      cacheManager := None;
      clientCredentials := None;
      clientConfig := config;
    }

    /** The Java constructor: load the configuration, then make the builder; fails as loading does. */
    static method Create(home: string, sep: char, read: Source -> PropertyMap, conv: Conversions)
      returns (r: Result<DefaultClientBuilder, ConfigError>)
      ensures r.Success? <==> Convertible(LoadedProperties(home, sep, read), conv)
      ensures r.Success? ==> fresh(r.value) && ExtractedFrom(LoadedProperties(home, sep, read), conv, r.value.clientConfig)
      ensures r.Success? ==>
        r.value.apiKey.None? && r.value.proxy.None? && r.value.cacheManager.None? && r.value.clientCredentials.None?
      ensures r.Failure? ==> Explains(LoadedProperties(home, sep, read), conv, r.error)
    {
      var config := LoadConfiguration(home, sep, read, conv);
      if config.Failure? {
        return Failure(config.error);
      }
      var builder := new DefaultClientBuilder(config.value);
      return Success(builder);
    }

    /** Rejects a missing key; otherwise sets it. */
    method SetApiKey(key: Option<ApiKey>) returns (ok: bool)
      modifies this`apiKey
      ensures ok <==> key.Some?
      ensures apiKey == if ok then key else old(apiKey)
    {
      if key.None? {
        return false;
      }
      apiKey := key;
      return true;
    }

    /** Rejects a missing proxy; otherwise sets it. */
    method SetProxy(p: Option<Proxy>) returns (ok: bool)
      modifies this`proxy
      ensures ok <==> p.Some?
      ensures proxy == if ok then p else old(proxy)
    {
      if p.None? {
        return false;
      }
      proxy := p;
      return true;
    }

    /** Sets the cache manager; `None` is accepted and clears it. */
    method SetCacheManager(manager: Option<CacheManager>)
      modifies this`cacheManager
      ensures cacheManager == manager
    {
      cacheManager := manager;
    }

    /** Sets the authentication scheme; `None` is accepted. */
    method SetAuthenticationScheme(scheme: Option<AuthenticationScheme>)
      modifies this`clientConfig
      ensures clientConfig == old(clientConfig).(authenticationScheme := scheme)
    {
      clientConfig := clientConfig.(authenticationScheme := scheme);
    }

    /** Rejects a negative timeout; otherwise sets it. */
    method SetConnectionTimeout(timeout: int) returns (ok: bool)
      modifies this`clientConfig
      ensures ok <==> timeout >= 0
      ensures clientConfig == if ok then old(clientConfig).(connectionTimeout := timeout) else old(clientConfig)
    {
      if timeout < 0 {
        return false;
      }
      clientConfig := clientConfig.(connectionTimeout := timeout);
      return true;
    }

    /** Rejects a missing factory; otherwise sets it. */
    method SetRequestAuthenticatorFactory(factory: Option<RequestAuthenticatorFactory>) returns (ok: bool)
      modifies this`clientConfig
      ensures ok <==> factory.Some?
      ensures clientConfig == if ok then old(clientConfig).(requestAuthenticatorFactory := factory) else old(clientConfig)
    {
      if factory.None? {
        return false;
      }
      clientConfig := clientConfig.(requestAuthenticatorFactory := factory);
      return true;
    }

    /** Rejects missing credentials (a null is not an instance); otherwise sets them. */
    method SetClientCredentials(credentials: Option<ClientCredentials>) returns (ok: bool)
      modifies this`clientCredentials
      ensures ok <==> credentials.Some?
      ensures clientCredentials == if ok then credentials else old(clientCredentials)
    {
      if credentials.None? {
        return false;
      }
      clientCredentials := credentials;
      return true;
    }

    /** Rejects a missing resolver; otherwise sets it. */
    method SetApiKeyResolver(resolver: Option<ApiKeyResolver>) returns (ok: bool)
      modifies this`clientConfig
      ensures ok <==> resolver.Some?
      ensures clientConfig == if ok then old(clientConfig).(apiKeyResolver := resolver) else old(clientConfig)
    {
      if resolver.None? {
        return false;
      }
      clientConfig := clientConfig.(apiKeyResolver := resolver);
      return true;
    }

    /** Rejects a missing resolver; otherwise sets it. */
    method SetBaseUrlResolver(resolver: Option<BaseUrlResolver>) returns (ok: bool)
      modifies this`clientConfig
      ensures ok <==> resolver.Some?
      ensures clientConfig == if ok then old(clientConfig).(baseUrlResolver := resolver) else old(clientConfig)
    {
      if resolver.None? {
        return false;
      }
      clientConfig := clientConfig.(baseUrlResolver := resolver);
      return true;
    }

    /** Rejects a missing resolver; otherwise sets it. */
    method SetTenantResolver(resolver: Option<TenantResolver>) returns (ok: bool)
      modifies this`clientConfig
      ensures ok <==> resolver.Some?
      ensures clientConfig == if ok then old(clientConfig).(tenantResolver := resolver) else old(clientConfig)
    {
      if resolver.None? {
        return false;
      }
      clientConfig := clientConfig.(tenantResolver := resolver);
      return true;
    }

    /** Rejects a missing base URL; otherwise sets it, as given (no unescaping). */
    method SetBaseUrl(baseUrl: Option<string>) returns (ok: bool)
      modifies this`clientConfig
      ensures ok <==> baseUrl.Some?
      ensures clientConfig == if ok then old(clientConfig).(baseUrl := baseUrl) else old(clientConfig)
    {
      if baseUrl.None? {
        return false;
      }
      clientConfig := clientConfig.(baseUrl := baseUrl);
      return true;
    }

    /**
     * Builds the client. The cache manager and the proxy fields are settled first and stay
     * settled even when a later step fails. `chain` stands for the default credentials provider
     * chain, consulted only when neither credentials nor an API key were set.
     */
    method Build(chain: ClientConfiguration -> Option<ClientCredentials>) returns (r: Result<Client, BuildError>)
      modifies this`cacheManager, this`proxy
      ensures !clientConfig.cacheManagerEnabled ==> cacheManager == Some(DisabledCacheManager)
      ensures clientConfig.cacheManagerEnabled && old(cacheManager).Some? ==> cacheManager == old(cacheManager)
      ensures clientConfig.cacheManagerEnabled && old(cacheManager).None? ==>
        cacheManager == Some(InMemoryCacheManager(clientConfig.cacheManagerTti, clientConfig.cacheManagerTtl,
                                                  clientConfig.cacheManagerCaches.Values))
      ensures proxy == if ProxyOverride(clientConfig).Some? then ProxyOverride(clientConfig) else old(proxy)
      ensures var credentials := EffectiveCredentials(clientCredentials, apiKey, chain(clientConfig));
        var keyResolver := if credentials.Some? then KeyResolverFor(clientConfig.apiKeyResolver, credentials.value) else None;
        var urlResolver := UrlResolverFor(clientConfig.baseUrlResolver, clientConfig.baseUrl);
        (credentials.None? ==> r == Failure(CredentialsNotFound)) &&
        (credentials.Some? && keyResolver.None? ==> r == Failure(MissingApiKeyResolver)) &&
        (keyResolver.Some? && urlResolver.None? ==> r == Failure(MissingBaseUrl)) &&
        (keyResolver.Some? && urlResolver.Some? ==>
          r == Success(Client(credentials.value, keyResolver.value, urlResolver.value, proxy, cacheManager.value,
                              clientConfig.authenticationScheme, clientConfig.requestAuthenticatorFactory,
                              clientConfig.connectionTimeout, clientConfig.tenantResolver)))
    {
      if !clientConfig.cacheManagerEnabled {
        cacheManager := Some(DisabledCacheManager);
      } else if cacheManager.None? {
        var caches: set<CacheOverride> := {};
        var pending := clientConfig.cacheManagerCaches.Values;
        while pending != {}
          invariant caches + pending == clientConfig.cacheManagerCaches.Values
          decreases pending
        {
          var builder :| builder in pending;
          caches := caches + {builder};
          pending := pending - {builder};
        }
        cacheManager := Some(InMemoryCacheManager(clientConfig.cacheManagerTti, clientConfig.cacheManagerTtl, caches));
      }

      var derived := ProxyOverride(clientConfig);
      if derived.Some? {
        proxy := derived;
      }

      var credentials: ClientCredentials;
      if clientCredentials.Some? {
        credentials := clientCredentials.value;
      } else if apiKey.Some? {
        credentials := ApiKeyCredentials(apiKey.value);
      } else {
        var provided := chain(clientConfig);
        if provided.None? {
          return Failure(CredentialsNotFound);
        }
        credentials := provided.value;
      }

      var keyResolver: KeyResolverChoice;
      if clientConfig.apiKeyResolver.Some? {
        keyResolver := ConfiguredKeyResolver(clientConfig.apiKeyResolver.value);
      } else {
        if !credentials.ApiKeyCredentials? {
          return Failure(MissingApiKeyResolver);
        }
        keyResolver := DefaultApiKeyResolver(credentials.apiKey);
      }

      var urlResolver: UrlResolverChoice;
      if clientConfig.baseUrlResolver.Some? {
        urlResolver := ConfiguredUrlResolver(clientConfig.baseUrlResolver.value);
      } else {
        if clientConfig.baseUrl.None? {
          return Failure(MissingBaseUrl);
        }
        urlResolver := DefaultBaseUrlResolver(clientConfig.baseUrl.value);
      }

      r := Success(Client(credentials, keyResolver, urlResolver, proxy, cacheManager.value,
                          clientConfig.authenticationScheme, clientConfig.requestAuthenticatorFactory,
                          clientConfig.connectionTimeout, clientConfig.tenantResolver));
    }
  }
}
