# DefaultClientBuilder, modelled in Dafny

This project models the default client builder of the Stormpath Java SDK
(`impl/src/main/java/com/stormpath/sdk/impl/client/DefaultClientBuilder.java`). The builder
assembles the SDK client from layered configuration and makes a series of decisions when it builds.

- **Source enumeration.** The constructor lists the configuration sources. First comes the bundled
  `classpath:com/stormpath/sdk/config/stormpath.properties`. Then come `stormpath.properties` on
  the classpath, in `~/.stormpath/` and in `~/`, each followed by its `.json` and `.yaml`
  sibling.
- **Merge.** The sources' mappings are merged last-write-wins (`putAll`).
- **Extraction.** Known keys are copied into a `ClientConfiguration`. The API-key file and the
  base URL have `\:` unescaped. Keys under `stormpath.client.cacheManager.caches` become one
  cache override per resource class.
- **Setters.** They validate their argument and set one field.
- **`build()`.** It settles the cache manager and the proxy. It then picks the credentials, the
  API-key resolver and the base-URL resolver, and makes the client.

Files:

- `wrappers.dfy`: `Option` (Java's null) and `Result` (a value or the exception thrown).
- `strings.dfy`: prefix and suffix tests, and `ReplaceAll`, which is Java's `String.replace`.
  It also holds colon unescaping and its inverse, and their lemmas.
- `sources.dfy`: the source list, the merge, and their lemmas.
- `configuration.dfy`: the configuration record, cache-override parsing and key extraction.
- `builder.dfy`: the builder class, its setters, `Build`, and the pure decision rules `Build` uses.

The Java constructor is split into two parts. `Builder.LoadConfiguration` does the work that can
throw: it lists the sources, merges them and extracts the configuration. The Dafny constructor
takes the loaded configuration. `Builder.DefaultClientBuilder.Create` combines the two.

Setters return `ok == false` where Java throws `IllegalArgumentException`; the state is then
unchanged. A Java `null` argument is `None`.

Three behaviours of the code are worth stating plainly, and the model keeps each of them:

- **Proxy condition.** The code reads `port > 0 || (host != null && (user == null || password == null))`.
  So a positive port yields an unauthenticated proxy even when a user name and password are both
  configured.
- **Null arguments.** `setCacheManager` and `setAuthenticationScheme` accept null.
- **Connection timeout from properties.** A negative timeout read from the properties is stored
  unchecked. Only the setter rejects negatives.

Names declared outside the modelled file are given their SDK values. `Sources.DefaultSourceNames`
relies on the classpath prefix containing no `.`, which holds for `classpath:`, as the class
comment at `DefaultClientBuilder.java:58-59` shows; other proofs use the property names as the
distinct strings they are.

- the property names (`stormpath.client.*`, declared on the `ClientBuilder` interface);
- the classpath scheme prefix `classpath:`;
- the `ClientConfiguration` defaults: caching on, TTL and TTI of 300 seconds, timeout and proxy
  port 0, everything else unset.

## Model

| member | source | states |
|---|---|---|
| `Strings.ReplaceAll` | impl/src/main/java/com/stormpath/sdk/impl/client/DefaultClientBuilder.java:100-111 | `String.replace` with a non-empty target: the result is never longer when the replacement is no longer than the target, and never shorter otherwise; a string shorter than the target is returned unchanged; a target at the start becomes the replacement |
| `Strings.UnescapeColons` | impl/src/main/java/com/stormpath/sdk/impl/client/DefaultClientBuilder.java:123-128 | the `\:` to `:` replacement applied to the key-file path and the base URL never lengthens a value and keeps a value without `\:` verbatim |
| `Strings.ReplaceAllKeepsPrefix` | impl/src/main/java/com/stormpath/sdk/impl/client/DefaultClientBuilder.java:102-108 | `String.replace` copies unchanged a prefix in which the pattern never starts |
| `Strings.ReplaceAllWithoutOccurrence` | impl/src/main/java/com/stormpath/sdk/impl/client/DefaultClientBuilder.java:102-108 | a string with no occurrence of the pattern is left unchanged by `replace` |
| `Strings.UnescapeEscapeRoundTrip` | impl/src/main/java/com/stormpath/sdk/impl/client/DefaultClientBuilder.java:125-126 | replacing `\:` by `:` undoes escaping every colon as `\:` (how a value is written programmatically), for every string |
| `Strings.UnescapeFixedPoints` | impl/src/main/java/com/stormpath/sdk/impl/client/DefaultClientBuilder.java:170-175 | unescaping leaves a value unchanged exactly when it holds no `\:`, and strictly shortens it otherwise |
| `Sources.BaseLocations` | impl/src/main/java/com/stormpath/sdk/impl/client/DefaultClientBuilder.java:81-88 | four base locations, the bundled classpath properties first |
| `Sources.BaseLocationsShape` | impl/src/main/java/com/stormpath/sdk/impl/client/DefaultClientBuilder.java:81-88 | every base location ends in `stormpath.properties`; the second is on the classpath and the last two start with the home directory and separator |
| `Sources.Expand` | impl/src/main/java/com/stormpath/sdk/impl/client/DefaultClientBuilder.java:96-111 | one location yields itself read as properties, plus a JSON and a YAML sibling exactly when it is not the first location and ends in `.properties` |
| `Sources.ExpandAll` | impl/src/main/java/com/stormpath/sdk/impl/client/DefaultClientBuilder.java:96-112 | the location list yields between one and three sources per location, and the first source is the first location read as properties |
| `Sources.EnumerateSources` | impl/src/main/java/com/stormpath/sdk/impl/client/DefaultClientBuilder.java:93-112 | the loop builds, location by location, the location followed by its `.json`/`.yaml` siblings unless it is the first location or does not end in `.properties` |
| `Sources.DefaultSourceOrder` | impl/src/main/java/com/stormpath/sdk/impl/client/DefaultClientBuilder.java:83-112 | for every home directory except one that makes the last location equal the bundled one, there are 10 sources: the bundled properties, then each later location immediately followed by its JSON and YAML siblings |
| `Sources.DefaultSourceNames` | impl/src/main/java/com/stormpath/sdk/impl/client/DefaultClientBuilder.java:55-68 | with a home directory free of `.properties` and a separator outside that word, the 10 sources are exactly the files of the class comment, in its order |
| `Sources.Merge` | impl/src/main/java/com/stormpath/sdk/impl/client/DefaultClientBuilder.java:114-119 | merging no sources gives the empty mapping; every key of every source is in the result; the last source's entries all survive unchanged |
| `Sources.MergeSources` | impl/src/main/java/com/stormpath/sdk/impl/client/DefaultClientBuilder.java:114-119 | the `putAll` loop yields the left-to-right last-write-wins fold of the sources' mappings |
| `Sources.MergeDomain` | impl/src/main/java/com/stormpath/sdk/impl/client/DefaultClientBuilder.java:114-119 | a key is in the merged mapping if and only if some source defines it |
| `Sources.MergeLastWins` | impl/src/main/java/com/stormpath/sdk/impl/client/DefaultClientBuilder.java:116-118 | the merged value of a key is the value of the last source that defines it |
| `Sources.MergeAppend` | impl/src/main/java/com/stormpath/sdk/impl/client/DefaultClientBuilder.java:116-118 | merging a concatenated source list is merging each part and overlaying the second on the first |
| `Sources.EmptySourceIsNoOp` | impl/src/main/java/com/stormpath/sdk/impl/client/DefaultClientBuilder.java:98-119 | a source that yields no keys (missing or unreadable) changes nothing, wherever it sits |
| `Configuration.CacheName` | impl/src/main/java/com/stormpath/sdk/impl/client/DefaultClientBuilder.java:151-154 | a name is cut out exactly when the key has at least five characters beyond the prefix; the key is then one character after the prefix, the name, and four trailing characters |
| `Configuration.CacheEntry` | impl/src/main/java/com/stormpath/sdk/impl/client/DefaultClientBuilder.java:155-163 | the class is looked up first, then the TTI parsed, then the TTL: an unknown class fails with that class whatever the times, a bad TTI fails before the TTL is looked at, and a bad TTL after a known class and a good or absent TTI fails with the TTL key; success exactly when the class is known and each present time parses, carrying the class and exactly the present times |
| `Configuration.Overrides` | impl/src/main/java/com/stormpath/sdk/impl/client/DefaultClientBuilder.java:150-168 | overrides exist only for names cut from cache keys, for every such name when every cache key is valid, each carrying the class looked up by its name |
| `Configuration.ExtractedFrom` | impl/src/main/java/com/stormpath/sdk/impl/client/DefaultClientBuilder.java:121-199 | a configuration extracted from properties has no resolver or authenticator factory set, has a key file, base URL and proxy host exactly when their keys are present, and has one cache override per named resource |
| `Configuration.ParseCacheOverrides` | impl/src/main/java/com/stormpath/sdk/impl/client/DefaultClientBuilder.java:150-168 | succeeds iff every key longer than and starting with the prefix has a cuttable name, a known class and numeric TTI/TTL; then gives one override per name, never replacing an entry already present; otherwise its error is that of some failing key |
| `Configuration.CacheNameOf` | impl/src/main/java/com/stormpath/sdk/impl/client/DefaultClientBuilder.java:151-154 | `<prefix>.<name>` plus any four characters is a cache key whose extracted name is `name` |
| `Configuration.TtiAndTtlShareOneOverride` | impl/src/main/java/com/stormpath/sdk/impl/client/DefaultClientBuilder.java:154-166 | a `.tti` key and a `.ttl` key for one name give one override carrying both parsed values |
| `Configuration.OverrideNamesFromCacheKeys` | impl/src/main/java/com/stormpath/sdk/impl/client/DefaultClientBuilder.java:150-157 | every override comes from a cache key naming it, and its resource is the class looked up by that name |
| `Configuration.ReadHeadKeys` | impl/src/main/java/com/stormpath/sdk/impl/client/DefaultClientBuilder.java:121-148 | key file (unescaped), id and secret (verbatim), cache switch, TTL and TTI are written only when present, nothing else changes; fails exactly when a present TTL/TTI is not a number |
| `Configuration.ReadConnectionKeys` | impl/src/main/java/com/stormpath/sdk/impl/client/DefaultClientBuilder.java:170-183 | base URL (unescaped), timeout and scheme are written only when present, nothing else changes; fails exactly when a present timeout or scheme does not parse |
| `Configuration.ReadProxyKeys` | impl/src/main/java/com/stormpath/sdk/impl/client/DefaultClientBuilder.java:185-199 | proxy port, host, user name and password (the last three verbatim) are written only when present, nothing else changes; fails exactly when a present port is not a number |
| `Configuration.ExtractConfiguration` | impl/src/main/java/com/stormpath/sdk/impl/client/DefaultClientBuilder.java:121-199 | succeeds iff every parsed value parses; the result is the default configuration overwritten by exactly the present keys; a failure names a value that does not parse |
| `Configuration.NoKnownKeysKeepsDefaults` | impl/src/main/java/com/stormpath/sdk/impl/client/DefaultClientBuilder.java:121-199 | properties naming no known key and no cache key leave the default configuration unchanged |
| `Builder.ProxyOverride` | impl/src/main/java/com/stormpath/sdk/impl/client/DefaultClientBuilder.java:297-304 | the configured proxy replaces the set one iff a port > 0, a host, or both user name and password are configured; it carries the configured host and port, and carries credentials iff port ≤ 0 and both are set |
| `Builder.EffectiveCredentials` | impl/src/main/java/com/stormpath/sdk/impl/client/DefaultClientBuilder.java:306-315 | explicit credentials win over the API key, which wins over the provider chain; no credentials only when all three are absent |
| `Builder.KeyResolverFor` | impl/src/main/java/com/stormpath/sdk/impl/client/DefaultClientBuilder.java:317-322 | the configured resolver is used when present; otherwise the default resolver over the key of API-key credentials, and none for other credentials |
| `Builder.UrlResolverFor` | impl/src/main/java/com/stormpath/sdk/impl/client/DefaultClientBuilder.java:324-329 | the configured resolver is used when present; otherwise the default resolver over the configured base URL, and none when that is absent |
| `Builder.LoadConfiguration` | impl/src/main/java/com/stormpath/sdk/impl/client/DefaultClientBuilder.java:92-200 | the constructor's configuration is the extraction of the merge of the 10 default sources, failing exactly when a value there does not parse |
| `Builder.LoadedBaseUrlFromLastSource` | impl/src/main/java/com/stormpath/sdk/impl/client/DefaultClientBuilder.java:114-175 | the loaded base URL is the last defining source's value with `\:` unescaped |
| `Builder.DefaultClientBuilder.constructor` | impl/src/main/java/com/stormpath/sdk/impl/client/DefaultClientBuilder.java:76-90 | a new builder has no API key, proxy, cache manager or credentials set, and holds the loaded configuration |
| `Builder.DefaultClientBuilder.Create` | impl/src/main/java/com/stormpath/sdk/impl/client/DefaultClientBuilder.java:92-200 | the Java constructor: fails exactly as loading fails; otherwise a fresh builder over the extracted configuration |
| `Builder.DefaultClientBuilder.SetApiKey` | impl/src/main/java/com/stormpath/sdk/impl/client/DefaultClientBuilder.java:202-207 | rejects a null key; otherwise sets it; changes no other field |
| `Builder.DefaultClientBuilder.SetProxy` | impl/src/main/java/com/stormpath/sdk/impl/client/DefaultClientBuilder.java:209-216 | rejects a null proxy; otherwise sets it; changes no other field |
| `Builder.DefaultClientBuilder.SetCacheManager` | impl/src/main/java/com/stormpath/sdk/impl/client/DefaultClientBuilder.java:218-222 | sets the cache manager, null included; changes no other field |
| `Builder.DefaultClientBuilder.SetAuthenticationScheme` | impl/src/main/java/com/stormpath/sdk/impl/client/DefaultClientBuilder.java:224-228 | sets the configuration's scheme, null included; nothing else changes |
| `Builder.DefaultClientBuilder.SetConnectionTimeout` | impl/src/main/java/com/stormpath/sdk/impl/client/DefaultClientBuilder.java:230-236 | rejects a negative timeout; otherwise sets only the configuration's timeout |
| `Builder.DefaultClientBuilder.SetRequestAuthenticatorFactory` | impl/src/main/java/com/stormpath/sdk/impl/client/DefaultClientBuilder.java:238-242 | rejects a null factory; otherwise sets only that configuration field |
| `Builder.DefaultClientBuilder.SetClientCredentials` | impl/src/main/java/com/stormpath/sdk/impl/client/DefaultClientBuilder.java:244-248 | rejects null (not an instance); otherwise sets the credentials; changes no other field |
| `Builder.DefaultClientBuilder.SetApiKeyResolver` | impl/src/main/java/com/stormpath/sdk/impl/client/DefaultClientBuilder.java:250-257 | rejects a null resolver; otherwise sets only that configuration field |
| `Builder.DefaultClientBuilder.SetBaseUrlResolver` | impl/src/main/java/com/stormpath/sdk/impl/client/DefaultClientBuilder.java:259-266 | rejects a null resolver; otherwise sets only that configuration field |
| `Builder.DefaultClientBuilder.SetTenantResolver` | impl/src/main/java/com/stormpath/sdk/impl/client/DefaultClientBuilder.java:268-275 | rejects a null resolver; otherwise sets only that configuration field |
| `Builder.DefaultClientBuilder.SetBaseUrl` | impl/src/main/java/com/stormpath/sdk/impl/client/DefaultClientBuilder.java:341-348 | rejects a null URL; otherwise sets only the configuration's base URL, verbatim |
| `Builder.DefaultClientBuilder.Build` | impl/src/main/java/com/stormpath/sdk/impl/client/DefaultClientBuilder.java:277-339 | disabled caching installs the disabled manager over any set one; enabled caching keeps a set manager or builds one from TTI, TTL and every override; the proxy follows `ProxyOverride`; fails with no credentials, with non-API-key credentials and no key resolver, or with no base URL and no URL resolver; otherwise the client gets exactly these parts and the tenant resolver if configured |

## Left out

- Resource lookup, file reading, and the properties, JSON and YAML parsers are not modelled.
  Each source is the mapping a parameter `read` gives for it. A missing or malformed source is
  the empty mapping.
- `System.getProperty("user.home")` and `File.separatorChar` are process globals, so they are
  the parameters `home` and `sep`.
- `Boolean.valueOf`, `Long.valueOf`, `Integer.valueOf`, `Enum.valueOf` and `Classes.forName` are
  foreign library calls. They are fields of `Conversions`, with `None` for the exception they
  throw. Java's `int`/`long` range limits live inside these parsers and are not modelled.
- `Caches`, `CacheManagerBuilder` and `CacheConfigurationBuilder` are not modelled. Their results
  are the datatypes `CacheManager` and `CacheOverride`. `DefaultApiKeyResolver`,
  `DefaultBaseUrlResolver` and `DefaultClient` construction are not modelled either. Their
  results are `KeyResolverChoice`, `UrlResolverChoice` and `Client`. The `Proxy` constructor's
  own argument checks are not part of this model.
- `DefaultClientCredentialsProviderChain` reads environment variables, system properties and
  files. It is the parameter `chain`, from configuration to credentials, and `None` models its
  failure to find any.
- Key order of the merged `LinkedHashMap` is not modelled; the map is a Dafny `map`.
  - The cache-key loop visits keys in an unspecified order.
  - The overrides it produces do not depend on that order.
  - When several cache keys are bad, which error is thrown does depend on it.
  - The model only promises the error of some bad key.
- Logging is not modelled.
- `getClientConfiguration` is a test accessor. It is not a separate member: the `clientConfig`
  field is read directly.
- Sources are taken to yield no null values. Java checks `props.get(key) != null`, and `putAll`
  copies null values as well. A later source that maps a key to null would therefore hide an
  earlier value, and the default would stay. A `map<string, string>` cannot hold null, so in the
  model a present key always has a value.
- Java's `length()` and `substring` count UTF-16 code units; the model's `|key|` counts Unicode
  scalar values. For cache keys with characters outside the Basic Multilingual Plane,
  `CacheName` and `MalformedCacheKey` can therefore disagree with Java.
- Build: the in-memory cache manager holds its overrides as a set. Two resource names whose
  overrides are equal (same class, same times) become one element. Java calls `withCache` once
  per map entry, in the map's iteration order.
