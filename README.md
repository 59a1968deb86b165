# Firefly cache core in Dafny

This project models the core of the Firefly common cache library: the
cache manager that keeps a registry of named cache adapters, the factory
that decides which adapters back a new manager, the configuration
properties with their defaults and per-cache lookups, and the provider
interface with its four providers (Redis, Hazelcast, JCache, Caffeine).

The modules follow the source files:

- `cache_core.dfy` holds the shared vocabulary: cache types, durations in
  milliseconds, nullable bean handles and the two exception kinds.
- `cache_properties.dfy` models `properties/CacheProperties.java`. The
  properties are a value: Lombok setters become record updates.
- `cache_adapters.dfy` holds descriptors of the adapters the factory and the
  providers build, with the configuration each is given.
- `cache_manager.dfy` models `manager/FireflyCacheManager.java` as a class.
  The class keeps its registry as a `map<string, CacheAdapter>` field and
  its lifecycle as a `closed` field. Registering, unregistering and closing
  change that state in place.
- `manager_factory.dfy` models `factory/CacheManagerFactory.java`. Caller
  detection is a loop over the stack trace, proved against a
  specification predicate.
- `provider_spi.dfy` models the provider context and `Class.forName` over a
  class-loading environment. `ProviderCatalog` in `provider_catalog.dfy`
  models the provider contract over the four providers. The providers
  themselves are `redis_provider.dfy`, `hazelcast_provider.dfy`,
  `jcache_provider.dfy` and `caffeine_provider.dfy`.

Two points where the source does not type-check are modelled as follows:

- `createCacheManager` ends with `new FireflyCacheManager(primaryCache, fallbackCache)`,
  but the manager has no such constructor. The factory's result is
  therefore the plan itself: a primary adapter, an optional fallback, and
  the description and caller it reports.
- The factory and the providers read `properties.getCaffeine()` and
  `properties.getRedis()` as one configuration each, although
  `CacheProperties` declares them as maps from cache name to
  configuration. The factory and the providers are therefore given one
  `BackendSettings`, a Caffeine configuration paired with a Redis
  configuration. The maps, with their "default" entries and lookups, are
  modelled in `Properties.CacheProperties`.

## Model

| member | source | states |
|---|---|---|
| Properties.NewCacheProperties | src/main/java/com/firefly/common/cache/properties/CacheProperties.java:46-112 | fresh properties are enabled with metrics, health and statistics on, default type CAFFEINE, default cache name "default", format "json" and a 5 s timeout; they satisfy every validation constraint, and each of the three tables holds exactly the "default" entry |
| Properties.FreshLookupsYieldDefaults | src/main/java/com/firefly/common/cache/properties/CacheProperties.java:114-264 | on fresh properties any cache name resolves to the documented defaults: Caffeine type, JSON, 1000 entries, one hour, localhost:6379, 10 s and 5 s timeouts, pool of 8 |
| Properties.RenamingKeepsValidity | src/main/java/com/firefly/common/cache/properties/CacheProperties.java:58-60 | replacing the default cache name keeps the properties valid exactly when the new name is not blank and has at most 100 characters |
| Properties.GetOrDefault | src/main/java/com/firefly/common/cache/properties/CacheProperties.java:272-294 | lookup yields the entry for the name if present, else the "default" entry, else nothing; any result is one of the table's values |
| Properties.CacheProperties.GetCacheConfig | src/main/java/com/firefly/common/cache/properties/CacheProperties.java:272-274 | a named cache's own configuration wins, an unknown name falls back to "default", and once "default" is seeded there is always an answer |
| Properties.CacheProperties.GetCaffeineConfig | src/main/java/com/firefly/common/cache/properties/CacheProperties.java:282-284 | the same fallback rule for the Caffeine table |
| Properties.CacheProperties.GetRedisConfig | src/main/java/com/firefly/common/cache/properties/CacheProperties.java:292-294 | the same fallback rule for the Redis table |
| CacheAdapters.CaffeineAdapterFor | src/main/java/com/firefly/common/cache/factory/CacheManagerFactory.java:198-216 | the Caffeine adapter carries the requested name and prefix; the caller's TTL overrides the configured expire-after-write; every other Caffeine setting is copied |
| Manager.CacheAdapter.Close | src/main/java/com/firefly/common/cache/manager/FireflyCacheManager.java:93 | closing reports whether it succeeded; an adapter whose close throws stays as it was |
| Manager.FireflyCacheManager.constructor | src/main/java/com/firefly/common/cache/manager/FireflyCacheManager.java:59-65 | a new manager is open, holds no caches, and keeps the given strategy and default cache name |
| Manager.FireflyCacheManager.WithDefaults | src/main/java/com/firefly/common/cache/manager/FireflyCacheManager.java:55-57 | the no-argument manager uses the automatic strategy and the default cache name "default" |
| Manager.FireflyCacheManager.IsClosed | src/main/java/com/firefly/common/cache/manager/FireflyCacheManager.java:410-412 | a closed manager holds no caches |
| Manager.FireflyCacheManager.GetCache | src/main/java/com/firefly/common/cache/manager/FireflyCacheManager.java:107-109 | returns the adapter registered under the name, and nothing exactly when the name is not registered |
| Manager.FireflyCacheManager.HasCache | src/main/java/com/firefly/common/cache/manager/FireflyCacheManager.java:141-143 | true exactly when the lookup finds an adapter |
| Manager.FireflyCacheManager.CacheNames | src/main/java/com/firefly/common/cache/manager/FireflyCacheManager.java:131-133 | the returned set holds exactly the names for which HasCache holds |
| Manager.FireflyCacheManager.CacheCount | src/main/java/com/firefly/common/cache/manager/FireflyCacheManager.java:150-152 | the count equals the number of registered names |
| Manager.FireflyCacheManager.DefaultCache | src/main/java/com/firefly/common/cache/manager/FireflyCacheManager.java:117-124 | with no caches the answer is "No caches registered"; otherwise it succeeds exactly when the strategy picks an adapter, fails with "No available cache found" when it does not; a success is the strategy's pick, and a registered adapter when the strategy picks among its candidates |
| Manager.FireflyCacheManager.DefaultDispatch | src/main/java/com/firefly/common/cache/manager/FireflyCacheManager.java:164-264 | the cache operations without a cache name go to the adapter the selection strategy picks, and fail with DefaultCache's error when it fails |
| Manager.FireflyCacheManager.Get | src/main/java/com/firefly/common/cache/manager/FireflyCacheManager.java:277-283 | the read goes to the named adapter exactly when it is registered; otherwise the answer is an empty optional |
| Manager.FireflyCacheManager.Put | src/main/java/com/firefly/common/cache/manager/FireflyCacheManager.java:295-301 | the write goes to the named adapter; for an unknown name it fails with IllegalArgument "Cache not found: " followed by the name |
| Manager.FireflyCacheManager.Evict | src/main/java/com/firefly/common/cache/manager/FireflyCacheManager.java:311-317 | the eviction goes to the named adapter; an unknown name answers false |
| Manager.FireflyCacheManager.Clear | src/main/java/com/firefly/common/cache/manager/FireflyCacheManager.java:325-331 | the clear goes to the named adapter; an unknown name completes without effect |
| Manager.FireflyCacheManager.HealthOf | src/main/java/com/firefly/common/cache/manager/FireflyCacheManager.java:353-359 | health of a registered cache comes from its adapter; an unknown name reports NOOP "not configured" for that name |
| Manager.FireflyCacheManager.StatsOf | src/main/java/com/firefly/common/cache/manager/FireflyCacheManager.java:379-385 | statistics of a registered cache come from its adapter; an unknown name reports empty NOOP statistics for that name |
| Manager.FireflyCacheManager.HealthAll | src/main/java/com/firefly/common/cache/manager/FireflyCacheManager.java:340-345 | one health snapshot per registered cache whose health call succeeds, failures skipped; when none fails, as many snapshots as caches |
| Manager.FireflyCacheManager.StatsAll | src/main/java/com/firefly/common/cache/manager/FireflyCacheManager.java:366-371 | one statistics snapshot per registered cache whose statistics call succeeds, failures skipped; when none fails, as many snapshots as caches |
| Manager.FireflyCacheManager.RegisterCache | src/main/java/com/firefly/common/cache/manager/FireflyCacheManager.java:73-80 | on an open manager, adds or replaces the adapter under the name without closing any adapter; on a closed one, fails with "Cache manager is closed" and changes nothing |
| Manager.FireflyCacheManager.UnregisterCache | src/main/java/com/firefly/common/cache/manager/FireflyCacheManager.java:88-99 | removes only that name, returns the adapter it held (or nothing), and closes that adapter unless its close throws; allowed on a closed manager |
| Manager.FireflyCacheManager.Close | src/main/java/com/firefly/common/cache/manager/FireflyCacheManager.java:417-436 | the first close closes every registered adapter, carrying on past failing ones, and leaves the manager closed and empty; a second close changes nothing |
| ManagerFactory.DescribedFrameIsNotUnknown | src/main/java/com/firefly/common/cache/factory/CacheManagerFactory.java:189-192 | a described frame can never be confused with "Unknown caller" |
| ManagerFactory.DetectedCallerIsUnique | src/main/java/com/firefly/common/cache/factory/CacheManagerFactory.java:179-193 | caller detection has exactly one answer for a given stack trace |
| ManagerFactory.DefaultPrefixesAreDistinct | src/main/java/com/firefly/common/cache/factory/CacheManagerFactory.java:273 | different cache names get different default key prefixes |
| ManagerFactory.CacheManagerFactory.constructor | src/main/java/com/firefly/common/cache/factory/CacheManagerFactory.java:82-89 | the factory keeps the given properties and connection factory |
| ManagerFactory.CacheManagerFactory.CreateCaffeineCacheAdapter | src/main/java/com/firefly/common/cache/factory/CacheManagerFactory.java:198-216 | a Caffeine adapter with the requested name and prefix, whose TTL is the caller's, or else the configured expire-after-write |
| ManagerFactory.CacheManagerFactory.CreateRedisCacheAdapter | src/main/java/com/firefly/common/cache/factory/CacheManagerFactory.java:221-263 | fails with "Redis connection factory is required for Redis cache" exactly when there is no connection factory; otherwise a Redis adapter with the requested name and prefix, the connection, pool, SSL and keyspace-notification settings copied, and the caller's TTL overriding the configured one |
| ManagerFactory.CacheManagerFactory.DetectCaller | src/main/java/com/firefly/common/cache/factory/CacheManagerFactory.java:179-193 | the caller is the first frame among positions 5 to 9 that does not belong to the factory, the auto-configuration, reflection or Spring, written Class.method(); "Unknown caller" exactly when there is none |
| ManagerFactory.CacheManagerFactory.CreateTrackedCacheManager | src/main/java/com/firefly/common/cache/factory/CacheManagerFactory.java:118-174 | Redis is primary with a Caffeine fallback exactly when Redis is requested and a connection factory exists; otherwise Caffeine is the only adapter. Both adapters share the cache name, the prefix and the TTL. The caller is the given one or the detected one |
| ManagerFactory.CacheManagerFactory.CreateCacheManager | src/main/java/com/firefly/common/cache/factory/CacheManagerFactory.java:100-105 | the same choice of adapters, with the description "General purpose cache" and a detected caller |
| ManagerFactory.CacheManagerFactory.CreateDefaultCacheManager | src/main/java/com/firefly/common/cache/factory/CacheManagerFactory.java:271-279 | the adapters of `createCacheManager` for the configured default type, the prefix "firefly:cache:" followed by the name, and the TTL configured for that type: when Redis is used, a Caffeine fallback with the same name and prefix; the caller is detected and the description is "General purpose cache" |
| ProviderSpi.InvokeHelper | src/main/java/com/firefly/common/cache/spi/providers/RedisProvider.java:26-39 | a reflective helper call succeeds exactly when the helper and every parameter class load and the call does not throw. It then returns an adapter built from the given name, prefix and TTL; every failure becomes the provider's one error |
| RedisProvider.IsAvailable | src/main/java/com/firefly/common/cache/spi/providers/RedisProvider.java:15-23 | available exactly when the reactive connection-factory class loads, a connection factory is present and Redis is enabled |
| RedisProvider.Create | src/main/java/com/firefly/common/cache/spi/providers/RedisProvider.java:25-39 | succeeds exactly when the helper, connection-factory, properties and ObjectMapper classes load and the helper does not throw. The adapter is of type REDIS with the given name, prefix and TTL; otherwise "Failed to create Redis cache via SPI" |
| HazelcastProvider.IsAvailable | src/main/java/com/firefly/common/cache/spi/providers/HazelcastProvider.java:14-22 | available exactly when the Hazelcast instance class loads and an instance is present |
| HazelcastProvider.Create | src/main/java/com/firefly/common/cache/spi/providers/HazelcastProvider.java:24-35 | succeeds exactly when the helper and instance classes load and the helper does not throw. The adapter is of type HAZELCAST with the given name, prefix and TTL; otherwise "Failed to create Hazelcast cache via SPI" |
| JCacheProvider.ManagerClass | src/main/java/com/firefly/common/cache/spi/providers/JCacheProvider.java:17-18 | the javax API is used when present, the jakarta API only when javax is missing, neither when both are missing |
| JCacheProvider.IsAvailable | src/main/java/com/firefly/common/cache/spi/providers/JCacheProvider.java:14-21 | available exactly when either JCache API loads and a JCache manager is present |
| JCacheProvider.Create | src/main/java/com/firefly/common/cache/spi/providers/JCacheProvider.java:23-36 | succeeds exactly when the helper and one JCache API load and the helper does not throw. The adapter is of type JCACHE with the given name, prefix and TTL; otherwise "Failed to create JCache cache via SPI" |
| CaffeineProvider.IsAvailable | src/main/java/com/firefly/common/cache/spi/providers/CaffeineProvider.java:16-17 | available exactly when Caffeine is enabled; no class or bean is consulted |
| CaffeineProvider.Create | src/main/java/com/firefly/common/cache/spi/providers/CaffeineProvider.java:18-33 | a Caffeine adapter with the given name and prefix; the caller's TTL overrides the configured expire-after-write |
| ProviderCatalog.Provider.Create | src/main/java/com/firefly/common/cache/spi/CacheProviderFactory.java:32-35 | every provider's adapter is of the provider's own type and carries the given name and prefix, and the given TTL when one is given (Caffeine without one uses its configured expire-after-write); Caffeine's creation cannot fail |
| ProviderCatalog.EachProviderHasItsOwnType | src/main/java/com/firefly/common/cache/spi/CacheProviderFactory.java:21-22 | the four providers serve REDIS, HAZELCAST, JCACHE and CAFFEINE, one each, and none serves NOOP |
| ProviderCatalog.PrioritiesFollowDocumentedOrder | src/main/java/com/firefly/common/cache/spi/CacheProviderFactory.java:24-25 | the priorities are Redis 10, Hazelcast 20, JCache 30 and Caffeine 40, so no two providers share one |
| ProviderCatalog.WithoutBeansOnlyCaffeineIsAvailable | src/main/java/com/firefly/common/cache/spi/CacheProviderFactory.java:27-30 | when no dependency bean is present, availability is still decided; only Caffeine can be available, and it is available exactly when enabled |
| ProviderCatalog.MostPreferredAvailable | src/main/java/com/firefly/common/cache/spi/CacheProviderFactory.java:24 | picks an available candidate of lowest priority value, and nothing exactly when no candidate is available |
| ProviderCatalog.AvailableRedisIsPreferred | src/main/java/com/firefly/common/cache/spi/CacheProviderFactory.java:24 | an available Redis provider is always preferred |
| ProviderCatalog.CaffeineIsLastResort | src/main/java/com/firefly/common/cache/spi/CacheProviderFactory.java:24 | Caffeine is preferred exactly when it is available and the other three are not |

## Left out

- Reactive plumbing: `Mono`/`Flux` results are modelled by what they carry. The `Dispatch` answer of a name-addressed operation says whether the manager answers itself, signals an error, or hands the call to an adapter. The adapter's own reading, writing and eviction, and the keys and values passed through, are not modelled.
- Manager.FireflyCacheManager.DefaultDispatch: a `Rejected` answer does not tell apart the exception `getDefaultCache` throws before any `Mono` exists from an error a `Mono` signals, as `put` with an unknown cache name does.
- Concurrency: the concurrent map and the volatile `closed` flag are modelled as sequential state. Interleaved registration and closing are not covered.
- The adapters' internals, and `CacheSelectionStrategy` with its automatic implementation, are not part of this model. A strategy is a function value passed to the constructor. `AutoCacheSelectionStrategy` is supplied by the caller of `WithDefaults`.
- Manager.FireflyCacheManager.HealthAll: the stream of snapshots is modelled as a map from cache name to snapshot, so the order of the stream and duplicates in it are not modelled.
- Manager.FireflyCacheManager.StatsAll: modelled as a map from cache name to snapshot, for the same reason as HealthAll.
- `getSelectionStrategy` and `getDefaultCacheName` are the class's constant fields, read directly.
- Logging is left out, including the factory's banner and the warning when Redis is requested without a connection factory.
- `Thread.currentThread().getStackTrace()` is a parameter of `DetectCaller` and of the manager-creating methods.
- Reflection is modelled by `Reflection`: the classes `Class.forName` finds and the helper classes whose invocation throws. The helper classes themselves are not part of this model. Their adapters are descriptors built from the forwarded name, prefix and TTL.
- The JSON serializer and the Redis template built inside `createRedisCacheAdapter` are not modelled; the descriptor records the `RedisCacheConfig` it is given.
- ProviderCatalog.MostPreferredAvailable: no code in the core orders providers or loads them through `ServiceLoader`. This function only makes precise the priority rule stated in the provider interface's documentation.
- Bean validation is modelled as the predicate `CacheProperties.Valid`. The `@Size` bound counts characters, not UTF-16 code units. Validation of the nested configurations (`@Valid` on the maps) is not modelled, because they carry no constraints.
- `ProviderContext`'s fields are final, which an immutable datatype gives for free. The beans are opaque handles that are either null or present.
- Durations are whole milliseconds. `Duration` precision below a millisecond is not modelled.
- Failover from the primary adapter to the fallback is not implemented in the core, because the manager it would be handed to does not accept the pair; the plan only records which adapter would be the fallback.
