/** Descriptors of the adapters the factory and the providers build. The
    adapter classes themselves (`CaffeineCacheAdapter`, `RedisCacheAdapter`, the
    Hazelcast and JCache helpers) are not part of this model; a descriptor
    records the backend type, cache name and configuration each is built
    with. */
module CacheAdapters {
  import opened Wrappers
  import opened CacheCore
  import opened Properties

  /** What `CaffeineCacheConfig.builder()...build()` is given. */
  datatype CaffeineCacheConfig = CaffeineCacheConfig(
    keyPrefix: string,
    maximumSize: int,
    expireAfterWrite: Option<Duration>,
    expireAfterAccess: Option<Duration>,
    refreshAfterWrite: Option<Duration>,
    recordStats: bool,
    weakKeys: bool,
    weakValues: bool,
    softValues: bool)

  /** What `RedisCacheConfig.builder()...build()` is given. */
  datatype RedisCacheConfig = RedisCacheConfig(
    host: string,
    port: int,
    database: int,
    password: Option<string>,
    username: Option<string>,
    connectionTimeout: Option<Duration>,
    commandTimeout: Option<Duration>,
    keyPrefix: string,
    defaultTtl: Option<Duration>,
    enableKeyspaceNotifications: bool,
    maxPoolSize: int,
    minPoolSize: int,
    ssl: bool)

  datatype AdapterSpec =
    | CaffeineCacheAdapter(cacheName: string, caffeineConfig: CaffeineCacheConfig)
    | RedisCacheAdapter(cacheName: string, redisConfig: RedisCacheConfig)
      /** An adapter built reflectively by a provider's helper class from
          exactly these arguments. */
    | HelperCacheAdapter(cacheType: CacheType, cacheName: string, keyPrefix: string,
                         helperTtl: Option<Duration>)
  {
    function Type(): CacheType {
      match this
      case CaffeineCacheAdapter(_, _) => CAFFEINE
      case RedisCacheAdapter(_, _) => REDIS
      case HelperCacheAdapter(t, _, _, _) => t
    }

    function KeyPrefix(): string {
      match this
      case CaffeineCacheAdapter(_, c) => c.keyPrefix
      case RedisCacheAdapter(_, c) => c.keyPrefix
      case HelperCacheAdapter(_, _, p, _) => p
    }

    /** The entry lifetime the adapter applies when a put gives none. */
    function DefaultTtl(): Option<Duration> {
      match this
      case CaffeineCacheAdapter(_, c) => c.expireAfterWrite
      case RedisCacheAdapter(_, c) => c.defaultTtl
      case HelperCacheAdapter(_, _, _, ttl) => ttl
    }
  }

  /** The Caffeine adapter built from a cache name, a key prefix, an optional
      TTL and the Caffeine settings: the caller's TTL overrides the configured
      expire-after-write, every other setting is copied. */
  function CaffeineAdapterFor(cacheName: string, keyPrefix: string, defaultTtl: Option<Duration>,
                              props: CaffeineConfig): (a: AdapterSpec)
    ensures a.Type() == CAFFEINE && a.cacheName == cacheName && a.KeyPrefix() == keyPrefix
    ensures defaultTtl.Some? ==> a.DefaultTtl() == defaultTtl
    ensures defaultTtl.None? ==> a.DefaultTtl() == props.expireAfterWrite
    ensures a.CaffeineCacheAdapter? && a.caffeineConfig.maximumSize == props.maximumSize
    ensures a.caffeineConfig.expireAfterAccess == props.expireAfterAccess
    ensures a.caffeineConfig.refreshAfterWrite == props.refreshAfterWrite
    ensures a.caffeineConfig.recordStats == props.recordStats
    ensures a.caffeineConfig.weakKeys == props.weakKeys
    ensures a.caffeineConfig.weakValues == props.weakValues
    ensures a.caffeineConfig.softValues == props.softValues
  {
    CaffeineCacheAdapter(cacheName, CaffeineCacheConfig(
      keyPrefix,
      props.maximumSize,
      if defaultTtl.Some? then defaultTtl else props.expireAfterWrite,
      props.expireAfterAccess,
      props.refreshAfterWrite,
      props.recordStats,
      props.weakKeys,
      props.weakValues,
      props.softValues))
  }
}
