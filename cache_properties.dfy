/** `properties/CacheProperties.java`: the library's configuration data, its
    documented defaults, its validation constraints, and the three name-keyed
    tables whose lookups fall back to the "default" entry. */
module Properties {
  import opened Wrappers
  import opened CacheCore

  /** The key every table is seeded with, and the one lookups fall back to. */
  const DEFAULT_ENTRY := "default"

  const MAX_DEFAULT_CACHE_NAME_LENGTH := 100

  /** Per-cache settings (`CacheProperties.CacheConfig`). */
  datatype CacheConfig = CacheConfig(
    cacheType: CacheType,
    defaultTtl: Option<Duration>,
    enabled: bool,
    serializationFormat: string)

  /** Caffeine settings (`CacheProperties.CaffeineConfig`). */
  datatype CaffeineConfig = CaffeineConfig(
    enabled: bool,
    maximumSize: int,
    expireAfterWrite: Option<Duration>,
    expireAfterAccess: Option<Duration>,
    refreshAfterWrite: Option<Duration>,
    recordStats: bool,
    weakKeys: bool,
    weakValues: bool,
    softValues: bool)

  /** Redis settings (`CacheProperties.RedisConfig`). */
  datatype RedisConfig = RedisConfig(
    enabled: bool,
    host: string,
    port: int,
    database: int,
    password: Option<string>,
    username: Option<string>,
    connectionTimeout: Option<Duration>,
    commandTimeout: Option<Duration>,
    keyPrefix: string,
    defaultTtl: Option<Duration>,
    enableKeyspaceNotifications: bool,
    maxPoolSize: int,
    minPoolSize: int,
    ssl: bool,
    properties: map<string, string>)

  /** The one Caffeine and one Redis configuration that the factory and the
      providers read through `getCaffeine()` and `getRedis()`. */
  datatype BackendSettings = BackendSettings(caffeine: CaffeineConfig, redis: RedisConfig)

  const DEFAULT_CACHE_CONFIG := CacheConfig(CAFFEINE, None, true, "json")

  const DEFAULT_CAFFEINE_CONFIG :=
    CaffeineConfig(true, 1000, Some(Hours(1)), None, None, true, false, false, false)

  const DEFAULT_REDIS_CONFIG :=
    RedisConfig(true, "localhost", 6379, 0, None, None, Some(Seconds(10)), Some(Seconds(5)),
                "firefly:cache", None, false, 8, 0, false, map[])

  /** Blank in the sense of bean validation's @NotBlank: nothing is left once
      leading and trailing characters up to U+0020 are trimmed. */
  predicate IsBlank(s: string) {
    forall i | 0 <= i < |s| :: s[i] <= ' '
  }

  /** `Map.getOrDefault(name, m.get("default"))`: the entry for `name`, else the
      "default" entry, else null. */
  function GetOrDefault<V(==)>(m: map<string, V>, name: string): (r: Option<V>)
    ensures r.Some? <==> name in m || DEFAULT_ENTRY in m
    ensures r.Some? ==> r.value in m.Values
    ensures name in m ==> r == Some(m[name])
    ensures name !in m && DEFAULT_ENTRY in m ==> r == Some(m[DEFAULT_ENTRY])
  {
    if name in m then Some(m[name])
    else if DEFAULT_ENTRY in m then Some(m[DEFAULT_ENTRY])
    else None
  }

  datatype CacheProperties = CacheProperties(
    enabled: bool,
    defaultCacheType: Option<CacheType>,
    defaultCacheName: Option<string>,
    defaultSerializationFormat: Option<string>,
    defaultTimeout: Option<Duration>,
    metricsEnabled: bool,
    healthEnabled: bool,
    statsEnabled: bool,
    caches: map<string, CacheConfig>,
    caffeine: map<string, CaffeineConfig>,
    redis: map<string, RedisConfig>)
  {
    /** Each of the three tables holds a "default" entry. */
    predicate Seeded() {
      DEFAULT_ENTRY in caches && DEFAULT_ENTRY in caffeine && DEFAULT_ENTRY in redis
    }

    /** The bean-validation constraints on the top-level fields. */
    predicate Valid() {
      && defaultCacheType.Some?
      && defaultCacheName.Some?
      && !IsBlank(defaultCacheName.value)
      && |defaultCacheName.value| <= MAX_DEFAULT_CACHE_NAME_LENGTH
      && defaultSerializationFormat.Some?
      && defaultTimeout.Some?
    }

    function GetCacheConfig(name: string): (r: Option<CacheConfig>)
      ensures Seeded() ==> r.Some?
      ensures name in caches ==> r == Some(caches[name])
      ensures name !in caches ==> r == if DEFAULT_ENTRY in caches then Some(caches[DEFAULT_ENTRY]) else None
    {
      GetOrDefault(caches, name)
    }

    function GetCaffeineConfig(name: string): (r: Option<CaffeineConfig>)
      ensures Seeded() ==> r.Some?
      ensures name in caffeine ==> r == Some(caffeine[name])
      ensures name !in caffeine ==> r == if DEFAULT_ENTRY in caffeine then Some(caffeine[DEFAULT_ENTRY]) else None
    {
      GetOrDefault(caffeine, name)
    }

    function GetRedisConfig(name: string): (r: Option<RedisConfig>)
      ensures Seeded() ==> r.Some?
      ensures name in redis ==> r == Some(redis[name])
      ensures name !in redis ==> r == if DEFAULT_ENTRY in redis then Some(redis[DEFAULT_ENTRY]) else None
    {
      GetOrDefault(redis, name)
    }
  }

  /** The no-argument constructor: field initialisers plus the three seeded
      tables. */
  function NewCacheProperties(): (p: CacheProperties)
    ensures p.Seeded() && p.Valid()
    ensures p.caches.Keys == p.caffeine.Keys == p.redis.Keys == {DEFAULT_ENTRY}
    ensures p.enabled && p.metricsEnabled && p.healthEnabled && p.statsEnabled
    ensures p.defaultCacheType == Some(CAFFEINE) && p.defaultCacheName == Some("default")
    ensures p.defaultSerializationFormat == Some("json") && p.defaultTimeout == Some(Seconds(5))
  {
    assert !IsBlank("default") by { assert "default"[0] == 'd'; }
    CacheProperties(
      true, Some(CAFFEINE), Some("default"), Some("json"), Some(Seconds(5)),
      true, true, true,
      map[DEFAULT_ENTRY := DEFAULT_CACHE_CONFIG],
      map[DEFAULT_ENTRY := DEFAULT_CAFFEINE_CONFIG],
      map[DEFAULT_ENTRY := DEFAULT_REDIS_CONFIG])
  }

  /** On freshly constructed properties every cache name, registered or not,
      resolves to the documented defaults. */
  lemma FreshLookupsYieldDefaults(name: string)
    ensures NewCacheProperties().GetCacheConfig(name) == Some(DEFAULT_CACHE_CONFIG)
    ensures NewCacheProperties().GetCaffeineConfig(name) == Some(DEFAULT_CAFFEINE_CONFIG)
    ensures NewCacheProperties().GetRedisConfig(name) == Some(DEFAULT_REDIS_CONFIG)
  {
  }

  /** Replacing the default cache name (a Lombok setter) keeps the properties
      valid exactly when the new name is non-blank and at most 100 characters. */
  lemma RenamingKeepsValidity(p: CacheProperties, name: string)
    requires p.Valid()
    ensures p.(defaultCacheName := Some(name)).Valid()
            <==> !IsBlank(name) && |name| <= MAX_DEFAULT_CACHE_NAME_LENGTH
  {
  }
}
