/** `factory/CacheManagerFactory.java`: decides which adapters back a new
    cache manager (Redis with a Caffeine fallback, or Caffeine alone), derives
    each adapter's configuration, and finds the caller to record.

    The source hands the chosen pair to a `FireflyCacheManager` constructor
    that does not exist, and reads `getCaffeine()`/`getRedis()` as single
    configurations; here the factory's result is the plan itself, a primary
    adapter and an optional fallback, and the settings are one
    `BackendSettings`. */
module ManagerFactory {
  import opened Wrappers
  import opened CacheCore
  import opened Properties
  import opened CacheAdapters

  const UNKNOWN_CALLER := "Unknown caller"
  const FIRST_INSPECTED_FRAME := 5
  const FRAME_LIMIT := 10
  const GENERAL_PURPOSE_DESCRIPTION := "General purpose cache"
  const DEFAULT_KEY_PREFIX_ROOT := "firefly:cache:"
  const REDIS_REQUIRED_MESSAGE := "Redis connection factory is required for Redis cache"

  /** One element of a stack trace. */
  datatype StackFrame = StackFrame(className: string, methodName: string)

  /** What the factory builds: the primary adapter, the optional fallback, and
      the tracking information it reports alongside them. */
  datatype ManagerPlan = ManagerPlan(
    primary: AdapterSpec,
    fallback: Option<AdapterSpec>,
    description: string,
    requestedBy: string)

  /** `String.contains`. */
  predicate Contains(s: string, part: string)
    decreases |s|
  {
    |part| <= |s| && (s[..|part|] == part || (0 < |s| && Contains(s[1..], part)))
  }

  /** A frame of the factory itself, of the auto-configuration, of reflection
      or of Spring, which caller detection skips. */
  predicate IsInternalFrame(className: string) {
    || Contains(className, "CacheManagerFactory")
    || Contains(className, "CacheAutoConfiguration")
    || Contains(className, "java.lang.reflect")
    || Contains(className, "org.springframework")
  }

  function Describe(frame: StackFrame): string {
    frame.className + "." + frame.methodName + "()"
  }

  /** End of the inspected window, `Math.min(length, 10)`. */
  function WindowEnd(length: nat): nat {
    if length < FRAME_LIMIT then length else FRAME_LIMIT
  }

  /** `caller` is the description of the first frame in the window 5..9 that
      is not internal, or "Unknown caller" when there is none. */
  ghost predicate IsDetectedCaller(stackTrace: seq<StackFrame>, caller: string) {
    if exists i :: FIRST_INSPECTED_FRAME <= i < WindowEnd(|stackTrace|)
                   && !IsInternalFrame(stackTrace[i].className)
    then
      exists i :: FIRST_INSPECTED_FRAME <= i < WindowEnd(|stackTrace|)
                  && !IsInternalFrame(stackTrace[i].className)
                  && (forall j :: FIRST_INSPECTED_FRAME <= j < i ==> IsInternalFrame(stackTrace[j].className))
                  && caller == Describe(stackTrace[i])
    else
      caller == UNKNOWN_CALLER
  }

  /** A described frame ends in "()", so it is never mistaken for the
      unknown-caller answer. */
  lemma DescribedFrameIsNotUnknown(frame: StackFrame)
    ensures Describe(frame) != UNKNOWN_CALLER
  {
    var d := Describe(frame);
    assert d[|d| - 1] == ')';
    assert UNKNOWN_CALLER[|UNKNOWN_CALLER| - 1] == 'r';
  }

  /** Caller detection has exactly one answer for a given stack trace. */
  lemma DetectedCallerIsUnique(stackTrace: seq<StackFrame>, c1: string, c2: string)
    requires IsDetectedCaller(stackTrace, c1) && IsDetectedCaller(stackTrace, c2)
    ensures c1 == c2
  {
  }

  /** Distinct cache names give distinct default key prefixes, so default
      managers never share keys on one backend. */
  lemma {:induction false} DefaultPrefixesAreDistinct(name1: string, name2: string)
    requires name1 != name2
    ensures DEFAULT_KEY_PREFIX_ROOT + name1 != DEFAULT_KEY_PREFIX_ROOT + name2
  {
    var n := |DEFAULT_KEY_PREFIX_ROOT|;
    assert (DEFAULT_KEY_PREFIX_ROOT + name1)[n..] == name1;
    assert (DEFAULT_KEY_PREFIX_ROOT + name2)[n..] == name2;
  }

  class CacheManagerFactory {
    /** `properties.getDefaultCacheType()`. */
    const defaultCacheType: Option<CacheType>
    const settings: BackendSettings
    const redisConnectionFactory: Handle

    constructor (defaultCacheType: Option<CacheType>, settings: BackendSettings,
                 redisConnectionFactory: Handle)
      ensures this.defaultCacheType == defaultCacheType
      ensures this.settings == settings
      ensures this.redisConnectionFactory == redisConnectionFactory
    {
      this.defaultCacheType := defaultCacheType;
      this.settings := settings;
      this.redisConnectionFactory := redisConnectionFactory;
    }

    /** Redis is the primary exactly when it is requested and a connection
        factory is at hand. */
    predicate UsesRedis(cacheType: Option<CacheType>) {
      cacheType == Some(REDIS) && redisConnectionFactory.Ref?
    }

    /** The adapters of `plan` are the ones `CreateTrackedCacheManager` must
        choose for these arguments. */
    predicate FitsRequest(plan: ManagerPlan, cacheName: string, cacheType: Option<CacheType>,
                          keyPrefix: string, defaultTtl: Option<Duration>)
    {
      && (UsesRedis(cacheType) ==>
            plan.primary.Type() == REDIS && plan.fallback.Some? && plan.fallback.value.Type() == CAFFEINE)
      && (!UsesRedis(cacheType) ==> plan.primary.Type() == CAFFEINE && plan.fallback.None?)
      && plan.primary.cacheName == cacheName && plan.primary.KeyPrefix() == keyPrefix
      && (plan.fallback.Some? ==>
            plan.fallback.value.cacheName == cacheName && plan.fallback.value.KeyPrefix() == keyPrefix)
      && (defaultTtl.Some? ==>
            plan.primary.DefaultTtl() == defaultTtl
            && (plan.fallback.Some? ==> plan.fallback.value.DefaultTtl() == defaultTtl))
      && (defaultTtl.None? ==>
            plan.primary.DefaultTtl() == (if UsesRedis(cacheType) then settings.redis.defaultTtl
                                          else settings.caffeine.expireAfterWrite)
            && (plan.fallback.Some? ==>
                  plan.fallback.value.DefaultTtl() == settings.caffeine.expireAfterWrite))
    }

    function CreateCaffeineCacheAdapter(cacheName: string, keyPrefix: string,
                                        defaultTtl: Option<Duration>): (a: AdapterSpec)
      ensures a.Type() == CAFFEINE && a.cacheName == cacheName && a.KeyPrefix() == keyPrefix
      ensures a.DefaultTtl() == if defaultTtl.Some? then defaultTtl else settings.caffeine.expireAfterWrite
    {
      CaffeineAdapterFor(cacheName, keyPrefix, defaultTtl, settings.caffeine)
    }

    /** The Redis adapter: refused without a connection factory; otherwise the
        connection settings are copied and the caller's TTL overrides the
        configured default. */
    function CreateRedisCacheAdapter(cacheName: string, keyPrefix: string,
                                     defaultTtl: Option<Duration>): (r: Result<AdapterSpec, Error>)
      ensures r.Failure? <==> redisConnectionFactory.Null?
      ensures r.Failure? ==> r.error == IllegalState(REDIS_REQUIRED_MESSAGE)
      ensures r.Success? ==>
                r.value.Type() == REDIS && r.value.cacheName == cacheName && r.value.KeyPrefix() == keyPrefix
      ensures r.Success? ==>
                r.value.DefaultTtl() == if defaultTtl.Some? then defaultTtl else settings.redis.defaultTtl
      ensures r.Success? ==>
                && r.value.RedisCacheAdapter?
                && r.value.redisConfig.host == settings.redis.host
                && r.value.redisConfig.port == settings.redis.port
                && r.value.redisConfig.database == settings.redis.database
                && r.value.redisConfig.password == settings.redis.password
                && r.value.redisConfig.username == settings.redis.username
                && r.value.redisConfig.connectionTimeout == settings.redis.connectionTimeout
                && r.value.redisConfig.commandTimeout == settings.redis.commandTimeout
                && r.value.redisConfig.enableKeyspaceNotifications == settings.redis.enableKeyspaceNotifications
                && r.value.redisConfig.maxPoolSize == settings.redis.maxPoolSize
                && r.value.redisConfig.minPoolSize == settings.redis.minPoolSize
                && r.value.redisConfig.ssl == settings.redis.ssl
    {
      if redisConnectionFactory.Null? then
        Failure(IllegalState(REDIS_REQUIRED_MESSAGE))
      else
        var redis := settings.redis;
        Success(RedisCacheAdapter(cacheName, RedisCacheConfig(
          redis.host,
          redis.port,
          redis.database,
          redis.password,
          redis.username,
          redis.connectionTimeout,
          redis.commandTimeout,
          keyPrefix,
          if defaultTtl.Some? then defaultTtl else redis.defaultTtl,
          redis.enableKeyspaceNotifications,
          redis.maxPoolSize,
          redis.minPoolSize,
          redis.ssl)))
    }

    /** Scans frames 5..9 of the given stack trace for the first frame that is
        not internal and describes it as `Class.method()`. */
    method DetectCaller(stackTrace: seq<StackFrame>) returns (caller: string)
      ensures IsDetectedCaller(stackTrace, caller)
      ensures caller == UNKNOWN_CALLER <==>
                forall i :: FIRST_INSPECTED_FRAME <= i < WindowEnd(|stackTrace|) ==>
                              IsInternalFrame(stackTrace[i].className)
    {
      var i := FIRST_INSPECTED_FRAME;
      while i < WindowEnd(|stackTrace|)
        invariant FIRST_INSPECTED_FRAME <= i
        invariant forall j :: FIRST_INSPECTED_FRAME <= j < i && j < WindowEnd(|stackTrace|) ==>
                                IsInternalFrame(stackTrace[j].className)
      {
        if !IsInternalFrame(stackTrace[i].className) {
          caller := Describe(stackTrace[i]);
          DescribedFrameIsNotUnknown(stackTrace[i]);
          return;
        }
        i := i + 1;
      }
      caller := UNKNOWN_CALLER;
    }

    /** `createCacheManager(cacheName, cacheType, keyPrefix, defaultTtl,
        description, requestedBy)`; the current thread's stack trace is
        passed in. */
    method CreateTrackedCacheManager(cacheName: string, cacheType: Option<CacheType>, keyPrefix: string,
                                     defaultTtl: Option<Duration>, description: string,
                                     requestedBy: Option<string>, stackTrace: seq<StackFrame>)
      returns (r: ManagerPlan)
      ensures FitsRequest(r, cacheName, cacheType, keyPrefix, defaultTtl)
      ensures r.fallback.Some? ==> r.fallback.value.Type() != r.primary.Type()
      ensures r.description == description
      ensures requestedBy.Some? ==> r.requestedBy == requestedBy.value
      ensures requestedBy.None? ==> IsDetectedCaller(stackTrace, r.requestedBy)
    {
      var caller: string;
      if requestedBy.Some? {
        caller := requestedBy.value;
      } else {
        caller := DetectCaller(stackTrace);
      }

      var primaryCache: AdapterSpec;
      var fallbackCache: Option<AdapterSpec> := None;
      if cacheType == Some(REDIS) && redisConnectionFactory.Ref? {
        // The guard above rules out the missing-connection-factory failure.
        primaryCache := CreateRedisCacheAdapter(cacheName, keyPrefix, defaultTtl).Extract();
        fallbackCache := Some(CreateCaffeineCacheAdapter(cacheName, keyPrefix, defaultTtl));
      } else {
        primaryCache := CreateCaffeineCacheAdapter(cacheName, keyPrefix, defaultTtl);
      }
      return ManagerPlan(primaryCache, fallbackCache, description, caller);
    }

    /** `createCacheManager(cacheName, cacheType, keyPrefix, defaultTtl)`: the
        tracked variant with the general-purpose description and a detected
        caller. */
    method CreateCacheManager(cacheName: string, cacheType: Option<CacheType>, keyPrefix: string,
                              defaultTtl: Option<Duration>, stackTrace: seq<StackFrame>)
      returns (r: ManagerPlan)
      ensures FitsRequest(r, cacheName, cacheType, keyPrefix, defaultTtl)
      ensures r.description == GENERAL_PURPOSE_DESCRIPTION
      ensures IsDetectedCaller(stackTrace, r.requestedBy)
    {
      r := CreateTrackedCacheManager(cacheName, cacheType, keyPrefix, defaultTtl,
                                     GENERAL_PURPOSE_DESCRIPTION, None, stackTrace);
    }

    /** `createDefaultCacheManager(cacheName)`: the configured default type,
        the prefix "firefly:cache:<name>", and the TTL configured for that
        type. When Redis is requested its configured TTL is passed on, so it
        also governs the Caffeine adapter that stands in for Redis or backs it
        up, whenever that TTL is set. */
    method CreateDefaultCacheManager(cacheName: string, stackTrace: seq<StackFrame>)
      returns (r: ManagerPlan)
      ensures r.primary.cacheName == cacheName
      ensures r.primary.KeyPrefix() == DEFAULT_KEY_PREFIX_ROOT + cacheName
      ensures r.primary.Type() == (if UsesRedis(defaultCacheType) then REDIS else CAFFEINE)
      ensures r.primary.DefaultTtl() ==
                if defaultCacheType == Some(REDIS) && (redisConnectionFactory.Ref? || settings.redis.defaultTtl.Some?)
                then settings.redis.defaultTtl
                else settings.caffeine.expireAfterWrite
      ensures r.fallback.Some? ==>
                r.fallback.value.DefaultTtl() ==
                  if settings.redis.defaultTtl.Some? then settings.redis.defaultTtl
                  else settings.caffeine.expireAfterWrite
      ensures r.description == GENERAL_PURPOSE_DESCRIPTION
      ensures FitsRequest(r, cacheName, defaultCacheType, DEFAULT_KEY_PREFIX_ROOT + cacheName,
                          if defaultCacheType == Some(REDIS) then settings.redis.defaultTtl
                          else settings.caffeine.expireAfterWrite)
      ensures UsesRedis(defaultCacheType) ==>
                r.fallback.Some? && r.fallback.value.Type() == CAFFEINE
                && r.fallback.value.cacheName == cacheName
                && r.fallback.value.KeyPrefix() == DEFAULT_KEY_PREFIX_ROOT + cacheName
      ensures IsDetectedCaller(stackTrace, r.requestedBy)
    {
      var cacheType := defaultCacheType;
      var keyPrefix := DEFAULT_KEY_PREFIX_ROOT + cacheName;
      var defaultTtl := if cacheType == Some(REDIS) then settings.redis.defaultTtl
                        else settings.caffeine.expireAfterWrite;
      r := CreateCacheManager(cacheName, cacheType, keyPrefix, defaultTtl, stackTrace);
    }
  }
}
