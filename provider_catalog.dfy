/** The provider contract of `spi/CacheProviderFactory.java` (type, priority,
    availability, creation) over the four shipped providers, and the
    priority order its documentation states. */
module ProviderCatalog {
  import opened Wrappers
  import opened CacheCore
  import opened CacheAdapters
  import opened ProviderSpi
  import RedisProvider
  import HazelcastProvider
  import JCacheProvider
  import CaffeineProvider

  datatype Provider = Redis | Hazelcast | JCache | Caffeine {

    function Type(): CacheType {
      match this
      case Redis => RedisProvider.TYPE
      case Hazelcast => HazelcastProvider.TYPE
      case JCache => JCacheProvider.TYPE
      case Caffeine => CaffeineProvider.TYPE
    }

    /** Lower is preferred. */
    function Priority(): int {
      match this
      case Redis => RedisProvider.PRIORITY
      case Hazelcast => HazelcastProvider.PRIORITY
      case JCache => JCacheProvider.PRIORITY
      case Caffeine => CaffeineProvider.PRIORITY
    }

    predicate IsAvailable(ctx: ProviderContext, env: Reflection) {
      match this
      case Redis => RedisProvider.IsAvailable(ctx, env)
      case Hazelcast => HazelcastProvider.IsAvailable(ctx, env)
      case JCache => JCacheProvider.IsAvailable(ctx, env)
      case Caffeine => CaffeineProvider.IsAvailable(ctx)
    }

    /** `create(cacheName, keyPrefix, defaultTtl, ctx)`: an adapter of the
        provider's own type for the given cache name and key prefix. */
    function Create(cacheName: string, keyPrefix: string, defaultTtl: Option<Duration>,
                    ctx: ProviderContext, env: Reflection): (r: Result<AdapterSpec, Error>)
      ensures r.Success? ==>
                r.value.Type() == Type() && r.value.cacheName == cacheName && r.value.KeyPrefix() == keyPrefix
      ensures r.Success? && defaultTtl.Some? ==> r.value.DefaultTtl() == defaultTtl
      ensures this == Caffeine ==> r.Success?
    {
      match this
      case Redis => RedisProvider.Create(cacheName, keyPrefix, defaultTtl, ctx, env)
      case Hazelcast => HazelcastProvider.Create(cacheName, keyPrefix, defaultTtl, ctx, env)
      case JCache => JCacheProvider.Create(cacheName, keyPrefix, defaultTtl, ctx, env)
      case Caffeine => Success(CaffeineProvider.Create(cacheName, keyPrefix, defaultTtl, ctx))
    }
  }

  /** The four providers shipped with the library. */
  const PROVIDERS: seq<Provider> := [Redis, Hazelcast, JCache, Caffeine]

  /** Each provider serves its own backend, so a cache type names at most
      one provider; none serves NOOP. */
  lemma EachProviderHasItsOwnType()
    ensures Redis.Type() == REDIS && Hazelcast.Type() == HAZELCAST
    ensures JCache.Type() == JCACHE && Caffeine.Type() == CAFFEINE
    ensures forall p: Provider, q: Provider :: p.Type() == q.Type() ==> p == q
    ensures forall p: Provider :: p.Type() != NOOP
  {
  }

  /** The documented order: Redis 10 < Hazelcast 20 < JCache 30 < Caffeine 40,
      so no two providers share a priority. */
  lemma PrioritiesFollowDocumentedOrder()
    ensures Redis.Priority() == 10 && Hazelcast.Priority() == 20
    ensures JCache.Priority() == 30 && Caffeine.Priority() == 40
    ensures forall p: Provider, q: Provider :: p.Priority() == q.Priority() ==> p == q
  {
  }

  /** Without any dependency bean in the context, only Caffeine can be
      available, whatever the class path holds. */
  lemma WithoutBeansOnlyCaffeineIsAvailable(ctx: ProviderContext, env: Reflection)
    requires ctx.redisConnectionFactory.Null? && ctx.hazelcastInstance.Null? && ctx.jcacheManager.Null?
    ensures forall p: Provider :: p.IsAvailable(ctx, env) ==> p == Caffeine
    ensures Caffeine.IsAvailable(ctx, env) == ctx.properties.caffeine.enabled
  {
  }

  // Selection by priority. No resolver that orders providers appears in the
  // source: the factory hard-codes Redis with a Caffeine fallback. The
  // function below only spells out what the priority comment of the
  // provider interface promises ("lower is higher priority").

  /** The available candidate with the lowest priority value; among equal
      priorities the earlier candidate. */
  function MostPreferredAvailable(candidates: seq<Provider>, ctx: ProviderContext,
                                  env: Reflection): (r: Option<Provider>)
    ensures r.Some? ==> r.value in candidates && r.value.IsAvailable(ctx, env)
    ensures r.Some? ==> forall p :: p in candidates && p.IsAvailable(ctx, env) ==>
                                      r.value.Priority() <= p.Priority()
    ensures r.None? <==> forall p :: p in candidates ==> !p.IsAvailable(ctx, env)
    decreases |candidates|
  {
    if |candidates| == 0 then
      None
    else
      var best := MostPreferredAvailable(candidates[1..], ctx, env);
      if !candidates[0].IsAvailable(ctx, env) then best
      else if best.Some? && best.value.Priority() < candidates[0].Priority() then best
      else Some(candidates[0])
  }

  /** An available Redis always wins. */
  lemma AvailableRedisIsPreferred(ctx: ProviderContext, env: Reflection)
    requires Redis.IsAvailable(ctx, env)
    ensures MostPreferredAvailable(PROVIDERS, ctx, env) == Some(Redis)
  {
    var r := MostPreferredAvailable(PROVIDERS, ctx, env);
    assert Redis in PROVIDERS;
    PrioritiesFollowDocumentedOrder();
  }

  /** Caffeine is chosen only as the last resort: when it is available and
      none of the other three is. */
  lemma CaffeineIsLastResort(ctx: ProviderContext, env: Reflection)
    ensures MostPreferredAvailable(PROVIDERS, ctx, env) == Some(Caffeine) <==>
              && Caffeine.IsAvailable(ctx, env)
              && !Redis.IsAvailable(ctx, env)
              && !Hazelcast.IsAvailable(ctx, env)
              && !JCache.IsAvailable(ctx, env)
  {
    var r := MostPreferredAvailable(PROVIDERS, ctx, env);
    assert Redis in PROVIDERS && Hazelcast in PROVIDERS && JCache in PROVIDERS && Caffeine in PROVIDERS;
    PrioritiesFollowDocumentedOrder();
  }
}
