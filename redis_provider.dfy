/** `spi/providers/RedisProvider.java`. */
module RedisProvider {
  import opened Wrappers
  import opened CacheCore
  import opened CacheAdapters
  import opened ProviderSpi

  const TYPE := REDIS
  const PRIORITY := 10
  const CONNECTION_FACTORY_CLASS := "org.springframework.data.redis.connection.ReactiveRedisConnectionFactory"
  const HELPER_CLASS := "com.firefly.common.cache.factory.RedisCacheHelper"
  const PROPERTIES_CLASS := "com.firefly.common.cache.properties.CacheProperties"
  const OBJECT_MAPPER_CLASS := "com.fasterxml.jackson.databind.ObjectMapper"
  const CREATE_FAILURE := IllegalState("Failed to create Redis cache via SPI")

  /** Available when the Redis client is on the class path, a connection
      factory is present and Redis is enabled; a missing class means
      unavailable, not an error. */
  predicate IsAvailable(ctx: ProviderContext, env: Reflection)
    ensures IsAvailable(ctx, env) <==>
              ForName(env, CONNECTION_FACTORY_CLASS) && ctx.redisConnectionFactory.Ref?
              && ctx.properties.redis.enabled
  {
    if ForName(env, CONNECTION_FACTORY_CLASS) then
      ctx.redisConnectionFactory.Ref? && ctx.properties.redis.enabled
    else
      false
  }

  /** Builds the adapter through `RedisCacheHelper`, passing the cache name,
      key prefix and TTL on unchanged; any reflective failure becomes one
      IllegalStateException. */
  function Create(cacheName: string, keyPrefix: string, defaultTtl: Option<Duration>,
                  ctx: ProviderContext, env: Reflection): (r: Result<AdapterSpec, Error>)
    ensures r.Success? <==>
              && ForName(env, HELPER_CLASS) && ForName(env, CONNECTION_FACTORY_CLASS)
              && ForName(env, PROPERTIES_CLASS) && ForName(env, OBJECT_MAPPER_CLASS)
              && HELPER_CLASS !in env.failingHelpers
    ensures r.Success? ==>
              && r.value.Type() == TYPE && r.value.cacheName == cacheName
              && r.value.KeyPrefix() == keyPrefix && r.value.DefaultTtl() == defaultTtl
    ensures r.Failure? ==> r.error == CREATE_FAILURE
  {
    InvokeHelper(env, HELPER_CLASS, [CONNECTION_FACTORY_CLASS, PROPERTIES_CLASS, OBJECT_MAPPER_CLASS],
                 TYPE, cacheName, keyPrefix, defaultTtl, CREATE_FAILURE)
  }
}
