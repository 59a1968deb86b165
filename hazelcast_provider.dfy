/** `spi/providers/HazelcastProvider.java`. */
module HazelcastProvider {
  import opened Wrappers
  import opened CacheCore
  import opened CacheAdapters
  import opened ProviderSpi

  const TYPE := HAZELCAST
  const PRIORITY := 20
  const INSTANCE_CLASS := "com.hazelcast.core.HazelcastInstance"
  const HELPER_CLASS := "com.firefly.common.cache.factory.HazelcastCacheHelper"
  const CREATE_FAILURE := IllegalState("Failed to create Hazelcast cache via SPI")

  /** Available when Hazelcast is on the class path and an instance is
      present; a missing class means unavailable. */
  predicate IsAvailable(ctx: ProviderContext, env: Reflection)
    ensures IsAvailable(ctx, env) <==> ForName(env, INSTANCE_CLASS) && ctx.hazelcastInstance.Ref?
  {
    if ForName(env, INSTANCE_CLASS) then ctx.hazelcastInstance.Ref? else false
  }

  /** Builds the adapter through `HazelcastCacheHelper`, passing the cache
      name, key prefix and TTL on unchanged; any reflective failure becomes one
      IllegalStateException. */
  function Create(cacheName: string, keyPrefix: string, defaultTtl: Option<Duration>,
                  ctx: ProviderContext, env: Reflection): (r: Result<AdapterSpec, Error>)
    ensures r.Success? <==>
              ForName(env, HELPER_CLASS) && ForName(env, INSTANCE_CLASS) && HELPER_CLASS !in env.failingHelpers
    ensures r.Success? ==>
              && r.value.Type() == TYPE && r.value.cacheName == cacheName
              && r.value.KeyPrefix() == keyPrefix && r.value.DefaultTtl() == defaultTtl
    ensures r.Failure? ==> r.error == CREATE_FAILURE
  {
    InvokeHelper(env, HELPER_CLASS, [INSTANCE_CLASS], TYPE, cacheName, keyPrefix, defaultTtl,
                 CREATE_FAILURE)
  }
}
