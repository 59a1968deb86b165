/** `spi/providers/JCacheProvider.java`. */
module JCacheProvider {
  import opened Wrappers
  import opened CacheCore
  import opened CacheAdapters
  import opened ProviderSpi

  const TYPE := JCACHE
  const PRIORITY := 30
  const JAVAX_MANAGER_CLASS := "javax.cache.CacheManager"
  const JAKARTA_MANAGER_CLASS := "jakarta.cache.CacheManager"
  const HELPER_CLASS := "com.firefly.common.cache.factory.JCacheCacheHelper"
  const CREATE_FAILURE := IllegalState("Failed to create JCache cache via SPI")

  /** The JCache API class found: javax first, jakarta only when javax is
      missing, none when both are. */
  function ManagerClass(env: Reflection): (r: Option<string>)
    ensures r == Some(JAVAX_MANAGER_CLASS) <==> ForName(env, JAVAX_MANAGER_CLASS)
    ensures r == Some(JAKARTA_MANAGER_CLASS) <==>
              !ForName(env, JAVAX_MANAGER_CLASS) && ForName(env, JAKARTA_MANAGER_CLASS)
    ensures r.None? <==> !ForName(env, JAVAX_MANAGER_CLASS) && !ForName(env, JAKARTA_MANAGER_CLASS)
  {
    if ForName(env, JAVAX_MANAGER_CLASS) then Some(JAVAX_MANAGER_CLASS)
    else if ForName(env, JAKARTA_MANAGER_CLASS) then Some(JAKARTA_MANAGER_CLASS)
    else None
  }

  /** Available when either JCache API is on the class path and a JCache
      manager is present. */
  predicate IsAvailable(ctx: ProviderContext, env: Reflection)
    ensures IsAvailable(ctx, env) <==>
              (ForName(env, JAVAX_MANAGER_CLASS) || ForName(env, JAKARTA_MANAGER_CLASS))
              && ctx.jcacheManager.Ref?
  {
    match ManagerClass(env)
    case None => false
    case Some(_) => ctx.jcacheManager.Ref?
  }

  /** Builds the adapter through `JCacheCacheHelper` with the API class found,
      passing the cache name, key prefix and TTL on unchanged; any reflective
      failure becomes one IllegalStateException. */
  function Create(cacheName: string, keyPrefix: string, defaultTtl: Option<Duration>,
                  ctx: ProviderContext, env: Reflection): (r: Result<AdapterSpec, Error>)
    ensures r.Success? <==>
              && ForName(env, HELPER_CLASS)
              && (ForName(env, JAVAX_MANAGER_CLASS) || ForName(env, JAKARTA_MANAGER_CLASS))
              && HELPER_CLASS !in env.failingHelpers
    ensures r.Success? ==>
              && r.value.Type() == TYPE && r.value.cacheName == cacheName
              && r.value.KeyPrefix() == keyPrefix && r.value.DefaultTtl() == defaultTtl
    ensures r.Failure? ==> r.error == CREATE_FAILURE
  {
    match ManagerClass(env)
    case None => Failure(CREATE_FAILURE)
    case Some(managerClass) =>
      InvokeHelper(env, HELPER_CLASS, [managerClass], TYPE, cacheName, keyPrefix, defaultTtl,
                   CREATE_FAILURE)
  }
}
