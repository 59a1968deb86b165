/** `spi/CacheProviderFactory.java`: what a provider is given. The provider
    contract itself (type, priority, availability, creation) is the
    `ProviderCatalog.Provider` datatype; the context it receives is here, with
    the class-loading environment that stands for `Class.forName`. */
module ProviderSpi {
  import opened Wrappers
  import opened CacheCore
  import opened Properties
  import opened CacheAdapters

  /** `CacheProviderFactory.ProviderContext`: the settings and the optional
      dependency beans, fixed at construction. */
  datatype ProviderContext = ProviderContext(
    properties: BackendSettings,
    objectMapper: Handle,
    redisConnectionFactory: Handle,
    hazelcastInstance: Handle,
    jcacheManager: Handle)

  /** The reflective environment: the classes `Class.forName` finds, and the
      helper classes whose adapter-building method throws when looked up or
      invoked. */
  datatype Reflection = Reflection(loadable: set<string>, failingHelpers: set<string>)

  /** `Class.forName(name)`: succeeds or throws ClassNotFoundException. */
  predicate ForName(env: Reflection, name: string) {
    name in env.loadable
  }

  /** Looks up `helperClass` and the classes of its factory method's
      parameters, then invokes it with `cacheName`, `keyPrefix` and
      `defaultTtl`; the first class that is missing, or a failing invocation,
      turns into `failure`. */
  function InvokeHelper(env: Reflection, helperClass: string, parameterClasses: seq<string>,
                        cacheType: CacheType, cacheName: string, keyPrefix: string,
                        defaultTtl: Option<Duration>, failure: Error): (r: Result<AdapterSpec, Error>)
    ensures r.Success? <==> ForName(env, helperClass)
                            && (forall c :: c in parameterClasses ==> ForName(env, c))
                            && helperClass !in env.failingHelpers
    ensures r.Success? ==> r.value == HelperCacheAdapter(cacheType, cacheName, keyPrefix, defaultTtl)
    ensures r.Failure? ==> r.error == failure
    decreases |parameterClasses|
  {
    if !ForName(env, helperClass) then
      Failure(failure)
    else if |parameterClasses| == 0 then
      if helperClass in env.failingHelpers then Failure(failure)
      else Success(HelperCacheAdapter(cacheType, cacheName, keyPrefix, defaultTtl))
    else if !ForName(env, parameterClasses[0]) then
      Failure(failure)
    else
      InvokeHelper(env, helperClass, parameterClasses[1..], cacheType, cacheName, keyPrefix,
                   defaultTtl, failure)
  }
}
