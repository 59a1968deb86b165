/** `spi/providers/CaffeineProvider.java`. */
module CaffeineProvider {
  import opened Wrappers
  import opened CacheCore
  import opened CacheAdapters
  import opened ProviderSpi

  const TYPE := CAFFEINE
  const PRIORITY := 40

  /** Available exactly when Caffeine is enabled: no class or bean is
      consulted. */
  predicate IsAvailable(ctx: ProviderContext)
    ensures IsAvailable(ctx) <==> ctx.properties.caffeine.enabled
  {
    ctx.properties.caffeine.enabled
  }

  /** Builds the Caffeine adapter directly, as the factory does. */
  function Create(cacheName: string, keyPrefix: string, defaultTtl: Option<Duration>,
                  ctx: ProviderContext): (a: AdapterSpec)
    ensures a.Type() == TYPE && a.cacheName == cacheName && a.KeyPrefix() == keyPrefix
    ensures a.DefaultTtl() ==
              if defaultTtl.Some? then defaultTtl else ctx.properties.caffeine.expireAfterWrite
  {
    CaffeineAdapterFor(cacheName, keyPrefix, defaultTtl, ctx.properties.caffeine)
  }
}
