/** Types the core uses from packages that are not part of this model
    (`core.CacheType`, `java.time.Duration`, the exceptions it throws, and the
    optional dependency beans it receives as plain references). */
module CacheCore {

  /** The backend kinds the core refers to. */
  datatype CacheType = CAFFEINE | REDIS | HAZELCAST | JCACHE | NOOP

  /** A `java.time.Duration`, counted in milliseconds. */
  type Duration = int

  function Seconds(n: int): Duration { n * 1000 }

  function Hours(n: int): Duration { n * 3600 * 1000 }

  /** A reference to an external bean (a Redis connection factory, a Hazelcast
      instance, a JCache manager, an ObjectMapper) that may be null. Only its
      presence matters to the core. */
  datatype Handle = Null | Ref(id: nat)

  /** The exceptions the core throws, with their messages. */
  datatype Error =
    | IllegalState(message: string)
    | IllegalArgument(message: string)
}
