/** `manager/FireflyCacheManager.java`: a registry of named cache adapters with
    an OPEN -> CLOSED lifecycle. Lookups and name-addressed operations are pure
    reads of the registry; `RegisterCache`, `UnregisterCache` and `Close` change
    it in place. */
module Manager {
  import opened Wrappers
  import opened CacheCore

  const CLOSED_MESSAGE := "Cache manager is closed"
  const NO_CACHES_MESSAGE := "No caches registered"
  const NO_AVAILABLE_MESSAGE := "No available cache found"
  const NOT_FOUND_PREFIX := "Cache not found: "

  /** A health snapshot (`core.CacheHealth`). */
  datatype CacheHealth =
    | NotConfigured(cacheType: CacheType, cacheName: string)
    | ReportedHealth(cacheType: CacheType, cacheName: string, healthy: bool)

  /** A statistics snapshot (`core.CacheStats`). */
  datatype CacheStats =
    | EmptyStats(cacheType: CacheType, cacheName: string)
    | ReportedStats(cacheType: CacheType, cacheName: string, hits: nat, misses: nat)

  /** A live adapter (`core.CacheAdapter`): the backend behind it is not part
      of this model, only its identity, its type and name, what its health and
      statistics calls report (None when they signal an error), whether its
      `close()` throws, and whether it has been closed. */
  class CacheAdapter {
    const cacheType: CacheType
    const cacheName: string
    const closeFails: bool
    const health: Option<CacheHealth>
    const stats: Option<CacheStats>
    var closed: bool

    constructor (cacheType: CacheType, cacheName: string, closeFails: bool,
                 health: Option<CacheHealth>, stats: Option<CacheStats>)
      ensures this.cacheType == cacheType && this.cacheName == cacheName
      ensures this.closeFails == closeFails && this.health == health && this.stats == stats
      ensures !closed
    {
      this.cacheType := cacheType;
      this.cacheName := cacheName;
      this.closeFails := closeFails;
      this.health := health;
      this.stats := stats;
      closed := false;
    }

    /** Releases the backend; reports false when `close()` throws, in which
        case the adapter is left as it was. */
    method Close() returns (ok: bool)
      modifies this
      ensures ok == !closeFails
      ensures closed == (old(closed) || !closeFails)
    {
      ok := !closeFails;
      if ok {
        closed := true;
      }
    }
  }

  /** `CacheSelectionStrategy.selectCache`: picks one of the registered
      adapters, or none. */
  type SelectionStrategy = set<CacheAdapter> -> Option<CacheAdapter>

  /** The strategy, offered these adapters, picks one of them or none. */
  predicate PicksACandidate(strategy: SelectionStrategy, candidates: set<CacheAdapter>) {
    strategy(candidates).Some? ==> strategy(candidates).value in candidates
  }

  /** A value read from a cache; its contents are the adapter's business. */
  datatype CachedValue = CachedValue(id: nat)

  /** The answer to a name-addressed operation: a fixed answer given by the
      manager itself, an error it signals, or the registered adapter the
      operation is handed to. */
  datatype Dispatch<+T> =
    | Immediate(value: T)
    | Rejected(error: Error)
    | Delegated(target: CacheAdapter)

  class FireflyCacheManager {
    var caches: map<string, CacheAdapter>
    const selectionStrategy: SelectionStrategy
    const defaultCacheName: string
    var closed: bool

    /** A closed manager holds no adapters: `Close` empties the registry and
        `RegisterCache` refuses to add to a closed one. */
    ghost predicate Valid()
      reads this
    {
      closed ==> caches == map[]
    }

    constructor (selectionStrategy: SelectionStrategy, defaultCacheName: string)
      ensures Valid() && !closed && caches == map[]
      ensures this.selectionStrategy == selectionStrategy
      ensures this.defaultCacheName == defaultCacheName
    {
      caches := map[];
      this.selectionStrategy := selectionStrategy;
      this.defaultCacheName := defaultCacheName;
      closed := false;
    }

    /** The no-argument constructor; the automatic selection strategy it
        installs is not part of this model and is passed in. */
    constructor WithDefaults(autoStrategy: SelectionStrategy)
      ensures Valid() && !closed && caches == map[]
      ensures selectionStrategy == autoStrategy
      ensures defaultCacheName == "default"
    {
      caches := map[];
      selectionStrategy := autoStrategy;
      defaultCacheName := "default";
      closed := false;
    }

    function IsClosed(): (r: bool)
      reads this
      ensures r && Valid() ==> caches == map[]
    {
      closed
    }

    function GetCache(name: string): (r: Option<CacheAdapter>)
      reads this
      ensures r.Some? <==> name in caches
      ensures r.Some? ==> r.value == caches[name]
    {
      if name in caches then Some(caches[name]) else None
    }

    function HasCache(name: string): (r: bool)
      reads this
      ensures r <==> GetCache(name).Some?
    {
      name in caches
    }

    /** A fresh set holding the registered names. */
    function CacheNames(): (r: set<string>)
      reads this
      ensures forall name :: name in r <==> HasCache(name)
    {
      caches.Keys
    }

    function CacheCount(): (r: nat)
      reads this
      ensures r == |CacheNames()|
    {
      |caches|
    }

    /** The adapter the selection strategy picks among the registered ones. */
    function DefaultCache(): (r: Result<CacheAdapter, Error>)
      reads this
      ensures CacheCount() == 0 ==> r == Failure(IllegalState(NO_CACHES_MESSAGE))
      ensures CacheCount() > 0 ==> (r.Success? <==> selectionStrategy(caches.Values).Some?)
      ensures CacheCount() > 0 && r.Failure? ==> r.error == IllegalState(NO_AVAILABLE_MESSAGE)
      ensures CacheCount() > 0 && r.Success? ==> r.value == selectionStrategy(caches.Values).value
      ensures PicksACandidate(selectionStrategy, caches.Values) && r.Success? ==>
                exists name :: name in caches && caches[name] == r.value
    {
      if caches == map[] then
        Failure(IllegalState(NO_CACHES_MESSAGE))
      else
        match selectionStrategy(caches.Values)
        case Some(adapter) => Success(adapter)
        case None => Failure(IllegalState(NO_AVAILABLE_MESSAGE))
    }

    /** The convenience operations addressed to the default cache (`get`,
        `put`, `putIfAbsent`, `evict`, `clear`, `exists` without a cache
        name): each is handed to the adapter `DefaultCache` selects, and
        fails the way it fails. */
    function DefaultDispatch(): (r: Dispatch<()>)
      reads this
      ensures r.Delegated? <==> DefaultCache().Success?
      ensures r.Delegated? ==> r.target == DefaultCache().value
      ensures r.Delegated? ==> r.target == selectionStrategy(caches.Values).value
      ensures !r.Delegated? ==> r == Rejected(DefaultCache().error)
      ensures CacheCount() == 0 ==> r == Rejected(IllegalState(NO_CACHES_MESSAGE))
    {
      match DefaultCache()
      case Success(adapter) => Delegated(adapter)
      case Failure(e) => Rejected(e)
    }

    // Name-addressed operations. The key and value are handed to the adapter
    // untouched, so only the routing decision is modelled.

    function Get(cacheName: string): (r: Dispatch<Option<CachedValue>>)
      reads this
      ensures r.Delegated? <==> HasCache(cacheName)
      ensures r.Delegated? ==> GetCache(cacheName) == Some(r.target)
      ensures !HasCache(cacheName) ==> r == Immediate(None)
    {
      if cacheName in caches then Delegated(caches[cacheName]) else Immediate(None)
    }

    function Put(cacheName: string): (r: Dispatch<()>)
      reads this
      ensures r.Delegated? <==> HasCache(cacheName)
      ensures r.Delegated? ==> GetCache(cacheName) == Some(r.target)
      ensures !HasCache(cacheName) ==> r == Rejected(IllegalArgument(NOT_FOUND_PREFIX + cacheName))
    {
      if cacheName in caches then Delegated(caches[cacheName])
      else Rejected(IllegalArgument(NOT_FOUND_PREFIX + cacheName))
    }

    function Evict(cacheName: string): (r: Dispatch<bool>)
      reads this
      ensures r.Delegated? <==> HasCache(cacheName)
      ensures r.Delegated? ==> GetCache(cacheName) == Some(r.target)
      ensures !HasCache(cacheName) ==> r == Immediate(false)
    {
      if cacheName in caches then Delegated(caches[cacheName]) else Immediate(false)
    }

    function Clear(cacheName: string): (r: Dispatch<()>)
      reads this
      ensures r.Delegated? <==> HasCache(cacheName)
      ensures r.Delegated? ==> GetCache(cacheName) == Some(r.target)
      ensures !HasCache(cacheName) ==> r == Immediate(())
    {
      if cacheName in caches then Delegated(caches[cacheName]) else Immediate(())
    }

    function HealthOf(cacheName: string): (r: Dispatch<CacheHealth>)
      reads this
      ensures r.Delegated? <==> HasCache(cacheName)
      ensures r.Delegated? ==> GetCache(cacheName) == Some(r.target)
      ensures !HasCache(cacheName) ==> r == Immediate(NotConfigured(NOOP, cacheName))
    {
      if cacheName in caches then Delegated(caches[cacheName])
      else Immediate(NotConfigured(NOOP, cacheName))
    }

    function StatsOf(cacheName: string): (r: Dispatch<CacheStats>)
      reads this
      ensures r.Delegated? <==> HasCache(cacheName)
      ensures r.Delegated? ==> GetCache(cacheName) == Some(r.target)
      ensures !HasCache(cacheName) ==> r == Immediate(EmptyStats(NOOP, cacheName))
    {
      if cacheName in caches then Delegated(caches[cacheName])
      else Immediate(EmptyStats(NOOP, cacheName))
    }

    /** Health of every registered adapter, one snapshot per registered name;
        an adapter whose health call fails is skipped. */
    function HealthAll(): (r: map<string, CacheHealth>)
      reads this
      ensures forall name :: name in r <==> name in caches && caches[name].health.Some?
      ensures forall name :: name in r ==> r[name] == caches[name].health.value
      ensures (forall name :: name in caches ==> caches[name].health.Some?) ==> |r| == CacheCount()
    {
      var r := map name | name in caches && caches[name].health.Some? :: caches[name].health.value;
      assert (forall name :: name in caches ==> caches[name].health.Some?) ==> r.Keys == caches.Keys;
      r
    }

    /** Statistics of every registered adapter, one snapshot per registered
        name; an adapter whose statistics call fails is skipped. */
    function StatsAll(): (r: map<string, CacheStats>)
      reads this
      ensures forall name :: name in r <==> name in caches && caches[name].stats.Some?
      ensures forall name :: name in r ==> r[name] == caches[name].stats.value
      ensures (forall name :: name in caches ==> caches[name].stats.Some?) ==> |r| == CacheCount()
    {
      var r := map name | name in caches && caches[name].stats.Some? :: caches[name].stats.value;
      assert (forall name :: name in caches ==> caches[name].stats.Some?) ==> r.Keys == caches.Keys;
      r
    }

    /** Adds or replaces the adapter under `name`; a replaced adapter is not
        closed. Refused once the manager is closed. */
    method RegisterCache(name: string, adapter: CacheAdapter) returns (outcome: Result<(), Error>)
      requires Valid()
      modifies this
      ensures Valid() && closed == old(closed)
      ensures old(closed) ==> outcome == Failure(IllegalState(CLOSED_MESSAGE)) && caches == old(caches)
      ensures !old(closed) ==> outcome == Success(()) && caches == old(caches)[name := adapter]
      ensures forall a | a in old(caches.Values) :: a.closed == old(a.closed)
    {
      if closed {
        return Failure(IllegalState(CLOSED_MESSAGE));
      }
      caches := caches[name := adapter];
      outcome := Success(());
    }

    /** Removes `name` and closes the adapter it held (a failing close is
        ignored); works on a closed manager too. */
    method UnregisterCache(name: string) returns (removed: Option<CacheAdapter>)
      requires Valid()
      modifies this, if name in caches then {caches[name]} else {}
      ensures Valid() && closed == old(closed)
      ensures caches == old(caches) - {name}
      ensures removed == old(GetCache(name))
      ensures removed.Some? ==>
                removed.value.closed == (old(removed.value.closed) || !removed.value.closeFails)
    {
      if name in caches {
        var adapter := caches[name];
        caches := caches - {name};
        var closedCleanly := adapter.Close();
        removed := Some(adapter);
      } else {
        removed := None;
      }
    }

    /** Closes the manager: the first call closes every registered adapter,
        carrying on past adapters whose close fails, and empties the registry;
        later calls change nothing. */
    method Close()
      requires Valid()
      modifies this, caches.Values
      ensures Valid() && closed && caches == map[]
      ensures old(closed) ==> unchanged(this)
      ensures forall a | a in old(caches.Values) :: a.closed == (old(a.closed) || !a.closeFails)
    {
      if closed {
        return;
      }
      closed := true;
      var pending := caches.Keys;
      ghost var visited: set<CacheAdapter> := {};
      while pending != {}
        invariant closed && caches == old(caches) && pending <= caches.Keys
        invariant visited <= caches.Values
        invariant forall name | name in caches.Keys - pending :: caches[name] in visited
        invariant forall a | a in caches.Values ::
                    a.closed == (old(a.closed) || (a in visited && !a.closeFails))
        decreases pending
      {
        var name :| name in pending;
        var adapter := caches[name];
        var closedCleanly := adapter.Close();
        visited := visited + {adapter};
        pending := pending - {name};
      }
      caches := map[];
    }
  }

  /** The scenarios of the manager's unit tests, as a client sees them through
      the contracts above. */
  method RegistryScenario(autoStrategy: SelectionStrategy, a1: CacheAdapter, a2: CacheAdapter)
    requires a1 != a2 && !a1.closeFails
    modifies a1, a2
  {
    var manager := new FireflyCacheManager.WithDefaults(autoStrategy);
    assert manager.DefaultCache() == Failure(IllegalState(NO_CACHES_MESSAGE));
    assert manager.DefaultDispatch() == Rejected(IllegalState(NO_CACHES_MESSAGE));
    assert manager.Get("non-existent") == Immediate(None);
    assert manager.Evict("non-existent") == Immediate(false);

    var ok := manager.RegisterCache("test-cache", a1);
    assert manager.HasCache("test-cache") && manager.GetCache("test-cache") == Some(a1);
    assert manager.CacheNames() == {"test-cache"};

    var removed := manager.UnregisterCache("test-cache");
    assert removed == Some(a1) && a1.closed;
    assert !manager.HasCache("test-cache") && manager.CacheCount() == 0;

    ok := manager.RegisterCache("cache1", a1);
    ok := manager.RegisterCache("cache2", a2);
    assert !manager.IsClosed();
    manager.Close();
    assert manager.IsClosed() && manager.CacheCount() == 0;

    ok := manager.RegisterCache("test", a1);
    assert ok == Failure(IllegalState(CLOSED_MESSAGE));
  }
}
