/** The plugin object: the verdict cache with its TTL, the table of pending
    asynchronous checks, and the callbacks they resolve. */
module AntiVPN {
  import opened Values
  import opened Config
  import opened Checker
  import opened Tasks

  /** One cached verdict. Entries written by `isVPN` carry no details. */
  datatype CacheEntry = CacheEntry(result: Verdict, time: int, details: Option<Details>)

  type Cache = map<string, CacheEntry>

  /** An opaque callback (a PHP closure) handed to `checkVPNAsync`. */
  datatype Callback = Callback(id: nat)

  /** The third argument a callback receives: a detail record, or, on a cache
      hit, the whole cache entry. */
  datatype Payload = Provided(details: Details) | CachedRecord(entry: CacheEntry)

  /** One call of a callback, as recorded in the plugin's invocation log. */
  datatype Invocation = Invocation(callback: Callback, ip: string, verdict: Verdict, payload: Payload)

  /** The one TTL test every path uses: an entry is live while its age is
      below the cache time. */
  predicate Live(e: CacheEntry, now: int, ttl: int) {
    now - e.time < ttl
  }

  /** A cache hit: the entry for `ip`, if there is one and it is live. */
  function Lookup(cache: Cache, ip: string, now: int, ttl: int): (r: Option<CacheEntry>)
    ensures r.Some? <==> ip in cache && Live(cache[ip], now, ttl)
    ensures r.Some? ==> r.value == cache[ip]
  {
    if ip in cache && Live(cache[ip], now, ttl) then Some(cache[ip]) else None
  }

  /** The cache after a sweep at time `now`. */
  function Sweep(cache: Cache, now: int, ttl: int): (r: Cache)
    ensures forall ip :: ip in r <==> ip in cache && Live(cache[ip], now, ttl)
    ensures forall ip :: ip in r ==> r[ip] == cache[ip]
  {
    map ip | ip in cache && Live(cache[ip], now, ttl) :: cache[ip]
  }

  /** A sweep removes only entries that a lookup already treats as misses, so
      no lookup at the same time can tell the difference. */
  lemma SweepPreservesLookups(cache: Cache, now: int, ttl: int, ip: string)
    ensures Lookup(Sweep(cache, now, ttl), ip, now, ttl) == Lookup(cache, ip, now, ttl)
    ensures ip in cache && ip !in Sweep(cache, now, ttl) <==> ip in cache && Lookup(cache, ip, now, ttl).None?
  {
  }

  /** Sweeping twice at the same time removes nothing more. */
  lemma SweepIdempotent(cache: Cache, now: int, ttl: int)
    ensures Sweep(Sweep(cache, now, ttl), now, ttl) == Sweep(cache, now, ttl)
  {
  }

  /** An entry written at `now` is served until `ttl` seconds have passed, and
      not from then on. */
  lemma WrittenEntryLifetime(cache: Cache, ip: string, e: CacheEntry, now: int, ttl: int, later: int)
    requires e.time == now && now <= later
    ensures Lookup(cache[ip := e], ip, later, ttl) == (if later - now < ttl then Some(e) else None)
  {
  }

  const TaskIdPrefix := "vpncheck_"
  const LoginIdPrefix := "login_"

  predicate HasPrefix(s: string, prefix: string) {
    |prefix| <= |s| && s[..|prefix|] == prefix
  }

  /** An id from `uniqid('login_')` never looks like one from `uniqid('vpncheck_')`. */
  lemma LoginIdIsNeverATaskId(suffix: string)
    ensures !HasPrefix(LoginIdPrefix + suffix, TaskIdPrefix)
  {
    var id := LoginIdPrefix + suffix;
    if |TaskIdPrefix| <= |id| {
      assert id[..|TaskIdPrefix|][0] == 'l' != TaskIdPrefix[0];
    }
  }

  /** An upper bound on the lengths of a finite set of strings. */
  ghost function MaxLength(keys: set<string>): (n: nat)
    ensures forall k :: k in keys ==> |k| <= n
    decreases keys
  {
    if keys == {} then 0
    else
      var k :| k in keys;
      var rest := MaxLength(keys - {k});
      if |k| > rest then |k| else rest
  }

  /** `uniqid` can always produce an id that no pending check holds. */
  lemma FreshTaskIdExists(keys: set<string>)
    ensures exists suffix: string :: TaskIdPrefix + suffix !in keys
  {
    var suffix := seq(MaxLength(keys) + 1, _ => 'x');
    assert |TaskIdPrefix + suffix| > MaxLength(keys);
    assert TaskIdPrefix + suffix !in keys;
  }

  /** The plugin (`Main`). Its state lives on the main loop only. */
  class AntiVPNPlugin {
    const configManager: ConfigManager
    const vpnChecker: VPNChecker
    var ipCache: Cache
    var pendingChecks: map<string, Callback>
    /** Every callback invocation so far, oldest first. */
    var invocations: seq<Invocation>

    ghost predicate Valid()
      reads this, vpnChecker
    {
      && vpnChecker.configManager == configManager
      && vpnChecker.Valid()
      && forall id :: id in pendingChecks ==> HasPrefix(id, TaskIdPrefix)
    }

    /** `onEnable`: the configuration manager, the checker built from it, and
        empty tables. */
    constructor (loaded: RawConfig)
      ensures Valid() && fresh(configManager) && fresh(vpnChecker)
      ensures configManager.config == loaded
      ensures ipCache == map[] && pendingChecks == map[] && invocations == []
      ensures vpnChecker.apiInstances == InstancesFor(ApiConfigOf(loaded))
      ensures forall name :: name in vpnChecker.apiFailures ==> vpnChecker.apiFailures[name] == 0
    {
      var cm := new ConfigManager(loaded);
      var checker := new VPNChecker(cm);
      configManager := cm;
      vpnChecker := checker;
      ipCache := map[];
      pendingChecks := map[];
      invocations := [];
    }

    /** `isVPN`: a live cache entry answers; otherwise a whitelisted address is
        not a VPN and is not cached; otherwise the checker is asked right away
        and its verdict cached without details. */
    method IsVPN(ip: string, now: int, oracle: (ProviderClient, string) -> ProviderOutcome)
      returns (r: Verdict)
      requires Valid()
      modifies this, vpnChecker
      ensures Valid()
      ensures pendingChecks == old(pendingChecks) && invocations == old(invocations)
      ensures vpnChecker.apiInstances == old(vpnChecker.apiInstances)
      ensures var hit := Lookup(old(ipCache), ip, now, configManager.GetCacheTime());
        hit.Some? ==>
          r == hit.value.result && ipCache == old(ipCache) &&
          vpnChecker.apiFailures == old(vpnChecker.apiFailures)
      ensures Lookup(old(ipCache), ip, now, configManager.GetCacheTime()).None? &&
              configManager.IsWhitelisted(ip) ==>
        r == NotVPN && ipCache == old(ipCache) && vpnChecker.apiFailures == old(vpnChecker.apiFailures)
      ensures Lookup(old(ipCache), ip, now, configManager.GetCacheTime()).None? &&
              !configManager.IsWhitelisted(ip) ==>
        var s := CheckIPStep(old(vpnChecker.apiInstances), old(vpnChecker.apiFailures),
                             ApiConfigOf(configManager.config), ip, oracle);
        r == s.result && vpnChecker.apiFailures == s.failures &&
        ipCache == old(ipCache)[ip := CacheEntry(r, now, None)]
    {
      if ip in ipCache {
        var cacheData := ipCache[ip];
        if now - cacheData.time < configManager.GetCacheTime() {
          return cacheData.result;
        }
      }
      if configManager.IsWhitelisted(ip) {
        return NotVPN;
      }
      r := vpnChecker.CheckIP(ip, oracle);
      ipCache := ipCache[ip := CacheEntry(r, now, None)];
    }

    /** `checkVPNAsync`: a live cache entry or a whitelisted address answers the
        callback at once; otherwise a fresh correlation id is registered and a
        check is scheduled. */
    method CheckVPNAsync(ip: string, callback: Callback, now: int) returns (scheduled: Option<CheckIPTask>)
      requires Valid()
      modifies this
      ensures Valid() && ipCache == old(ipCache)
      ensures var hit := Lookup(old(ipCache), ip, now, configManager.GetCacheTime());
        hit.Some? ==>
          scheduled.None? && pendingChecks == old(pendingChecks) &&
          invocations == old(invocations) + [Invocation(callback, ip, hit.value.result, CachedRecord(hit.value))]
      ensures Lookup(old(ipCache), ip, now, configManager.GetCacheTime()).None? &&
              configManager.IsWhitelisted(ip) ==>
        scheduled.None? && pendingChecks == old(pendingChecks) &&
        invocations == old(invocations) + [Invocation(callback, ip, NotVPN, Provided(map["source" := Str("whitelist")]))]
      ensures Lookup(old(ipCache), ip, now, configManager.GetCacheTime()).None? &&
              !configManager.IsWhitelisted(ip) ==>
        scheduled.Some? && scheduled.value.taskId !in old(pendingChecks) &&
        pendingChecks == old(pendingChecks)[scheduled.value.taskId := callback] &&
        invocations == old(invocations) &&
        scheduled.value.ip == ip && scheduled.value.apiConfig == ApiConfigOf(configManager.config)
    {
      if ip in ipCache {
        var cacheData := ipCache[ip];
        if now - cacheData.time < configManager.GetCacheTime() {
          invocations := invocations + [Invocation(callback, ip, cacheData.result, CachedRecord(cacheData))];
          return None;
        }
      }
      if configManager.IsWhitelisted(ip) {
        invocations := invocations + [Invocation(callback, ip, NotVPN, Provided(map["source" := Str("whitelist")]))];
        return None;
      }
      FreshTaskIdExists(pendingChecks.Keys);
      var suffix: string :| TaskIdPrefix + suffix !in pendingChecks;
      var taskId := TaskIdPrefix + suffix;
      pendingChecks := pendingChecks[taskId := callback];
      var apiConfig := configManager.GetApiConfig();
      scheduled := Some(CheckIPTask(taskId, ip, apiConfig));
    }

    /** `processAsyncResult`: always caches the result; a pending id has its
        callback invoked once and is removed, any other id is ignored. */
    method ProcessAsyncResult(taskId: string, ip: string, isVpn: Verdict, details: Details, now: int)
      requires Valid()
      modifies this
      ensures Valid()
      ensures ipCache == old(ipCache)[ip := CacheEntry(isVpn, now, Some(details))]
      ensures taskId in old(pendingChecks) ==>
        invocations == old(invocations) + [Invocation(old(pendingChecks)[taskId], ip, isVpn, Provided(details))] &&
        pendingChecks == old(pendingChecks) - {taskId}
      ensures taskId !in old(pendingChecks) ==>
        invocations == old(invocations) && pendingChecks == old(pendingChecks)
      ensures taskId !in pendingChecks
    {
      ipCache := ipCache[ip := CacheEntry(isVpn, now, Some(details))];
      if taskId in pendingChecks {
        invocations := invocations + [Invocation(pendingChecks[taskId], ip, isVpn, Provided(details))];
        pendingChecks := pendingChecks - {taskId};
      }
    }

    /** `cleanupCache`: drop every entry whose age has reached the cache time. */
    method CleanupCache(now: int)
      requires Valid()
      modifies this
      ensures Valid()
      ensures ipCache == Sweep(old(ipCache), now, configManager.GetCacheTime())
      ensures pendingChecks == old(pendingChecks) && invocations == old(invocations)
    {
      var cacheTime := configManager.GetCacheTime();
      var cache := ipCache;
      var toVisit := cache.Keys;
      while toVisit != {}
        invariant toVisit <= ipCache.Keys
        invariant forall ip :: ip in cache <==> ip in ipCache && (ip in toVisit || Live(ipCache[ip], now, cacheTime))
        invariant forall ip :: ip in cache ==> cache[ip] == ipCache[ip]
        decreases toVisit
      {
        var ip :| ip in toVisit;
        if now - cache[ip].time >= cacheTime {
          cache := cache - {ip};
        }
        toVisit := toVisit - {ip};
      }
      assert cache == Sweep(ipCache, now, cacheTime);
      ipCache := cache;
    }

    /** The `clearcache` command: empty the cache and report how many entries
        it held. */
    method ClearCache() returns (count: nat)
      requires Valid()
      modifies this
      ensures Valid()
      ensures count == |old(ipCache)| && ipCache == map[]
      ensures pendingChecks == old(pendingChecks) && invocations == old(invocations)
    {
      count := |ipCache|;
      ipCache := map[];
    }

    /** `onDisable`: both tables emptied; pending callbacks are dropped unheard. */
    method OnDisable()
      requires Valid()
      modifies this
      ensures Valid()
      ensures ipCache == map[] && pendingChecks == map[] && invocations == old(invocations)
    {
      ipCache := map[];
      pendingChecks := map[];
    }
  }
}
