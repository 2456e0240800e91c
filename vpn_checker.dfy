/** The synchronous provider orchestrator: a primary and a fallback provider,
    each guarded by a consecutive-failure counter (a provider at or above the
    retry limit is skipped: its circuit is open). */
module Checker {
  import opened Values
  import opened Config

  /** The instances `initializeAPIs` builds: one per enabled known provider. */
  function InstancesFor(cfg: ApiConfig): (r: map<string, ProviderClient>)
    ensures r.Keys <= {ProxyCheckName, IPHubName}
    ensures ProxyCheckName in r <==> Truthy(Setting(cfg.proxycheck, "enabled"))
    ensures IPHubName in r <==> Truthy(Setting(cfg.iphub, "enabled"))
    ensures ProxyCheckName in r ==> r[ProxyCheckName] == ProxyCheck(Setting(cfg.proxycheck, "api-key"))
    ensures IPHubName in r ==> r[IPHubName] == IPHub(Setting(cfg.iphub, "api-key"))
  {
    var withProxyCheck :=
      if Truthy(Setting(cfg.proxycheck, "enabled"))
      then map[ProxyCheckName := ProxyCheck(Setting(cfg.proxycheck, "api-key"))]
      else map[];
    if Truthy(Setting(cfg.iphub, "enabled"))
    then withProxyCheck[IPHubName := IPHub(Setting(cfg.iphub, "api-key"))]
    else withProxyCheck
  }

  /** A provider may be called: it has an instance and its circuit is closed. */
  predicate Eligible(instances: map<string, ProviderClient>, failures: map<string, int>,
                     name: string, limit: int)
  {
    name in instances && name in failures && failures[name] < limit
  }

  /** The provider called `name` has an instance and answers `ip`. */
  predicate Answers(instances: map<string, ProviderClient>, name: string, ip: string,
                    oracle: (ProviderClient, string) -> ProviderOutcome)
  {
    name in instances && oracle(instances[name], ip).Answered?
  }

  /** The verdict of that answer. */
  function AnswerVerdict(instances: map<string, ProviderClient>, name: string, ip: string,
                         oracle: (ProviderClient, string) -> ProviderOutcome): Verdict
  {
    if Answers(instances, name, ip, oracle) then VerdictOf(oracle(instances[name], ip).answer.isVpn)
    else Unknown
  }

  /** What one `checkIP` call yields: the verdict, the new failure counters,
      and the providers it called, in order. */
  datatype CheckStep = CheckStep(result: Verdict, failures: map<string, int>, consulted: seq<string>)

  /** `checkWithApi`: an answer gives its verdict and leaves the counter for the
      caller to reset; null or an exception counts one more failure. */
  function CallProvider(instances: map<string, ProviderClient>, failures: map<string, int>,
                        name: string, ip: string, oracle: (ProviderClient, string) -> ProviderOutcome)
    : (s: CheckStep)
    requires name in instances && name in failures
    ensures s.consulted == [name]
    ensures s.failures.Keys == failures.Keys
    ensures forall p :: p in failures && p != name ==> s.failures[p] == failures[p]
    ensures oracle(instances[name], ip).Answered? ==>
      s.result == VerdictOf(oracle(instances[name], ip).answer.isVpn) && s.failures[name] == 0
    ensures !oracle(instances[name], ip).Answered? ==>
      s.result == Unknown && s.failures[name] == failures[name] + 1
  {
    match oracle(instances[name], ip)
    case Answered(a) => CheckStep(VerdictOf(a.isVpn), failures[name := 0], [name])
    case _ => CheckStep(Unknown, failures[name := failures[name] + 1], [name])
  }

  /** `checkIP` on failure counters `failures`: the primary if eligible, then
      the fallback if it is a different, eligible provider; the first answer wins. */
  function CheckIPStep(instances: map<string, ProviderClient>, failures: map<string, int>,
                       cfg: ApiConfig, ip: string, oracle: (ProviderClient, string) -> ProviderOutcome)
    : (s: CheckStep)
    requires instances.Keys == failures.Keys
    ensures s.failures.Keys == failures.Keys
    ensures |s.consulted| <= 2
    ensures forall i :: 0 <= i < |s.consulted| ==>
      Eligible(instances, failures, s.consulted[i], cfg.retryLimit)
    ensures Eligible(instances, failures, cfg.primaryApi, cfg.retryLimit) <==>
      (|s.consulted| > 0 && s.consulted[0] == cfg.primaryApi)
    ensures |s.consulted| == 2 ==>
      s.consulted[0] == cfg.primaryApi && s.consulted[1] == cfg.fallbackApi && cfg.fallbackApi != cfg.primaryApi
    ensures |s.consulted| == 1 ==> s.consulted[0] == cfg.primaryApi || s.consulted[0] == cfg.fallbackApi
    ensures forall p :: p in failures && p !in s.consulted ==> s.failures[p] == failures[p]
    ensures forall p :: p in s.consulted ==>
      p in instances && s.failures[p] == (if Answers(instances, p, ip, oracle) then 0 else failures[p] + 1)
    ensures s.result != Unknown <==>
      (|s.consulted| > 0 && Answers(instances, s.consulted[|s.consulted| - 1], ip, oracle))
    ensures s.result != Unknown ==>
      s.result == AnswerVerdict(instances, s.consulted[|s.consulted| - 1], ip, oracle)
    ensures |s.consulted| == 2 ==> !Answers(instances, s.consulted[0], ip, oracle)
    ensures (!Eligible(instances, failures, cfg.primaryApi, cfg.retryLimit) ||
             !Answers(instances, cfg.primaryApi, ip, oracle)) &&
            cfg.fallbackApi != cfg.primaryApi && Eligible(instances, failures, cfg.fallbackApi, cfg.retryLimit) ==>
      cfg.fallbackApi in s.consulted
  {
    var primary, fallback, limit := cfg.primaryApi, cfg.fallbackApi, cfg.retryLimit;
    var first :=
      if Eligible(instances, failures, primary, limit)
      then CallProvider(instances, failures, primary, ip, oracle)
      else CheckStep(Unknown, failures, []);
    if first.result != Unknown then first
    else if primary != fallback && Eligible(instances, first.failures, fallback, limit) then
      var second := CallProvider(instances, first.failures, fallback, ip, oracle);
      CheckStep(second.result, second.failures, first.consulted + second.consulted)
    else first
  }

  /** A provider at or above the limit is never called, whatever the oracle says. */
  lemma OpenCircuitIsSkipped(instances: map<string, ProviderClient>, failures: map<string, int>,
                             cfg: ApiConfig, ip: string, oracle: (ProviderClient, string) -> ProviderOutcome,
                             name: string)
    requires instances.Keys == failures.Keys
    requires name in failures && failures[name] >= cfg.retryLimit
    ensures name !in CheckIPStep(instances, failures, cfg, ip, oracle).consulted
    ensures CheckIPStep(instances, failures, cfg, ip, oracle).failures[name] == failures[name]
  {
  }

  /** A primary success answers alone and resets only the primary's counter. */
  lemma PrimarySuccessShortCircuits(instances: map<string, ProviderClient>, failures: map<string, int>,
                                    cfg: ApiConfig, ip: string,
                                    oracle: (ProviderClient, string) -> ProviderOutcome)
    requires instances.Keys == failures.Keys
    requires Eligible(instances, failures, cfg.primaryApi, cfg.retryLimit)
    requires oracle(instances[cfg.primaryApi], ip).Answered?
    ensures var s := CheckIPStep(instances, failures, cfg, ip, oracle);
      s.consulted == [cfg.primaryApi] &&
      s.result == VerdictOf(oracle(instances[cfg.primaryApi], ip).answer.isVpn) &&
      s.failures == failures[cfg.primaryApi := 0]
  {
  }

  /** Starting from a primary `P1` whose counter is at the limit and a distinct
      fallback `P2` that answers: only `P2` is called, only `P2`'s counter is
      reset, and `P1`'s stays where it was. */
  lemma FallbackAfterPrimaryCircuitOpens(instances: map<string, ProviderClient>, failures: map<string, int>,
                                         cfg: ApiConfig, ip: string,
                                         oracle: (ProviderClient, string) -> ProviderOutcome)
    requires instances.Keys == failures.Keys
    requires cfg.primaryApi != cfg.fallbackApi
    requires cfg.primaryApi in failures && failures[cfg.primaryApi] >= cfg.retryLimit
    requires Eligible(instances, failures, cfg.fallbackApi, cfg.retryLimit)
    requires oracle(instances[cfg.fallbackApi], ip).Answered?
    ensures var s := CheckIPStep(instances, failures, cfg, ip, oracle);
      s.consulted == [cfg.fallbackApi] &&
      s.result == VerdictOf(oracle(instances[cfg.fallbackApi], ip).answer.isVpn) &&
      s.failures == failures[cfg.fallbackApi := 0] &&
      s.failures[cfg.primaryApi] == failures[cfg.primaryApi]
  {
  }

  /** Each failed check of an eligible primary adds exactly one to its counter,
      so `retryLimit` consecutive failures from zero open its circuit. */
  lemma {:induction false} ConsecutiveFailuresOpenCircuit(
    instances: map<string, ProviderClient>, failures: map<string, int>,
    cfg: ApiConfig, ips: seq<string>, oracle: (ProviderClient, string) -> ProviderOutcome)
    requires instances.Keys == failures.Keys
    requires cfg.primaryApi in instances && 0 <= failures[cfg.primaryApi]
    requires failures[cfg.primaryApi] + |ips| <= cfg.retryLimit
    requires forall ip :: ip in ips ==> !oracle(instances[cfg.primaryApi], ip).Answered?
    ensures var after := RunChecks(instances, failures, cfg, ips, oracle);
      after.Keys == failures.Keys && after[cfg.primaryApi] == failures[cfg.primaryApi] + |ips|
    decreases |ips|
  {
    if ips != [] {
      var s := CheckIPStep(instances, failures, cfg, ips[0], oracle);
      assert Eligible(instances, failures, cfg.primaryApi, cfg.retryLimit);
      assert cfg.primaryApi in s.consulted;
      ConsecutiveFailuresOpenCircuit(instances, s.failures, cfg, ips[1..], oracle);
    }
  }

  /** The failure counters after `checkIP` on each address of `ips` in turn. */
  function RunChecks(instances: map<string, ProviderClient>, failures: map<string, int>,
                     cfg: ApiConfig, ips: seq<string>, oracle: (ProviderClient, string) -> ProviderOutcome)
    : (after: map<string, int>)
    requires instances.Keys == failures.Keys
    ensures after.Keys == failures.Keys
    decreases |ips|
  {
    if ips == [] then failures
    else RunChecks(instances, CheckIPStep(instances, failures, cfg, ips[0], oracle).failures,
                   cfg, ips[1..], oracle)
  }

  /** An open circuit never closes by itself: nothing calls a provider at or
      above the limit, so no answer of it can reset the counter, over any
      number of checks. */
  lemma {:induction false} OpenCircuitNeverCloses(
    instances: map<string, ProviderClient>, failures: map<string, int>,
    cfg: ApiConfig, ips: seq<string>, oracle: (ProviderClient, string) -> ProviderOutcome, name: string)
    requires instances.Keys == failures.Keys
    requires name in failures && failures[name] >= cfg.retryLimit
    ensures RunChecks(instances, failures, cfg, ips, oracle)[name] == failures[name]
    decreases |ips|
  {
    if ips != [] {
      OpenCircuitIsSkipped(instances, failures, cfg, ips[0], oracle, name);
      var s := CheckIPStep(instances, failures, cfg, ips[0], oracle);
      OpenCircuitNeverCloses(instances, s.failures, cfg, ips[1..], oracle, name);
    }
  }

  /** `getApiStats`: the failure counters and the names of the instances. */
  datatype ApiStats = ApiStats(failures: map<string, int>, instances: set<string>)

  class VPNChecker {
    const configManager: ConfigManager
    var apiInstances: map<string, ProviderClient>
    var apiFailures: map<string, int>

    /** Every instance has a counter and every counter an instance. */
    ghost predicate Valid()
      reads this
    {
      apiFailures.Keys == apiInstances.Keys
    }

    /** Construction runs `initializeAPIs` on the current configuration. */
    constructor (cm: ConfigManager)
      ensures configManager == cm && Valid()
      ensures apiInstances == InstancesFor(ApiConfigOf(cm.config))
      ensures forall name :: name in apiFailures ==> apiFailures[name] == 0
    {
      configManager := cm;
      apiInstances := map[];
      apiFailures := map[];
      new;
      InitializeAPIs();
    }

    /** `initializeAPIs`: an instance per enabled provider, then a zero counter
        for every instance. */
    method InitializeAPIs()
      requires apiInstances == map[] && apiFailures == map[]
      modifies this
      ensures Valid()
      ensures apiInstances == InstancesFor(ApiConfigOf(configManager.config))
      ensures forall name :: name in apiFailures ==> apiFailures[name] == 0
    {
      var apiConfig := configManager.GetApiConfig();
      var instances: map<string, ProviderClient> := map[];
      if Truthy(Setting(apiConfig.proxycheck, "enabled")) {
        instances := instances[ProxyCheckName := ProxyCheck(Setting(apiConfig.proxycheck, "api-key"))];
      }
      if Truthy(Setting(apiConfig.iphub, "enabled")) {
        instances := instances[IPHubName := IPHub(Setting(apiConfig.iphub, "api-key"))];
      }
      var failures: map<string, int> := map[];
      var names := instances.Keys;
      while names != {}
        invariant names <= instances.Keys
        invariant failures.Keys == instances.Keys - names
        invariant forall name :: name in failures ==> failures[name] == 0
        decreases names
      {
        var name :| name in names;
        failures := failures[name := 0];
        names := names - {name};
      }
      apiInstances, apiFailures := instances, failures;
    }

    /** `checkIP`: returns the verdict of the first eligible provider that
        answers, updating the counters as `CheckIPStep` says. */
    method CheckIP(ip: string, oracle: (ProviderClient, string) -> ProviderOutcome) returns (r: Verdict)
      requires Valid()
      modifies this
      ensures Valid() && apiInstances == old(apiInstances)
      ensures var s := CheckIPStep(old(apiInstances), old(apiFailures),
                                   ApiConfigOf(configManager.config), ip, oracle);
        r == s.result && apiFailures == s.failures
    {
      var apiConfig := configManager.GetApiConfig();
      var primaryApi, fallbackApi, retryLimit := apiConfig.primaryApi, apiConfig.fallbackApi, apiConfig.retryLimit;
      ghost var instances, failures := apiInstances, apiFailures;
      ghost var first := CheckStep(Unknown, failures, []);
      if primaryApi in apiInstances && apiFailures[primaryApi] < retryLimit {
        first := CallProvider(instances, failures, primaryApi, ip, oracle);
        r := CheckWithApi(apiInstances[primaryApi], ip, primaryApi, oracle);
        if r != Unknown {
          apiFailures := apiFailures[primaryApi := 0];
          assert r == first.result && apiFailures == first.failures;
          return;
        }
      }
      assert first.result == Unknown && apiFailures == first.failures;
      if primaryApi != fallbackApi && fallbackApi in apiInstances && apiFailures[fallbackApi] < retryLimit {
        ghost var second := CallProvider(instances, first.failures, fallbackApi, ip, oracle);
        r := CheckWithApi(apiInstances[fallbackApi], ip, fallbackApi, oracle);
        if r != Unknown {
          apiFailures := apiFailures[fallbackApi := 0];
        }
        assert r == second.result && apiFailures == second.failures;
        return;
      }
      r := Unknown;
    }

    /** `checkWithApi`: one guarded provider call; null or an exception counts
        one failure. */
    method CheckWithApi(api: ProviderClient, ip: string, apiName: string,
                        oracle: (ProviderClient, string) -> ProviderOutcome)
      returns (r: Verdict)
      requires apiName in apiFailures
      modifies this
      ensures apiInstances == old(apiInstances)
      ensures oracle(api, ip).Answered? ==>
        r == VerdictOf(oracle(api, ip).answer.isVpn) && apiFailures == old(apiFailures)
      ensures !oracle(api, ip).Answered? ==>
        r == Unknown && apiFailures == old(apiFailures)[apiName := old(apiFailures)[apiName] + 1]
    {
      match oracle(api, ip)
      case Answered(a) =>
        r := VerdictOf(a.isVpn);
      case _ =>
        apiFailures := apiFailures[apiName := apiFailures[apiName] + 1];
        r := Unknown;
    }

    /** `getApiStats`. */
    function GetApiStats(): (s: ApiStats)
      reads this
      requires Valid()
      ensures s.failures.Keys == s.instances
      ensures s.instances == apiInstances.Keys && s.failures == apiFailures
    {
      ApiStats(apiFailures, apiInstances.Keys)
    }

    /** `resetFailureCounters`: every counter back to zero, same names. */
    method ResetFailureCounters()
      requires Valid()
      modifies this
      ensures Valid() && apiInstances == old(apiInstances)
      ensures apiFailures.Keys == old(apiFailures).Keys
      ensures forall name :: name in apiFailures ==> apiFailures[name] == 0
    {
      var failures := apiFailures;
      var names := failures.Keys;
      while names != {}
        invariant names <= failures.Keys && failures.Keys == apiFailures.Keys
        invariant forall name :: name in failures && name !in names ==> failures[name] == 0
        decreases names
      {
        var name :| name in names;
        failures := failures[name := 0];
        names := names - {name};
      }
      apiFailures := failures;
    }
  }
}
