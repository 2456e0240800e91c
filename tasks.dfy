/** The worker side of the two asynchronous checks. Both tasks run the same
    stateless choice: the primary provider, then the fallback, with no failure
    counters and no `enabled` flag; IPHub only with a non-empty API key. */
module Tasks {
  import opened Values
  import opened Config

  /** What a provider client answers for an address; null is `None`. */
  type TaskOracle = (ProviderClient, string) -> Option<Answer>

  /** `isset($s['api-key']) ? $s['api-key'] : ''`. */
  function KeyOrEmpty(s: Settings): (v: Value)
    ensures v != Null
    ensures IsSet(s, "api-key") ==> v == s["api-key"]
    ensures !IsSet(s, "api-key") ==> v == Str("")
  {
    if IsSet(s, "api-key") then s["api-key"] else Str("")
  }

  /** IPHub is built only when its key is set and not empty. */
  predicate HasIPHubKey(cfg: ApiConfig) {
    IsSet(cfg.iphub, "api-key") && Truthy(cfg.iphub["api-key"])
  }

  /** The answer of one `switch` over a provider name, and the clients it called. */
  datatype Consultation = Consultation(answer: Option<Answer>, consulted: seq<ProviderClient>)

  /** One `switch` of `onRun`. It has no default case, so an unknown name calls nothing. */
  function Consult(cfg: ApiConfig, name: string, ip: string, oracle: TaskOracle): (c: Consultation)
    ensures |c.consulted| <= 1
    ensures c.consulted == [] ==> c.answer.None?
    ensures c.consulted != [] ==> c.answer == oracle(c.consulted[0], ip)
    ensures name == ProxyCheckName ==> c.consulted == [ProxyCheck(KeyOrEmpty(cfg.proxycheck))]
    ensures name == IPHubName ==>
      c.consulted == (if HasIPHubKey(cfg) then [IPHub(cfg.iphub["api-key"])] else [])
    ensures name != ProxyCheckName && name != IPHubName ==> c == Consultation(None, [])
  {
    if name == ProxyCheckName then
      var api := ProxyCheck(KeyOrEmpty(cfg.proxycheck));
      Consultation(oracle(api, ip), [api])
    else if name == IPHubName then
      if HasIPHubKey(cfg) then
        var api := IPHub(cfg.iphub["api-key"]);
        Consultation(oracle(api, ip), [api])
      else Consultation(None, [])
    else Consultation(None, [])
  }

  /** The outcome of `onRun`: the winning answer, the label of the API that
      gave it, and every client called. */
  datatype Selection = Selection(answer: Option<Answer>, apiUsed: string, consulted: seq<ProviderClient>)

  const FallbackSuffix := " (fallback)"

  /** Primary first; the fallback only when the primary gave nothing and the
      names differ. */
  function Select(cfg: ApiConfig, ip: string, oracle: TaskOracle): (s: Selection)
    ensures |s.consulted| <= 2
    ensures forall c :: c in s.consulted ==> oracle(c, ip).None? || (s.answer == oracle(c, ip))
    ensures forall c :: c in s.consulted && c.IPHub? ==> HasIPHubKey(cfg) && c.apiKey == cfg.iphub["api-key"]
    ensures s.answer.None? <==> s.apiUsed == ""
    ensures s.apiUsed in {"", "proxycheck", "iphub", "proxycheck (fallback)", "iphub (fallback)"}
    ensures var p := Consult(cfg, cfg.primaryApi, ip, oracle);
      p.answer.Some? ==> s.answer == p.answer && s.apiUsed == cfg.primaryApi && s.consulted == p.consulted
    ensures var p := Consult(cfg, cfg.primaryApi, ip, oracle);
      p.answer.None? && cfg.primaryApi == cfg.fallbackApi ==>
        s.answer.None? && s.consulted == p.consulted
    ensures var p, f := Consult(cfg, cfg.primaryApi, ip, oracle), Consult(cfg, cfg.fallbackApi, ip, oracle);
      p.answer.None? && cfg.primaryApi != cfg.fallbackApi ==>
        s.answer == f.answer && s.consulted == p.consulted + f.consulted &&
        (f.answer.Some? ==> s.apiUsed == cfg.fallbackApi + FallbackSuffix)
  {
    var p := Consult(cfg, cfg.primaryApi, ip, oracle);
    if p.answer.Some? then Selection(p.answer, cfg.primaryApi, p.consulted)
    else if cfg.primaryApi == cfg.fallbackApi then Selection(None, "", p.consulted)
    else
      var f := Consult(cfg, cfg.fallbackApi, ip, oracle);
      assert ProxyCheckName + FallbackSuffix == "proxycheck (fallback)";
      assert IPHubName + FallbackSuffix == "iphub (fallback)";
      Selection(f.answer, if f.answer.Some? then cfg.fallbackApi + FallbackSuffix else "",
                p.consulted + f.consulted)
  }

  /** If neither name is one the switch knows, nothing is called and nothing answers. */
  lemma UnknownProvidersContributeNothing(cfg: ApiConfig, ip: string, oracle: TaskOracle)
    requires cfg.primaryApi != ProxyCheckName && cfg.primaryApi != IPHubName
    requires cfg.fallbackApi != ProxyCheckName && cfg.fallbackApi != IPHubName
    ensures Select(cfg, ip, oracle) == Selection(None, "", [])
  {
  }

  /** The `is_vpn` of the result record: null when nothing answered. */
  function VerdictOfAnswer(a: Option<Answer>): (v: Verdict)
    ensures v == Unknown <==> a.None?
    ensures a.Some? ==> v == VerdictOf(a.value.isVpn)
  {
    match a
    case None => Unknown
    case Some(x) => VerdictOf(x.isVpn)
  }

  /** The `details` of the result record: empty when nothing answered. */
  function DetailsOf(a: Option<Answer>): (d: Details)
    ensures a.None? ==> d == map[]
    ensures a.Some? ==> d == a.value.details
  {
    match a
    case None => map[]
    case Some(x) => x.details
  }

  /** The record `CheckIPTask::onRun` hands to its completion. */
  datatype CheckIPResult = CheckIPResult(taskId: string, ip: string, isVpn: Verdict, details: Details)

  /** A dispatched check: the correlation id, the address, and a copy of the
      API configuration taken at dispatch. */
  datatype CheckIPTask = CheckIPTask(taskId: string, ip: string, apiConfig: ApiConfig) {

    /** `onRun`: try the primary, then the fallback, and record the result. */
    method OnRun(oracle: TaskOracle) returns (r: CheckIPResult)
      ensures r.taskId == taskId && r.ip == ip
      ensures var s := Select(apiConfig, ip, oracle);
        r.isVpn == VerdictOfAnswer(s.answer) && r.details == DetailsOf(s.answer)
    {
      var result := Unknown;
      var details: Details := map[];
      var primaryApi := apiConfig.primaryApi;
      var check := Consult(apiConfig, primaryApi, ip, oracle).answer;
      if check.Some? {
        result := VerdictOf(check.value.isVpn);
        details := check.value.details;
      }
      if result == Unknown {
        var fallbackApi := apiConfig.fallbackApi;
        if primaryApi != fallbackApi {
          check := Consult(apiConfig, fallbackApi, ip, oracle).answer;
          if check.Some? {
            result := VerdictOf(check.value.isVpn);
            details := check.value.details;
          }
        }
      }
      r := CheckIPResult(taskId, ip, result, details);
    }
  }

  /** The record `LoginCheckTask::onRun` hands to its completion. */
  datatype LoginCheckResult = LoginCheckResult(
    ip: string, playerName: string, isVpn: Verdict, details: Details, apiUsed: string, kickMessage: string)

  /** A check started at pre-login for one player. */
  datatype LoginCheckTask = LoginCheckTask(ip: string, playerName: string, apiConfig: ApiConfig, kickMessage: string) {

    /** `onRun`: the same choice as `CheckIPTask`, also naming the API that answered. */
    method OnRun(oracle: TaskOracle) returns (r: LoginCheckResult)
      ensures r.ip == ip && r.playerName == playerName && r.kickMessage == kickMessage
      ensures var s := Select(apiConfig, ip, oracle);
        r.isVpn == VerdictOfAnswer(s.answer) && r.details == DetailsOf(s.answer) && r.apiUsed == s.apiUsed
      ensures r.apiUsed == "" <==> r.isVpn == Unknown
    {
      var result := Unknown;
      var details: Details := map[];
      var apiUsed := "";
      var primaryApi := apiConfig.primaryApi;
      var check := Consult(apiConfig, primaryApi, ip, oracle).answer;
      if check.Some? {
        result := VerdictOf(check.value.isVpn);
        details := check.value.details;
        apiUsed := primaryApi;
      }
      if result == Unknown {
        var fallbackApi := apiConfig.fallbackApi;
        if primaryApi != fallbackApi {
          check := Consult(apiConfig, fallbackApi, ip, oracle).answer;
          if check.Some? {
            result := VerdictOf(check.value.isVpn);
            details := check.value.details;
            apiUsed := fallbackApi + FallbackSuffix;
          }
        }
      }
      r := LoginCheckResult(ip, playerName, result, details, apiUsed, kickMessage);
    }
  }

  /** The API name in the kick log line: `$apiUsed ?: 'unknown'`. */
  function ApiLabel(apiUsed: string): string {
    if Truthy(Str(apiUsed)) then apiUsed else "unknown"
  }

  /** The logged label is the API that answered, or `unknown` when none did. */
  lemma LoggedLabelNamesTheAnsweringApi(cfg: ApiConfig, ip: string, oracle: TaskOracle)
    ensures var s := Select(cfg, ip, oracle);
      ApiLabel(s.apiUsed) == if s.answer.None? then "unknown" else s.apiUsed
    ensures var s := Select(cfg, ip, oracle);
      ApiLabel(s.apiUsed) in {"unknown", "proxycheck", "iphub", "proxycheck (fallback)", "iphub (fallback)"}
  {
    var s := Select(cfg, ip, oracle);
    assert s.apiUsed != "0";
  }
}
