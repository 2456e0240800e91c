/** The main-loop side of the two asynchronous checks: what each task does
    with its result once the worker hands it back. */
module TaskCompletion {
  import opened Values
  import opened Config
  import opened Tasks
  import opened AntiVPN

  /** `CheckIPTask::onCompletion`: forward the result to an enabled plugin.
      `plugin` is `null` when the host has no `Main` named AntiVPN. */
  method CheckIPTaskCompletion(result: CheckIPResult, plugin: AntiVPNPlugin?, enabled: bool, now: int)
    requires plugin != null ==> plugin.Valid()
    modifies plugin
    ensures plugin != null ==> plugin.Valid()
    ensures plugin != null && !enabled ==> unchanged(plugin)
    ensures plugin != null && enabled ==>
      plugin.ipCache == old(plugin.ipCache)[result.ip := CacheEntry(result.isVpn, now, Some(result.details))]
    ensures plugin != null && enabled && result.taskId in old(plugin.pendingChecks) ==>
      plugin.invocations == old(plugin.invocations) +
        [Invocation(old(plugin.pendingChecks)[result.taskId], result.ip, result.isVpn, Provided(result.details))] &&
      plugin.pendingChecks == old(plugin.pendingChecks) - {result.taskId}
    ensures plugin != null && enabled && result.taskId !in old(plugin.pendingChecks) ==>
      plugin.invocations == old(plugin.invocations) && plugin.pendingChecks == old(plugin.pendingChecks)
  {
    if plugin != null && enabled {
      plugin.ProcessAsyncResult(result.taskId, result.ip, result.isVpn, result.details, now);
    }
  }

  /** What `LoginCheckTask::onCompletion` did besides caching: the message the
      player was kicked with, and the API label of the log line. */
  datatype LoginOutcome = LoginOutcome(kick: Option<string>, loggedApi: Option<string>)

  /** `LoginCheckTask::onCompletion`: nothing for a missing or disabled plugin
      or an offline player; otherwise kick on a VPN verdict, then cache the
      result under a fresh `login_` id, which resolves no pending callback. */
  method LoginCheckTaskCompletion(result: LoginCheckResult, plugin: AntiVPNPlugin?, enabled: bool,
                                  playerOnline: bool, loginSuffix: string, now: int)
    returns (outcome: LoginOutcome)
    requires plugin != null ==> plugin.Valid()
    modifies plugin
    ensures plugin != null ==> plugin.Valid()
    ensures plugin == null || !enabled || !playerOnline ==>
      outcome == LoginOutcome(None, None) && (plugin != null ==> unchanged(plugin))
    ensures plugin != null && enabled && playerOnline ==>
      && (outcome.kick.Some? <==> result.isVpn == VPN)
      && (outcome.kick.Some? ==> outcome.kick.value == result.kickMessage)
      && (outcome.loggedApi.Some? <==> outcome.kick.Some? && plugin.configManager.IsLoggingEnabled())
      && (outcome.loggedApi.Some? ==> outcome.loggedApi.value == ApiLabel(result.apiUsed))
      && plugin.ipCache == old(plugin.ipCache)[result.ip := CacheEntry(result.isVpn, now, Some(result.details))]
      && plugin.pendingChecks == old(plugin.pendingChecks)
      && plugin.invocations == old(plugin.invocations)
  {
    if plugin == null || !enabled {
      return LoginOutcome(None, None);
    }
    if !playerOnline {
      return LoginOutcome(None, None);
    }
    outcome := LoginOutcome(None, None);
    if result.isVpn == VPN {
      var logged := if plugin.configManager.IsLoggingEnabled() then Some(ApiLabel(result.apiUsed)) else None;
      outcome := LoginOutcome(Some(result.kickMessage), logged);
    }
    LoginIdIsNeverATaskId(loginSuffix);
    plugin.ProcessAsyncResult(LoginIdPrefix + loginSuffix, result.ip, result.isVpn, result.details, now);
  }

  /** One `checkVPNAsync` call followed by its task: the task runs on the
      worker, and its completion reaches the enabled plugin, once or, when
      `duplicate` holds, a second time. Whatever the path, the callback is
      invoked exactly once and the pending table ends as it began. */
  method CheckOnceResolvesOnce(plugin: AntiVPNPlugin, ip: string, callback: Callback, now: int, later: int,
                               oracle: TaskOracle, duplicate: bool)
    requires plugin.Valid()
    modifies plugin
    ensures plugin.Valid()
    ensures |plugin.invocations| == |old(plugin.invocations)| + 1
    ensures plugin.invocations[..|old(plugin.invocations)|] == old(plugin.invocations)
    ensures plugin.invocations[|old(plugin.invocations)|].callback == callback
    ensures plugin.invocations[|old(plugin.invocations)|].ip == ip
    ensures plugin.pendingChecks == old(plugin.pendingChecks)
  {
    var scheduled := plugin.CheckVPNAsync(ip, callback, now);
    if scheduled.Some? {
      var result := scheduled.value.OnRun(oracle);
      CheckIPTaskCompletion(result, plugin, true, later);
      if duplicate {
        CheckIPTaskCompletion(result, plugin, true, later);
      }
    }
  }
}
