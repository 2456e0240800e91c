# AntiVPN verdict orchestration, modelled in Dafny

This project models the part of the PocketMine AntiVPN plugin that decides whether an IP address is a VPN. It has five parts:

- **The plugin object (`Main`)**, modelled in `main.dfy`, module `AntiVPN`.
  - It keeps a verdict cache with a time-to-live. Each entry holds a tri-state verdict `VPN | NotVPN | Unknown`, the time it was written, and optional details.
  - It keeps a table of pending asynchronous checks, from correlation id to callback.
  - Callbacks are opaque tokens. Every call of one is appended to an invocation log, so "invoked exactly once" can be stated.
- **The synchronous checker (`VPNChecker`)**, modelled in `vpn_checker.dfy`, module `Checker`.
  - It calls a primary provider and then a fallback.
  - Each provider has a consecutive-failure counter. A provider whose counter is at or above `retry-limit` is skipped; its circuit is open.
  - A success resets that provider's counter. A null answer or an exception adds one to it.
- **The configuration (`ConfigManager`)**, modelled in `config_manager.dfy`, module `Config`.
  - The IP whitelist, with add and remove.
  - `getApiConfig`, which merges the user's provider sections key by key over fixed defaults.
  - The getters, which supply defaults for missing keys.
- **The two asynchronous tasks (`CheckIPTask`, `LoginCheckTask`)**, modelled in `tasks.dfy` and `task_completion.dfy`.
  - On the worker, each runs the same stateless primary-then-fallback choice. It has no failure counters, and IPHub is used only with a non-empty key.
  - When the main loop completes a task, the result goes to `processAsyncResult`.
  - The login task also kicks the player on a VPN verdict, and it labels which API answered.

Shared value types are in `values.dfy`, module `Values`. PHP scalars are modelled by `Value = Null | Bool | Int | Str`, with PHP truthiness.

The provider HTTP clients are replaced by oracles, which are parameters:

- The synchronous path uses an oracle that returns `Answered(answer)`, `Indeterminate` (PHP `null`) or `Raised` (an exception).
- The task path uses an oracle that returns `Option<Answer>`.

Other host facilities are also parameters or stand-ins:

- The wall clock `time()` is a parameter `now`.
- `uniqid('vpncheck_')` is a choice of any id that carries the prefix and is not pending. The lemma `FreshTaskIdExists` shows that such an id always exists.
- `uniqid('login_')` is the prefix followed by an arbitrary suffix.

A whitelist is kept duplicate-free by add and remove. The property is stated as one that each of them preserves, so a file that already holds duplicates is still modelled.

### Behaviour of the code worth noting

- `checkVPNAsync` consults the cache before the whitelist. A cached `VPN` verdict therefore wins over a whitelisted address. `isVPN` orders the same two tests the same way.
- On a miss, `isVPN` calls the providers synchronously. It caches their verdict, `Unknown` included, with no details.
- On a cache hit, `checkVPNAsync` hands the callback the whole cache entry as its third argument, not the stored details.
- The tasks copy the API configuration at dispatch. They ignore both the `enabled` flags and the failure counters.
- The tasks default a missing `primary-api` to `proxycheck` and a missing `fallback-api` to `iphub`, but `getApiConfig` always supplies both. In the model these defaults are therefore not a separate branch: `ApiConfig` always holds both names.
- `onDisable` empties the pending table without invoking the callbacks still in it.
- `checkIP` returns only the verdict. It does not report which provider answered.
- Nothing ever calls `resetFailureCounters`, and the checker is built once, when the plugin is enabled. Once a provider's counter reaches the limit, that provider is not called again until the plugin restarts, or until a reload raises `api-retry-limit` above its counter (`checkIP` reads the limit afresh on every call). `Checker.OpenCircuitNeverCloses` proves this for any sequence of checks under one configuration.

## Model

| member | source | states |
|---|---|---|
| Values.VerdictOf | src/PocketDev/AntiVPN/Utils/VPNChecker.php:100 | A provider answer's boolean gives `VPN` exactly when it is true and is never `Unknown` |
| Config.ApiConfigOf | src/PocketDev/AntiVPN/Utils/ConfigManager.php:57-83 | `primary-api`, `fallback-api` and `api-retry-limit` each default on their own (to `proxycheck`, `iphub` and 3) and otherwise take the configured value; both provider sections always hold `enabled` and `api-key`, and each one's key set is the defaults' keys plus the user's keys for that provider |
| Config.ApiConfigDefaults | src/PocketDev/AntiVPN/Utils/ConfigManager.php:58-70 | With nothing configured: primary `proxycheck`, fallback `iphub`, retry limit 3, both providers enabled with an empty key |
| Config.ApiConfigKeyByKey | src/PocketDev/AntiVPN/Utils/ConfigManager.php:72-80 | A supplied key overrides its default, an unsupplied key keeps its default, and sections under other provider names change nothing |
| Config.IndexOf | src/PocketDev/AntiVPN/Utils/ConfigManager.php:145-146 | `array_search`: none exactly when the address is absent; otherwise the first index holding it |
| Config.RemoveAt | src/PocketDev/AntiVPN/Utils/ConfigManager.php:147-149 | `unset` plus `array_values`: one element shorter, the entries before the index unchanged and the ones after it shifted down by one |
| Config.AppendKeepsNoDuplicates | src/PocketDev/AntiVPN/Utils/ConfigManager.php:127-128 | Appending an absent address to a duplicate-free list keeps it duplicate-free |
| Config.RemoveKeepsNoDuplicates | src/PocketDev/AntiVPN/Utils/ConfigManager.php:146-149 | Removing one index keeps a duplicate-free list duplicate-free and leaves the removed address out of it |
| Config.AddThenRemoveRestores | src/PocketDev/AntiVPN/Utils/ConfigManager.php:127-128 | After an absent address is appended, it is found at the end, and removing it gives back the original list |
| Config.ConfigManager.constructor | src/PocketDev/AntiVPN/Utils/ConfigManager.php:19-22 | The manager holds the configuration as loaded |
| Config.ConfigManager.Reload | src/PocketDev/AntiVPN/Utils/ConfigManager.php:27-30 | The file's current contents replace the configuration |
| Config.ConfigManager.IsWhitelisted | src/PocketDev/AntiVPN/Utils/ConfigManager.php:45-51 | True exactly when the whitelist is present as a list and the address occurs in it |
| Config.ConfigManager.CleanupIntervalTicks | src/PocketDev/AntiVPN/Main.php:44 | The sweep period in ticks is the configured interval in minutes times 1200, for every interval |
| Config.ConfigManager.GetApiConfig | src/PocketDev/AntiVPN/Utils/ConfigManager.php:57-83 | The nested merge loops build exactly `ApiConfigOf` of the configuration |
| Config.ConfigManager.AddToWhitelist | src/PocketDev/AntiVPN/Utils/ConfigManager.php:122-134 | Returns true exactly when the address was absent, and appends it only then; afterwards the address is whitelisted, the rest of the configuration is unchanged, and a duplicate-free list stays so |
| Config.ConfigManager.RemoveFromWhitelist | src/PocketDev/AntiVPN/Utils/ConfigManager.php:141-155 | Returns true exactly when the address was whitelisted. If absent, nothing changes; otherwise its first occurrence is removed with the order kept. A duplicate-free list stays so and no longer holds the address |
| Config.GetterDefaults | src/PocketDev/AntiVPN/Utils/ConfigManager.php:36-115 | Each key is defaulted on its own: a missing cache time gives 3600 s, a missing cleanup interval 30 min (36000 ticks), a missing retry limit 3, missing logging gives on, a missing kick message the default one, and a present key gives its configured value; a missing whitelist whitelists no address |
| Config.RetryLimitAgrees | src/PocketDev/AntiVPN/Utils/ConfigManager.php:58-115 | The retry-limit getter and `getApiConfig` read the same key with the same default |
| Checker.InstancesFor | src/PocketDev/AntiVPN/Utils/VPNChecker.php:35-45 | There is an instance exactly for each known provider whose `enabled` is truthy, built with that provider's key |
| Checker.CallProvider | src/PocketDev/AntiVPN/Utils/VPNChecker.php:91-110 | Calls one provider. An answer gives its verdict and a zero counter; null or an exception gives `Unknown` and one more failure. No other counter changes |
| Checker.CheckIPStep | src/PocketDev/AntiVPN/Utils/VPNChecker.php:58-81 | Only eligible providers are called, at most two. The primary is called exactly when it is eligible, and a second call is the distinct fallback after a primary with no answer. The fallback is called whenever the primary is ineligible or gave no answer and the fallback is a distinct, eligible provider. Counters of uncalled providers are unchanged; a called one becomes 0 or +1. The verdict is known exactly when the last provider called answered, and it is that provider's verdict |
| Checker.OpenCircuitIsSkipped | src/PocketDev/AntiVPN/Utils/VPNChecker.php:64-78 | A provider at or above the limit is not called and its counter is unchanged |
| Checker.PrimarySuccessShortCircuits | src/PocketDev/AntiVPN/Utils/VPNChecker.php:64-70 | An eligible primary that answers is the only provider called; only its counter changes, to 0 |
| Checker.FallbackAfterPrimaryCircuitOpens | src/PocketDev/AntiVPN/Utils/VPNChecker.php:64-78 | With the primary's circuit open and a distinct eligible fallback that answers, only the fallback is called and reset, and the primary's counter stays |
| Checker.ConsecutiveFailuresOpenCircuit | src/PocketDev/AntiVPN/Utils/VPNChecker.php:64-102 | Each failed check of an eligible primary adds exactly one to its counter, so enough consecutive failures reach the limit |
| Checker.RunChecks | src/PocketDev/AntiVPN/Utils/VPNChecker.php:58-81 | Any sequence of checks keeps the set of counter names |
| Checker.OpenCircuitNeverCloses | src/PocketDev/AntiVPN/Utils/VPNChecker.php:58-131 | Once a counter is at the limit, no sequence of checks changes it |
| Checker.VPNChecker.constructor | src/PocketDev/AntiVPN/Utils/VPNChecker.php:24-27 | The checker is built on the given manager, with the instances of the current configuration and zero counters |
| Checker.VPNChecker.InitializeAPIs | src/PocketDev/AntiVPN/Utils/VPNChecker.php:32-50 | Instances exist only for enabled providers, and the failure map has exactly their names, each at 0 |
| Checker.VPNChecker.CheckIP | src/PocketDev/AntiVPN/Utils/VPNChecker.php:58-81 | The verdict and the new counters are those of `CheckIPStep` on the old counters and the current API configuration; the instances are unchanged |
| Checker.VPNChecker.CheckWithApi | src/PocketDev/AntiVPN/Utils/VPNChecker.php:91-110 | An answer gives its verdict with the counters unchanged; null or an exception gives `Unknown` and adds one to that provider's counter |
| Checker.VPNChecker.GetApiStats | src/PocketDev/AntiVPN/Utils/VPNChecker.php:117-122 | The reported counters are the failure map, and the reported names are exactly the instances, which are also the counters' keys |
| Checker.VPNChecker.ResetFailureCounters | src/PocketDev/AntiVPN/Utils/VPNChecker.php:127-131 | Every counter becomes 0, the set of names stays, and the instances are unchanged |
| Tasks.KeyOrEmpty | src/PocketDev/AntiVPN/Tasks/CheckIPTask.php:46 | The ProxyCheck key is never null: the configured key if set, otherwise the empty string |
| Tasks.Consult | src/PocketDev/AntiVPN/Tasks/CheckIPTask.php:44-66 | One switch: `proxycheck` calls ProxyCheck; `iphub` calls IPHub only with a set, non-empty key; any other name calls nothing and yields nothing |
| Tasks.Select | src/PocketDev/AntiVPN/Tasks/LoginCheckTask.php:48-106 | At most two clients are called, and IPHub only with a truthy key. A primary answer wins alone; an equal fallback name is not retried; otherwise the fallback's answer is used. `apiUsed` is empty exactly when nothing answered, and is otherwise one of the four labels |
| Tasks.UnknownProvidersContributeNothing | src/PocketDev/AntiVPN/Tasks/CheckIPTask.php:44-94 | With two unknown provider names, nothing is called and nothing answers |
| Tasks.VerdictOfAnswer | src/PocketDev/AntiVPN/Tasks/CheckIPTask.php:38-103 | `is_vpn` is null exactly when nothing answered; otherwise it is the answer's verdict |
| Tasks.DetailsOf | src/PocketDev/AntiVPN/Tasks/CheckIPTask.php:39-103 | The details are empty when nothing answered and the winning payload otherwise |
| Tasks.CheckIPTask.OnRun | src/PocketDev/AntiVPN/Tasks/CheckIPTask.php:37-104 | The result record passes `task_id` and `ip` through; its verdict and details are those of `Select` |
| Tasks.LoginCheckTask.OnRun | src/PocketDev/AntiVPN/Tasks/LoginCheckTask.php:42-116 | The record passes `ip`, `player_name` and `kick_message` through; its verdict, details and `apiUsed` are those of `Select`; `apiUsed` is empty exactly when the verdict is unknown |
| Tasks.LoggedLabelNamesTheAnsweringApi | src/PocketDev/AntiVPN/Tasks/LoginCheckTask.php:141 | The logged label is the answering API's label, or `unknown` when none answered |
| AntiVPN.Lookup | src/PocketDev/AntiVPN/Main.php:74-78 | A hit exactly when an entry is present and younger than the cache time, returning that entry |
| AntiVPN.Sweep | src/PocketDev/AntiVPN/Main.php:151-164 | Keeps exactly the live entries, unchanged |
| AntiVPN.SweepPreservesLookups | src/PocketDev/AntiVPN/Main.php:76-156 | The TTL boundary is the same everywhere: a sweep removes exactly the entries a lookup at that time already misses, so it changes no lookup |
| AntiVPN.SweepIdempotent | src/PocketDev/AntiVPN/Main.php:151-164 | A second sweep at the same time removes nothing more |
| AntiVPN.WrittenEntryLifetime | src/PocketDev/AntiVPN/Main.php:76-138 | An entry written at `now` is served exactly while fewer than `cacheTime` seconds have passed |
| AntiVPN.LoginIdIsNeverATaskId | src/PocketDev/AntiVPN/Tasks/LoginCheckTask.php:151 | A `login_` id never carries the `vpncheck_` prefix |
| AntiVPN.MaxLength | src/PocketDev/AntiVPN/Main.php:115 | An upper bound on the lengths of the pending ids |
| AntiVPN.FreshTaskIdExists | src/PocketDev/AntiVPN/Main.php:115 | Some `vpncheck_` id is always free in the pending table |
| AntiVPN.AntiVPNPlugin.constructor | src/PocketDev/AntiVPN/Main.php:25-51 | `onEnable`: a fresh manager on the loaded configuration, a checker built on it with the instances of that configuration and every counter at 0, and an empty cache, pending table and log |
| AntiVPN.AntiVPNPlugin.IsVPN | src/PocketDev/AntiVPN/Main.php:73-93 | A hit returns the stored verdict and changes nothing. Otherwise a whitelisted address is `NotVPN` with nothing written. Otherwise the checker's `CheckIPStep` verdict is cached at `now` without details and returned. No callback runs and nothing becomes pending |
| AntiVPN.AntiVPNPlugin.CheckVPNAsync | src/PocketDev/AntiVPN/Main.php:101-125 | A hit or a whitelisted address invokes the callback once, at once, with nothing pending. A whitelisted address gets `{source: whitelist}`. A miss binds the callback under a fresh id and schedules a task for the address with the current API configuration; no callback runs. The cache is never touched |
| AntiVPN.AntiVPNPlugin.ProcessAsyncResult | src/PocketDev/AntiVPN/Main.php:135-146 | The result is always cached at `now`. A pending id has its callback invoked once and is removed; an unknown id changes neither table nor log; afterwards the id is not pending, so a repeat invokes nothing |
| AntiVPN.AntiVPNPlugin.CleanupCache | src/PocketDev/AntiVPN/Main.php:151-164 | The loop leaves exactly `Sweep` of the cache, and the pending table and log are unchanged |
| AntiVPN.AntiVPNPlugin.ClearCache | src/PocketDev/AntiVPN/Main.php:197-201 | The cache is empty, the reported count is its prior size, and the pending table is unchanged |
| AntiVPN.AntiVPNPlugin.OnDisable | src/PocketDev/AntiVPN/Main.php:322-326 | The cache and the pending table are both empty, and no callback runs |
| TaskCompletion.CheckIPTaskCompletion | src/PocketDev/AntiVPN/Tasks/CheckIPTask.php:110-123 | A disabled plugin is untouched; an enabled one gets `ProcessAsyncResult` of the record |
| TaskCompletion.LoginCheckTaskCompletion | src/PocketDev/AntiVPN/Tasks/LoginCheckTask.php:122-156 | A missing or disabled plugin, or an offline player, means nothing happens. Otherwise the player is kicked with the record's message exactly when the verdict is `VPN`; a log line naming the label is written exactly on a kick with logging on; the result is cached; the pending table and the log are unchanged |
| TaskCompletion.CheckOnceResolvesOnce | src/PocketDev/AntiVPN/Main.php:101-146 | One `checkVPNAsync` followed by its task's completion, delivered once or twice, invokes the given callback exactly once for the address and leaves the pending table as it was |

## Left out

- The ProxyCheck and IPHub HTTP clients, including JSON decoding and their checks for private or reserved addresses. These are network I/O and library calls; each client is an oracle parameter.
- The player join listener (`PlayerJoinListener`). It is host event glue: permissions, cancelling the event, the broadcast. It also calls `isNicknameWhitelisted`, which `ConfigManager` does not define.
- `CacheCleanupTask`. It is a scheduler wrapper that only calls `cleanupCache`, and `CleanupCache` models that call.
- The async scheduler, the hand-off between threads, and the serialization of the API configuration. A task holds a copy of the configuration as a value.
- `time()` and `uniqid`. They are modelled as a parameter and as a fresh or arbitrary suffix.
- AntiVPN.AntiVPNPlugin.IsVPN: the source reads `time()` once for the lookup (Main.php:76) and again for the write, after the blocking provider call (Main.php:89). The model uses one `now` for both, so the time spent in the provider call is not modelled.
- Logging, messages and colours. The remaining `onCommand` branches (`reload`, `stats`, `whitelist`, `check`, `checkip`) are user interface over the modelled operations.
- `saveConfig` and the YAML file itself.
- Callback re-entrancy and callback exceptions. A callback's effects are not modelled: only that it was called, and with what. Every callback is taken to return normally. In `processAsyncResult` the callback runs before its id is removed (Main.php:143-144), so a callback that throws would leave its id pending and could be invoked again by a second completion. The "invoked once, then removed" clauses of `AntiVPN.AntiVPNPlugin.ProcessAsyncResult` and `TaskCompletion.CheckOnceResolvesOnce` rest on this.
- Config.ConfigManager.IsWhitelisted, Config.IndexOf, Config.ConfigManager.AddToWhitelist, Config.ConfigManager.RemoveFromWhitelist: PHP's loose comparison in `in_array` and `array_search` is taken as exact string equality. The whitelist holds strings only.
- Config.RawConfig: YAML values of the wrong scalar type are not modelled, so there is no model of PHP's `(int)` and `(bool)` casts. A missing key and a null one are alike. Floats and nested arrays as setting values are out of scope.
- Config.ConfigManager.GetKickMessage, GetCacheTime, GetCacheCleanupInterval, IsLoggingEnabled, GetApiRetryLimit: these getters have no contract of their own. Config.GetterDefaults and Config.RetryLimitAgrees state their defaults.
- Tasks.ApiLabel: no contract of its own. Tasks.LoggedLabelNamesTheAnsweringApi states it.
- Integers are unbounded. PHP integer overflow of a failure counter or a timestamp is not modelled.
