/** The operator configuration: the whitelist of addresses, the API settings
    merged over fixed defaults, and the getters that default missing keys. */
module Config {
  import opened Values

  const ProxyCheckName := "proxycheck"
  const IPHubName := "iphub"

  const DefaultKickMessage := "\U{00A7}cVPN detectada!"
  const DefaultCacheTime := 3600
  const DefaultCleanupMinutes := 30
  const DefaultRetryLimit := 3
  /** Server ticks per minute (20 ticks a second). */
  const TicksPerMinute := 1200

  /** The configuration as loaded from the YAML file. An optional key is `None`
      when it is missing or null. `ipWhitelist` is `None` when it is missing or
      not an array (the code treats both alike), and `api` holds only the
      provider sections that are arrays. */
  datatype RawConfig = RawConfig(
    kickMessage: Option<string>,
    ipWhitelist: Option<seq<string>>,
    primaryApi: Option<string>,
    fallbackApi: Option<string>,
    apiRetryLimit: Option<int>,
    cacheTime: Option<int>,
    cacheCleanupInterval: Option<int>,
    enableLogs: Option<bool>,
    api: map<string, Settings>)

  /** A configuration file that sets nothing. */
  const EmptyConfig := RawConfig(None, None, None, None, None, None, None, None, map[])

  /** The record `getApiConfig` builds: provider names, retry limit, and the
      settings of the two known providers. */
  datatype ApiConfig = ApiConfig(
    primaryApi: string,
    fallbackApi: string,
    retryLimit: int,
    proxycheck: Settings,
    iphub: Settings)

  /** Every provider is enabled with an empty API key unless configured otherwise. */
  const DefaultProviderSettings: Settings := map["enabled" := Bool(true), "api-key" := Str("")]

  /** The user's section for `provider`, or nothing. */
  function Supplied(c: RawConfig, provider: string): Settings {
    if provider in c.api then c.api[provider] else map[]
  }

  /** The API configuration `c` resolves to. */
  function ApiConfigOf(c: RawConfig): (r: ApiConfig)
    ensures "enabled" in r.proxycheck && "api-key" in r.proxycheck
    ensures "enabled" in r.iphub && "api-key" in r.iphub
    ensures r.proxycheck.Keys == DefaultProviderSettings.Keys + Supplied(c, ProxyCheckName).Keys
    ensures r.iphub.Keys == DefaultProviderSettings.Keys + Supplied(c, IPHubName).Keys
    ensures c.primaryApi.None? ==> r.primaryApi == ProxyCheckName
    ensures c.primaryApi.Some? ==> r.primaryApi == c.primaryApi.value
    ensures c.fallbackApi.None? ==> r.fallbackApi == IPHubName
    ensures c.fallbackApi.Some? ==> r.fallbackApi == c.fallbackApi.value
    ensures c.apiRetryLimit.None? ==> r.retryLimit == DefaultRetryLimit
    ensures c.apiRetryLimit.Some? ==> r.retryLimit == c.apiRetryLimit.value
  {
    ApiConfig(
      c.primaryApi.GetOr(ProxyCheckName),
      c.fallbackApi.GetOr(IPHubName),
      c.apiRetryLimit.GetOr(DefaultRetryLimit),
      DefaultProviderSettings + Supplied(c, ProxyCheckName),
      DefaultProviderSettings + Supplied(c, IPHubName))
  }

  /** With nothing configured, the API settings are the documented defaults. */
  lemma ApiConfigDefaults()
    ensures ApiConfigOf(EmptyConfig) ==
      ApiConfig("proxycheck", "iphub", 3, map["enabled" := Bool(true), "api-key" := Str("")],
                map["enabled" := Bool(true), "api-key" := Str("")])
  {
  }

  /** A supplied key overrides its default, a key not supplied keeps its
      default, and the sections of other provider names play no part. */
  lemma ApiConfigKeyByKey(c: RawConfig, other: string, k: string)
    requires other != ProxyCheckName && other != IPHubName
    ensures k in Supplied(c, ProxyCheckName) ==> ApiConfigOf(c).proxycheck[k] == c.api[ProxyCheckName][k]
    ensures k !in Supplied(c, ProxyCheckName) && k in DefaultProviderSettings ==>
      ApiConfigOf(c).proxycheck[k] == DefaultProviderSettings[k]
    ensures k in Supplied(c, IPHubName) ==> ApiConfigOf(c).iphub[k] == c.api[IPHubName][k]
    ensures k !in Supplied(c, IPHubName) && k in DefaultProviderSettings ==>
      ApiConfigOf(c).iphub[k] == DefaultProviderSettings[k]
    ensures ApiConfigOf(c.(api := c.api - {other})) == ApiConfigOf(c)
  {
    var d := c.(api := c.api - {other});
    assert Supplied(d, ProxyCheckName) == Supplied(c, ProxyCheckName);
    assert Supplied(d, IPHubName) == Supplied(c, IPHubName);
  }

  /** There is no duplicate in `xs`. */
  predicate NoDuplicates(xs: seq<string>) {
    forall i, j :: 0 <= i < j < |xs| ==> xs[i] != xs[j]
  }

  /** `array_search`: the first index holding `x`, if any. */
  function IndexOf(xs: seq<string>, x: string): (r: Option<nat>)
    ensures r.None? <==> x !in xs
    ensures r.Some? ==> r.value < |xs| && xs[r.value] == x && x !in xs[..r.value]
  {
    if xs == [] then None
    else if xs[0] == x then Some(0)
    else
      match IndexOf(xs[1..], x)
      case None => None
      case Some(i) =>
        assert xs[..i + 1] == [xs[0]] + xs[1..][..i];
        Some(i + 1)
  }

  /** `unset($xs[$i])` followed by `array_values`: drop index `i`, keep the order. */
  function RemoveAt(xs: seq<string>, i: nat): (r: seq<string>)
    requires i < |xs|
    ensures |r| == |xs| - 1
    ensures forall j :: 0 <= j < i ==> r[j] == xs[j]
    ensures forall j :: i <= j < |r| ==> r[j] == xs[j + 1]
  {
    xs[..i] + xs[i + 1..]
  }

  /** Appending an absent address keeps the list duplicate-free. */
  lemma {:induction false} AppendKeepsNoDuplicates(xs: seq<string>, x: string)
    requires NoDuplicates(xs) && x !in xs
    ensures NoDuplicates(xs + [x])
  {
    forall i, j | 0 <= i < j < |xs + [x]|
      ensures (xs + [x])[i] != (xs + [x])[j]
    {
      if j == |xs| {
        assert (xs + [x])[i] == xs[i];
      }
    }
  }

  /** Removing one index from a duplicate-free list keeps it duplicate-free
      and leaves the removed address out of it altogether. */
  lemma {:induction false} RemoveKeepsNoDuplicates(xs: seq<string>, i: nat)
    requires i < |xs| && NoDuplicates(xs)
    ensures NoDuplicates(RemoveAt(xs, i))
    ensures xs[i] !in RemoveAt(xs, i)
  {
    var r := RemoveAt(xs, i);
    forall a, b | 0 <= a < b < |r| ensures r[a] != r[b] {
      var a' := if a < i then a else a + 1;
      var b' := if b < i then b else b + 1;
      assert r[a] == xs[a'] && r[b] == xs[b'] && a' < b';
    }
    forall j | 0 <= j < |r| ensures r[j] != xs[i] {
      var j' := if j < i then j else j + 1;
      assert r[j] == xs[j'] && j' != i;
    }
  }

  /** Adding an absent address and then removing it restores the list. */
  lemma {:induction false} AddThenRemoveRestores(xs: seq<string>, x: string)
    requires x !in xs
    ensures IndexOf(xs + [x], x) == Some(|xs|)
    ensures RemoveAt(xs + [x], |xs|) == xs
  {
    assert (xs + [x])[..|xs|] == xs;
    assert (xs + [x])[|xs| + 1..] == [];
  }

  /** The whitelist as a list: a missing or malformed one is empty. */
  function WhitelistOf(c: RawConfig): seq<string> {
    c.ipWhitelist.GetOr([])
  }

  /** The configured whitelist, if it is a list, holds no duplicate. */
  predicate WhitelistDuplicateFree(c: RawConfig) {
    NoDuplicates(WhitelistOf(c))
  }

  /** The plugin's view of its configuration file. */
  class ConfigManager {
    var config: RawConfig

    /** `reload()` at construction: `loaded` is what the file holds. */
    constructor (loaded: RawConfig)
      ensures config == loaded
    {
      config := loaded;
    }

    /** `reload()`: the file's current contents replace the configuration. */
    method Reload(loaded: RawConfig)
      modifies this
      ensures config == loaded
    {
      config := loaded;
    }

    /** Membership in a whitelist that is present and a list. */
    function IsWhitelisted(ip: string): (b: bool)
      reads this
      ensures b <==> config.ipWhitelist.Some? && IndexOf(config.ipWhitelist.value, ip).Some?
    {
      match config.ipWhitelist
      case None => false
      case Some(list) => ip in list
    }

    function GetKickMessage(): string
      reads this
    {
      config.kickMessage.GetOr(DefaultKickMessage)
    }

    /** Cache lifetime in seconds. */
    function GetCacheTime(): int
      reads this
    {
      config.cacheTime.GetOr(DefaultCacheTime)
    }

    /** Sweep interval in minutes. */
    function GetCacheCleanupInterval(): int
      reads this
    {
      config.cacheCleanupInterval.GetOr(DefaultCleanupMinutes)
    }

    function IsLoggingEnabled(): bool
      reads this
    {
      config.enableLogs.GetOr(true)
    }

    function GetApiRetryLimit(): int
      reads this
    {
      config.apiRetryLimit.GetOr(DefaultRetryLimit)
    }

    /** The sweep task's period in server ticks, as scheduled at enable time. */
    function CleanupIntervalTicks(): (t: int)
      reads this
      ensures t % TicksPerMinute == 0 && t / TicksPerMinute == GetCacheCleanupInterval()
    {
      GetCacheCleanupInterval() * TicksPerMinute
    }

    /** `getApiConfig`: the defaults, then every key of the sections of the two
        known providers copied over them one by one. */
    method GetApiConfig() returns (r: ApiConfig)
      ensures r == ApiConfigOf(config)
    {
      var names := [ProxyCheckName, IPHubName];
      var merged := [DefaultProviderSettings, DefaultProviderSettings];
      for n := 0 to 2
        invariant |merged| == 2
        invariant forall j :: 0 <= j < n ==> merged[j] == DefaultProviderSettings + Supplied(config, names[j])
        invariant forall j :: n <= j < 2 ==> merged[j] == DefaultProviderSettings
      {
        if names[n] in config.api {
          var section := config.api[names[n]];
          var result := merged[n];
          var todo := section.Keys;
          while todo != {}
            invariant todo <= section.Keys
            invariant result.Keys == DefaultProviderSettings.Keys + (section.Keys - todo)
            invariant forall k :: k in section && k !in todo ==> result[k] == section[k]
            invariant forall k :: k in DefaultProviderSettings && (k !in section || k in todo) ==>
              result[k] == DefaultProviderSettings[k]
            decreases todo
          {
            var key :| key in todo;
            result := result[key := section[key]];
            todo := todo - {key};
          }
          assert result == DefaultProviderSettings + section;
          merged := merged[n := result];
        }
      }
      r := ApiConfig(
        config.primaryApi.GetOr(ProxyCheckName),
        config.fallbackApi.GetOr(IPHubName),
        config.apiRetryLimit.GetOr(DefaultRetryLimit),
        merged[0], merged[1]);
    }

    /** `addToWhitelist`: append the address unless it is already listed. */
    method AddToWhitelist(ip: string) returns (added: bool)
      modifies this
      ensures added <==> !old(IsWhitelisted(ip))
      ensures IsWhitelisted(ip)
      ensures config == old(config).(ipWhitelist :=
        Some(if added then WhitelistOf(old(config)) + [ip] else WhitelistOf(old(config))))
      ensures old(WhitelistDuplicateFree(config)) ==> WhitelistDuplicateFree(config)
    {
      if config.ipWhitelist.None? {
        config := config.(ipWhitelist := Some([]));
      }
      var list := config.ipWhitelist.value;
      if ip !in list {
        if NoDuplicates(list) {
          AppendKeepsNoDuplicates(list, ip);
        }
        config := config.(ipWhitelist := Some(list + [ip]));
        return true;
      }
      return false;
    }

    /** `removeFromWhitelist`: drop the first occurrence of the address and
        close the gap. */
    method RemoveFromWhitelist(ip: string) returns (removed: bool)
      modifies this
      ensures removed <==> old(IsWhitelisted(ip))
      ensures !removed ==> config == old(config)
      ensures removed ==> config == old(config).(ipWhitelist :=
        Some(RemoveAt(WhitelistOf(old(config)), IndexOf(WhitelistOf(old(config)), ip).value)))
      ensures removed && old(WhitelistDuplicateFree(config)) ==> !IsWhitelisted(ip)
      ensures old(WhitelistDuplicateFree(config)) ==> WhitelistDuplicateFree(config)
    {
      if config.ipWhitelist.None? {
        return false;
      }
      var list := config.ipWhitelist.value;
      var key := IndexOf(list, ip);
      if key.Some? {
        if NoDuplicates(list) {
          RemoveKeepsNoDuplicates(list, key.value);
        }
        config := config.(ipWhitelist := Some(RemoveAt(list, key.value)));
        return true;
      }
      return false;
    }
  }

  /** Each getter defaults its own key independently: a missing key gives the
      documented default and a present one its configured value. */
  lemma GetterDefaults(cm: ConfigManager)
    ensures cm.config.cacheTime.None? ==> cm.GetCacheTime() == 3600
    ensures cm.config.cacheTime.Some? ==> cm.GetCacheTime() == cm.config.cacheTime.value
    ensures cm.config.cacheCleanupInterval.None? ==>
      cm.GetCacheCleanupInterval() == 30 && cm.CleanupIntervalTicks() == 36000
    ensures cm.config.cacheCleanupInterval.Some? ==>
      cm.GetCacheCleanupInterval() == cm.config.cacheCleanupInterval.value
    ensures cm.config.apiRetryLimit.None? ==> cm.GetApiRetryLimit() == 3
    ensures cm.config.apiRetryLimit.Some? ==> cm.GetApiRetryLimit() == cm.config.apiRetryLimit.value
    ensures cm.config.enableLogs.None? ==> cm.IsLoggingEnabled()
    ensures cm.config.enableLogs.Some? ==> cm.IsLoggingEnabled() == cm.config.enableLogs.value
    ensures cm.config.kickMessage.None? ==> cm.GetKickMessage() == DefaultKickMessage
    ensures cm.config.kickMessage.Some? ==> cm.GetKickMessage() == cm.config.kickMessage.value
    ensures cm.config.ipWhitelist.None? ==> forall ip :: !cm.IsWhitelisted(ip)
  {
  }

  /** The retry-limit getter and `getApiConfig` read the same key with the same default. */
  lemma RetryLimitAgrees(cm: ConfigManager)
    ensures cm.GetApiRetryLimit() == ApiConfigOf(cm.config).retryLimit
  {
  }
}
