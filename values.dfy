/** Values shared by every part of the AntiVPN model: the tri-state verdict,
    configuration scalars, provider answers and provider clients. */
module Values {

  datatype Option<+T> = None | Some(value: T) {
    /** The wrapped value, or `default` when there is none. */
    function GetOr(default: T): T {
      match this
      case Some(v) => v
      case None => default
    }
  }

  /** The plugin's `bool|null` verdict: true, false, or "could not determine". */
  datatype Verdict = VPN | NotVPN | Unknown

  /** The verdict a provider's `is_vpn` flag stands for. */
  function VerdictOf(isVpn: bool): (v: Verdict)
    ensures v != Unknown
    ensures v == VPN <==> isVpn
  {
    if isVpn then VPN else NotVPN
  }

  /** A scalar as it may appear in the YAML configuration. */
  datatype Value = Null | Bool(b: bool) | Int(i: int) | Str(s: string)

  /** PHP truthiness of a scalar: what `if ($v)` tests; `empty($v)` is its negation. */
  predicate Truthy(v: Value) {
    match v
    case Null => false
    case Bool(b) => b
    case Int(i) => i != 0
    case Str(s) => s != "" && s != "0"
  }

  /** A string-keyed PHP array of scalars. */
  type Settings = map<string, Value>

  /** Reading `$m[$k]`: a missing key reads as null. */
  function Setting(m: Settings, k: string): (v: Value)
    ensures k !in m ==> v == Null
    ensures k in m ==> v == m[k]
  {
    if k in m then m[k] else Null
  }

  /** `isset($m[$k])`: the key is present and its value is not null. */
  predicate IsSet(m: Settings, k: string) {
    k in m && m[k] != Null
  }

  /** The detail record a provider returns (provider, country code, risk ...);
      carried through, never interpreted. */
  type Details = Settings

  /** A non-null provider answer: its `is_vpn` flag and the whole record. */
  datatype Answer = Answer(isVpn: bool, details: Details)

  /** What one provider call does: answers, returns null, or throws. */
  datatype ProviderOutcome = Answered(answer: Answer) | Indeterminate | Raised

  /** A provider instance, as built from its configured API key. */
  datatype ProviderClient = ProxyCheck(apiKey: Value) | IPHub(apiKey: Value)
}
