/** The four EU AI Act risk tiers, their severity order and their wire names. */
module RiskTier {
  import opened Wrappers

  datatype Tier = Minimal | Limited | High | Unacceptable

  /** Severity rank: Unacceptable (3) > High (2) > Limited (1) > Minimal (0). */
  function Severity(t: Tier): (n: nat)
    ensures n <= 3
    ensures n == 0 <==> t == Minimal
  {
    match t
    case Minimal => 0
    case Limited => 1
    case High => 2
    case Unacceptable => 3
  }

  /** The more severe of two tiers. */
  function Max(a: Tier, b: Tier): (m: Tier)
    ensures Severity(m) >= Severity(a) && Severity(m) >= Severity(b)
    ensures m == a || m == b
  {
    if Severity(a) >= Severity(b) then a else b
  }

  /** The literal string a tier crosses the frontend/backend boundary as. */
  function Name(t: Tier): string {
    match t
    case Minimal => "Minimal"
    case Limited => "Limited"
    case High => "High"
    case Unacceptable => "Unacceptable"
  }

  /** The tier whose name is exactly `s`; any other string ("Pending", "Error", ...) has none. */
  function Parse(s: string): (r: Option<Tier>)
    ensures r.Some? ==> Name(r.value) == s
  {
    if s == "Minimal" then Some(Minimal)
    else if s == "Limited" then Some(Limited)
    else if s == "High" then Some(High)
    else if s == "Unacceptable" then Some(Unacceptable)
    else None
  }

  /** Parsing inverts naming, so two tiers never share a name. */
  lemma ParseName(t: Tier)
    ensures Parse(Name(t)) == Some(t)
  {
  }

  /** Severity is injective, so it is a total order on tiers. */
  lemma SeverityInjective(a: Tier, b: Tier)
    ensures Severity(a) == Severity(b) <==> a == b
  {
  }
}
