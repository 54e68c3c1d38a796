/** The string-backed enums of the client library (Enums/ClientType.php,
    Enums/ClientAccessType.php). PHP's built-in `tryFrom` is the partner of
    the backing value: it maps a backing string back to its case. */
module Enums {
  import opened Wrappers

  /** How a client is connected. */
  datatype ClientType = WIRED | WIRELESS | VPN | TELEPORT

  /** A backing value of the library's enums: a non-empty word of capital letters. */
  predicate IsCaseName(s: string)
  {
    |s| > 0 && forall i :: 0 <= i < |s| ==> 'A' <= s[i] <= 'Z'
  }

  /** The backing value of each case: the case name itself. */
  function ClientTypeValue(t: ClientType): (s: string)
    ensures IsCaseName(s)
  {
    match t
    case WIRED => "WIRED"
    case WIRELESS => "WIRELESS"
    case VPN => "VPN"
    case TELEPORT => "TELEPORT"
  }

  /** `ClientType::cases()`, in declaration order. */
  const ClientTypeCases: seq<ClientType> := [WIRED, WIRELESS, VPN, TELEPORT]

  /** `ClientType::tryFrom($s)`. */
  function ClientTypeTryFrom(s: string): (r: Option<ClientType>)
    ensures r.Some? ==> ClientTypeValue(r.value) == s
  {
    if s == "WIRED" then Some(WIRED)
    else if s == "WIRELESS" then Some(WIRELESS)
    else if s == "VPN" then Some(VPN)
    else if s == "TELEPORT" then Some(TELEPORT)
    else None
  }

  /** There are exactly the four cases, each listed once. */
  lemma ClientTypeCasesComplete(t: ClientType)
    ensures t in ClientTypeCases
    ensures |ClientTypeCases| == 4
    ensures forall i, j :: 0 <= i < j < |ClientTypeCases| ==> ClientTypeCases[i] != ClientTypeCases[j]
  {
  }

  /** Every case comes back from its backing value, so the backing values are pairwise distinct. */
  lemma ClientTypeRoundTrip(t: ClientType)
    ensures ClientTypeTryFrom(ClientTypeValue(t)) == Some(t)
  {
  }

  lemma ClientTypeValueInjective(a: ClientType, b: ClientType)
    ensures ClientTypeValue(a) == ClientTypeValue(b) ==> a == b
  {
    ClientTypeRoundTrip(a);
    ClientTypeRoundTrip(b);
  }

  /** Access level of a client. */
  datatype ClientAccessType = DEFAULT | GUEST

  /** The backing value of each case: the case name itself. */
  function ClientAccessTypeValue(t: ClientAccessType): (s: string)
    ensures IsCaseName(s)
  {
    match t
    case DEFAULT => "DEFAULT"
    case GUEST => "GUEST"
  }

  const ClientAccessTypeCases: seq<ClientAccessType> := [DEFAULT, GUEST]

  /** `ClientAccessType::tryFrom($s)`. */
  function ClientAccessTypeTryFrom(s: string): (r: Option<ClientAccessType>)
    ensures r.Some? ==> ClientAccessTypeValue(r.value) == s
  {
    if s == "DEFAULT" then Some(DEFAULT)
    else if s == "GUEST" then Some(GUEST)
    else None
  }

  lemma ClientAccessTypeCasesComplete(t: ClientAccessType)
    ensures t in ClientAccessTypeCases
    ensures |ClientAccessTypeCases| == 2 && ClientAccessTypeCases[0] != ClientAccessTypeCases[1]
  {
  }

  lemma ClientAccessTypeRoundTrip(t: ClientAccessType)
    ensures ClientAccessTypeTryFrom(ClientAccessTypeValue(t)) == Some(t)
  {
  }

  /** Any backed enum case of the library: the `\BackedEnum` that `formatValue` unwraps. */
  datatype BackedEnum = ClientTypeCase(clientType: ClientType) | ClientAccessTypeCase(accessType: ClientAccessType)

  /** `$enum->value`. */
  function BackingValue(e: BackedEnum): (s: string)
    ensures e.ClientTypeCase? ==> ClientTypeTryFrom(s) == Some(e.clientType)
    ensures e.ClientAccessTypeCase? ==> ClientAccessTypeTryFrom(s) == Some(e.accessType)
    ensures IsCaseName(s)
  {
    match e
    case ClientTypeCase(t) => ClientTypeValue(t)
    case ClientAccessTypeCase(t) => ClientAccessTypeValue(t)
  }
}
