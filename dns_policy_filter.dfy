/** Filters/DnsPolicies/DnsPolicyFilter.php: the properties DNS policies can be filtered
    on, one preset per record type, and enabled-only. */
module DnsPolicyFilter {
  import opened Wrappers
  import opened FilterSyntax
  import opened FilterBuilder

  function Type(): (f: FilterState)
    ensures StartedOn(f, "type")
  {
    Where("type")
  }

  function Id(): (f: FilterState)
    ensures StartedOn(f, "id")
  {
    Where("id")
  }

  function Enabled(): (f: FilterState)
    ensures StartedOn(f, "enabled")
  {
    Where("enabled")
  }

  function Domain(): (f: FilterState)
    ensures StartedOn(f, "domain")
  {
    Where("domain")
  }

  function Ipv4Address(): (f: FilterState)
    ensures StartedOn(f, "ipv4Address")
  {
    Where("ipv4Address")
  }

  function Ipv6Address(): (f: FilterState)
    ensures StartedOn(f, "ipv6Address")
  {
    Where("ipv6Address")
  }

  function TargetDomain(): (f: FilterState)
    ensures StartedOn(f, "targetDomain")
  {
    Where("targetDomain")
  }

  function MailServerDomain(): (f: FilterState)
    ensures StartedOn(f, "mailServerDomain")
  {
    Where("mailServerDomain")
  }

  function Text(): (f: FilterState)
    ensures StartedOn(f, "text")
  {
    Where("text")
  }

  function ServerDomain(): (f: FilterState)
    ensures StartedOn(f, "serverDomain")
  {
    Where("serverDomain")
  }

  function IpAddress(): (f: FilterState)
    ensures StartedOn(f, "ipAddress")
  {
    Where("ipAddress")
  }

  function TtlSeconds(): (f: FilterState)
    ensures StartedOn(f, "ttlSeconds")
  {
    Where("ttlSeconds")
  }

  function Priority(): (f: FilterState)
    ensures StartedOn(f, "priority")
  {
    Where("priority")
  }

  function Service(): (f: FilterState)
    ensures StartedOn(f, "service")
  {
    Where("service")
  }

  function Protocol(): (f: FilterState)
    ensures StartedOn(f, "protocol")
  {
    Where("protocol")
  }

  function Port(): (f: FilterState)
    ensures StartedOn(f, "port")
  {
    Where("port")
  }

  function Weight(): (f: FilterState)
    ensures StartedOn(f, "weight")
  {
    Where("weight")
  }

  // ---------------------------------------------------------------------------
  // Presets
  // ---------------------------------------------------------------------------

  function ARecords(): (f: FilterState)
    ensures f.currentProperty == Some("type")
    ensures ToString(f) == Call("type", "eq", Quote("A"))
  {
    OneString("type", EqOp, "A");
    Equals(Type(), StrValue("A")).value
  }

  function AaaaRecords(): (f: FilterState)
    ensures f.currentProperty == Some("type")
    ensures ToString(f) == Call("type", "eq", Quote("AAAA"))
  {
    OneString("type", EqOp, "AAAA");
    Equals(Type(), StrValue("AAAA")).value
  }

  function CnameRecords(): (f: FilterState)
    ensures f.currentProperty == Some("type")
    ensures ToString(f) == Call("type", "eq", Quote("CNAME"))
  {
    OneString("type", EqOp, "CNAME");
    Equals(Type(), StrValue("CNAME")).value
  }

  function MxRecords(): (f: FilterState)
    ensures f.currentProperty == Some("type")
    ensures ToString(f) == Call("type", "eq", Quote("MX"))
  {
    OneString("type", EqOp, "MX");
    Equals(Type(), StrValue("MX")).value
  }

  function TxtRecords(): (f: FilterState)
    ensures f.currentProperty == Some("type")
    ensures ToString(f) == Call("type", "eq", Quote("TXT"))
  {
    OneString("type", EqOp, "TXT");
    Equals(Type(), StrValue("TXT")).value
  }

  function SrvRecords(): (f: FilterState)
    ensures f.currentProperty == Some("type")
    ensures ToString(f) == Call("type", "eq", Quote("SRV"))
  {
    OneString("type", EqOp, "SRV");
    Equals(Type(), StrValue("SRV")).value
  }

  function ForwardDomains(): (f: FilterState)
    ensures f.currentProperty == Some("type")
    ensures ToString(f) == Call("type", "eq", Quote("FORWARD_DOMAIN"))
  {
    OneString("type", EqOp, "FORWARD_DOMAIN");
    Equals(Type(), StrValue("FORWARD_DOMAIN")).value
  }

  function EnabledOnly(): (f: FilterState)
    ensures f.currentProperty == Some("enabled")
    ensures ToString(f) == Call("enabled", "eq", "true")
  {
    OneValue("enabled", EqOp, BoolValue(true), "true");
    Equals(Enabled(), BoolValue(true)).value
  }

  // ---------------------------------------------------------------------------
  // The examples of the class comment
  // ---------------------------------------------------------------------------

  /** `domain()->like('*.example.com')`, the second half of the combined example. */
  function ExampleDomainLike(): (f: FilterState)
    ensures f.currentProperty == Some("domain")
    ensures ToString(f) == Call("domain", "like", Quote("*.example.com"))
  {
    OneString("domain", LikeOp, "*.example.com");
    Like(Domain(), "*.example.com").value
  }

  /** Enabled policies for subdomains of `example.com`. */
  function EnabledExampleDomainExample(): (f: FilterState)
    ensures f.currentProperty == None
    ensures ToString(f) == "and(" + Call("enabled", "eq", "true") + ", " + Call("domain", "like", Quote("*.example.com")) + ")"
  {
    var a, b := EnabledOnly(), ExampleDomainLike();
    AndOfTwo(a, b, Call("enabled", "eq", "true"), Call("domain", "like", Quote("*.example.com")));
    And([a, b])
  }
}
