/** Filters/Clients/ClientFilter.php: the properties clients can be filtered on
    and the filters it offers ready-made. */
module ClientFilter {
  import opened Wrappers
  import opened Enums
  import opened FilterSyntax
  import opened FilterBuilder

  function Id(): (f: FilterState)
    ensures StartedOn(f, "id")
  {
    Where("id")
  }

  function Type(): (f: FilterState)
    ensures StartedOn(f, "type")
  {
    Where("type")
  }

  function MacAddress(): (f: FilterState)
    ensures StartedOn(f, "macAddress")
  {
    Where("macAddress")
  }

  function IpAddress(): (f: FilterState)
    ensures StartedOn(f, "ipAddress")
  {
    Where("ipAddress")
  }

  function ConnectedAt(): (f: FilterState)
    ensures StartedOn(f, "connectedAt")
  {
    Where("connectedAt")
  }

  /** The dotted property `access.type`. */
  function AccessType(): (f: FilterState)
    ensures StartedOn(f, "access.type")
  {
    Where("access.type")
  }

  /** The dotted property `access.authorized`. */
  function AccessAuthorized(): (f: FilterState)
    ensures StartedOn(f, "access.authorized")
  {
    Where("access.authorized")
  }

  // ---------------------------------------------------------------------------
  // Presets on the connection type
  // ---------------------------------------------------------------------------

  function Wireless(): (f: FilterState)
    ensures f.currentProperty == Some("type")
    ensures ToString(f) == Call("type", "eq", Quote("WIRELESS"))
  {
    var v := EnumValue(ClientTypeCase(WIRELESS));
    QuotedEnum(v.e);
    OneValue("type", EqOp, v, Quote("WIRELESS"));
    Equals(Type(), v).value
  }

  function Wired(): (f: FilterState)
    ensures f.currentProperty == Some("type")
    ensures ToString(f) == Call("type", "eq", Quote("WIRED"))
  {
    var v := EnumValue(ClientTypeCase(WIRED));
    QuotedEnum(v.e);
    OneValue("type", EqOp, v, Quote("WIRED"));
    Equals(Type(), v).value
  }

  function Vpn(): (f: FilterState)
    ensures f.currentProperty == Some("type")
    ensures ToString(f) == Call("type", "eq", Quote("VPN"))
  {
    var v := EnumValue(ClientTypeCase(VPN));
    QuotedEnum(v.e);
    OneValue("type", EqOp, v, Quote("VPN"));
    Equals(Type(), v).value
  }

  function Teleport(): (f: FilterState)
    ensures f.currentProperty == Some("type")
    ensures ToString(f) == Call("type", "eq", Quote("TELEPORT"))
  {
    var v := EnumValue(ClientTypeCase(TELEPORT));
    QuotedEnum(v.e);
    OneValue("type", EqOp, v, Quote("TELEPORT"));
    Equals(Type(), v).value
  }

  // ---------------------------------------------------------------------------
  // Presets on the access type
  // ---------------------------------------------------------------------------

  function Guests(): (f: FilterState)
    ensures f.currentProperty == Some("access.type")
    ensures ToString(f) == Call("access.type", "eq", Quote("GUEST"))
  {
    var v := EnumValue(ClientAccessTypeCase(GUEST));
    QuotedEnum(v.e);
    OneValue("access.type", EqOp, v, Quote("GUEST"));
    Equals(AccessType(), v).value
  }

  function DefaultAccess(): (f: FilterState)
    ensures f.currentProperty == Some("access.type")
    ensures ToString(f) == Call("access.type", "eq", Quote("DEFAULT"))
  {
    var v := EnumValue(ClientAccessTypeCase(DEFAULT));
    QuotedEnum(v.e);
    OneValue("access.type", EqOp, v, Quote("DEFAULT"));
    Equals(AccessType(), v).value
  }

  /** `access.authorized` equal to a boolean, the building block of the two
      authorization presets. */
  function Authorized(b: bool): (f: FilterState)
    ensures f.currentProperty == Some("access.authorized")
    ensures ToString(f) == Call("access.authorized", "eq", if b then "true" else "false")
  {
    OneValue("access.authorized", EqOp, BoolValue(b), if b then "true" else "false");
    Equals(AccessAuthorized(), BoolValue(b)).value
  }

  // ---------------------------------------------------------------------------
  // Combined presets: an `and` of two fresh builders, no current property
  // ---------------------------------------------------------------------------

  function WirelessGuests(): (f: FilterState)
    ensures f.currentProperty == None
    ensures ToString(f) == "and(" + Call("type", "eq", Quote("WIRELESS")) + ", " + Call("access.type", "eq", Quote("GUEST")) + ")"
  {
    var a, b := Wireless(), Guests();
    AndOfTwo(a, b, Call("type", "eq", Quote("WIRELESS")), Call("access.type", "eq", Quote("GUEST")));
    And([a, b])
  }

  function WiredGuests(): (f: FilterState)
    ensures f.currentProperty == None
    ensures ToString(f) == "and(" + Call("type", "eq", Quote("WIRED")) + ", " + Call("access.type", "eq", Quote("GUEST")) + ")"
  {
    var a, b := Wired(), Guests();
    AndOfTwo(a, b, Call("type", "eq", Quote("WIRED")), Call("access.type", "eq", Quote("GUEST")));
    And([a, b])
  }

  function AuthorizedGuests(): (f: FilterState)
    ensures f.currentProperty == None
    ensures ToString(f) == "and(" + Call("access.type", "eq", Quote("GUEST")) + ", " + Call("access.authorized", "eq", "true") + ")"
  {
    var a, b := Guests(), Authorized(true);
    AndOfTwo(a, b, Call("access.type", "eq", Quote("GUEST")), Call("access.authorized", "eq", "true"));
    And([a, b])
  }

  function UnauthorizedGuests(): (f: FilterState)
    ensures f.currentProperty == None
    ensures ToString(f) == "and(" + Call("access.type", "eq", Quote("GUEST")) + ", " + Call("access.authorized", "eq", "false") + ")"
  {
    var a, b := Guests(), Authorized(false);
    AndOfTwo(a, b, Call("access.type", "eq", Quote("GUEST")), Call("access.authorized", "eq", "false"));
    And([a, b])
  }

  // ---------------------------------------------------------------------------
  // Presets on the IP address
  // ---------------------------------------------------------------------------

  function WithIpAddress(): (f: FilterState)
    ensures f.currentProperty == Some("ipAddress")
    ensures ToString(f) == Call("ipAddress", "isNotNull", "")
  {
    NoValueCall("ipAddress", IsNotNullOp);
    IsNotNull(IpAddress()).value
  }

  function WithoutIpAddress(): (f: FilterState)
    ensures f.currentProperty == Some("ipAddress")
    ensures ToString(f) == Call("ipAddress", "isNull", "")
  {
    NoValueCall("ipAddress", IsNullOp);
    IsNull(IpAddress()).value
  }

  /** The combined presets have no current property, so any operator chained on
      them throws and appends nothing. */
  lemma CombinedPresetsRejectOperators(op: Operator, arg: Arg)
    ensures AddCondition(WirelessGuests(), op, arg).Failure?
    ensures AddCondition(WiredGuests(), op, arg).Failure?
    ensures AddCondition(AuthorizedGuests(), op, arg).Failure?
    ensures AddCondition(UnauthorizedGuests(), op, arg).Failure?
  {
  }
}
