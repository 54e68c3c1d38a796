/** Filters/Networks/NetworkFilter.php: the properties networks can be filtered on and
    the filters it offers ready-made. */
module NetworkFilter {
  import opened Wrappers
  import opened FilterSyntax
  import opened FilterBuilder

  function Management(): (f: FilterState)
    ensures StartedOn(f, "management")
  {
    Where("management")
  }

  function Id(): (f: FilterState)
    ensures StartedOn(f, "id")
  {
    Where("id")
  }

  function Name(): (f: FilterState)
    ensures StartedOn(f, "name")
  {
    Where("name")
  }

  function Enabled(): (f: FilterState)
    ensures StartedOn(f, "enabled")
  {
    Where("enabled")
  }

  function VlanId(): (f: FilterState)
    ensures StartedOn(f, "vlanId")
  {
    Where("vlanId")
  }

  function DeviceId(): (f: FilterState)
    ensures StartedOn(f, "deviceId")
  {
    Where("deviceId")
  }

  /** The dotted property `metadata.origin`. */
  function MetadataOrigin(): (f: FilterState)
    ensures StartedOn(f, "metadata.origin")
  {
    Where("metadata.origin")
  }

  // ---------------------------------------------------------------------------
  // Presets
  // ---------------------------------------------------------------------------

  function EnabledOnly(): (f: FilterState)
    ensures f.currentProperty == Some("enabled")
    ensures ToString(f) == Call("enabled", "eq", "true")
  {
    OneValue("enabled", EqOp, BoolValue(true), "true");
    Equals(Enabled(), BoolValue(true)).value
  }

  function DisabledOnly(): (f: FilterState)
    ensures f.currentProperty == Some("enabled")
    ensures ToString(f) == Call("enabled", "eq", "false")
  {
    OneValue("enabled", EqOp, BoolValue(false), "false");
    Equals(Enabled(), BoolValue(false)).value
  }

  function GuestNetworks(): (f: FilterState)
    ensures f.currentProperty == Some("name")
    ensures ToString(f) == Call("name", "like", Quote("*Guest*"))
  {
    OneString("name", LikeOp, "*Guest*");
    Like(Name(), "*Guest*").value
  }

  function IotNetworks(): (f: FilterState)
    ensures f.currentProperty == Some("name")
    ensures ToString(f) == Call("name", "like", Quote("*IoT*"))
  {
    OneString("name", LikeOp, "*IoT*");
    Like(Name(), "*IoT*").value
  }

  function UnassignedNetworks(): (f: FilterState)
    ensures f.currentProperty == Some("deviceId")
    ensures ToString(f) == Call("deviceId", "isNull", "")
  {
    NoValueCall("deviceId", IsNullOp);
    IsNull(DeviceId()).value
  }

  // ---------------------------------------------------------------------------
  // The examples of the class comment
  // ---------------------------------------------------------------------------

  /** `name()->equals('LAN')`. */
  function LanExample(): (f: FilterState)
    ensures f.currentProperty == Some("name")
    ensures ToString(f) == Call("name", "eq", Quote("LAN"))
  {
    OneString("name", EqOp, "LAN");
    Equals(Name(), StrValue("LAN")).value
  }

  /** `vlanId()->greaterThan(10)`, the first half of the VLAN range example. */
  function VlanAbove10(): (f: FilterState)
    ensures f.currentProperty == Some("vlanId")
    ensures ToString(f) == Call("vlanId", "gt", "10")
  {
    OneValue("vlanId", GtOp, IntValue(10), "10");
    GreaterThan(VlanId(), IntValue(10)).value
  }

  /** `vlanId()->lessThan(100)`, its second half. */
  function VlanBelow100(): (f: FilterState)
    ensures f.currentProperty == Some("vlanId")
    ensures ToString(f) == Call("vlanId", "lt", "100")
  {
    OneValue("vlanId", LtOp, IntValue(100), "100");
    LessThan(VlanId(), IntValue(100)).value
  }

  /** VLAN ids strictly between 10 and 100. */
  function VlanRangeExample(): (f: FilterState)
    ensures f.currentProperty == None
    ensures ToString(f) == "and(" + Call("vlanId", "gt", "10") + ", " + Call("vlanId", "lt", "100") + ")"
  {
    var a, b := VlanAbove10(), VlanBelow100();
    AndOfTwo(a, b, Call("vlanId", "gt", "10"), Call("vlanId", "lt", "100"));
    And([a, b])
  }

  /** `name()->like('Guest*')`. */
  function GuestPrefixExample(): (f: FilterState)
    ensures f.currentProperty == Some("name")
    ensures ToString(f) == Call("name", "like", Quote("Guest*"))
  {
    OneString("name", LikeOp, "Guest*");
    Like(Name(), "Guest*").value
  }
}
