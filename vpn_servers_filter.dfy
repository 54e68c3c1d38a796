/** Filters/SupportingResources/VpnServersFilter.php: filters over VPN servers. */
module VpnServersFilter {
  import opened Wrappers
  import opened FilterSyntax
  import opened FilterBuilder

  function Type(): (f: FilterState)
    ensures StartedOn(f, "type")
  {
    Where("type")
  }

  function Id(): (f: FilterState)
    ensures StartedOn(f, "id")
  {
    Where("id")
  }

  function Name(): (f: FilterState)
    ensures StartedOn(f, "name")
  {
    Where("name")
  }

  function Enabled(): (f: FilterState)
    ensures StartedOn(f, "enabled")
  {
    Where("enabled")
  }

  /** The dotted property `metadata.origin`. */
  function MetadataOrigin(): (f: FilterState)
    ensures StartedOn(f, "metadata.origin")
  {
    Where("metadata.origin")
  }

  // ---------------------------------------------------------------------------
  // Presets
  // ---------------------------------------------------------------------------

  function EnabledOnly(): (f: FilterState)
    ensures f.currentProperty == Some("enabled")
    ensures ToString(f) == Call("enabled", "eq", "true")
  {
    OneValue("enabled", EqOp, BoolValue(true), "true");
    Equals(Enabled(), BoolValue(true)).value
  }

  function DisabledOnly(): (f: FilterState)
    ensures f.currentProperty == Some("enabled")
    ensures ToString(f) == Call("enabled", "eq", "false")
  {
    OneValue("enabled", EqOp, BoolValue(false), "false");
    Equals(Enabled(), BoolValue(false)).value
  }

  // ---------------------------------------------------------------------------
  // The examples of the class comment
  // ---------------------------------------------------------------------------

  /** `name()->like('Remote*')`. */
  function RemotePrefixExample(): (f: FilterState)
    ensures f.currentProperty == Some("name")
    ensures ToString(f) == Call("name", "like", Quote("Remote*"))
  {
    OneString("name", LikeOp, "Remote*");
    Like(Name(), "Remote*").value
  }

  /** `type()->equals('L2TP')`. */
  function L2tpExample(): (f: FilterState)
    ensures f.currentProperty == Some("type")
    ensures ToString(f) == Call("type", "eq", Quote("L2TP"))
  {
    OneString("type", EqOp, "L2TP");
    Equals(Type(), StrValue("L2TP")).value
  }
}
