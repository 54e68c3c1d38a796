/** Filters/WifiBroadcasts/WifiBroadcastFilter.php: filters over WiFi broadcasts (SSIDs). */
module WifiBroadcastFilter {
  import opened Wrappers
  import opened FilterSyntax
  import opened FilterBuilder

  function Id(): (f: FilterState)
    ensures StartedOn(f, "id")
  {
    Where("id")
  }

  function Name(): (f: FilterState)
    ensures StartedOn(f, "name")
  {
    Where("name")
  }

  function Type(): (f: FilterState)
    ensures StartedOn(f, "type")
  {
    Where("type")
  }

  function Enabled(): (f: FilterState)
    ensures StartedOn(f, "enabled")
  {
    Where("enabled")
  }

  // ---------------------------------------------------------------------------
  // Presets
  // ---------------------------------------------------------------------------

  function EnabledOnly(): (f: FilterState)
    ensures f.currentProperty == Some("enabled")
    ensures ToString(f) == Call("enabled", "eq", "true")
  {
    OneValue("enabled", EqOp, BoolValue(true), "true");
    Equals(Enabled(), BoolValue(true)).value
  }

  function DisabledOnly(): (f: FilterState)
    ensures f.currentProperty == Some("enabled")
    ensures ToString(f) == Call("enabled", "eq", "false")
  {
    OneValue("enabled", EqOp, BoolValue(false), "false");
    Equals(Enabled(), BoolValue(false)).value
  }

  // ---------------------------------------------------------------------------
  // The examples of the class comment
  // ---------------------------------------------------------------------------

  /** `name()->like('Guest*')`. */
  function GuestPrefixExample(): (f: FilterState)
    ensures f.currentProperty == Some("name")
    ensures ToString(f) == Call("name", "like", Quote("Guest*"))
  {
    OneString("name", LikeOp, "Guest*");
    Like(Name(), "Guest*").value
  }
}
