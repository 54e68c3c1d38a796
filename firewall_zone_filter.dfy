/** Filters/Firewall/FirewallZoneFilter.php: filters over firewall zones. */
module FirewallZoneFilter {
  import opened Wrappers
  import opened FilterSyntax
  import opened FilterBuilder

  function Id(): (f: FilterState)
    ensures StartedOn(f, "id")
  {
    Where("id")
  }

  function Name(): (f: FilterState)
    ensures StartedOn(f, "name")
  {
    Where("name")
  }

  function NetworkIds(): (f: FilterState)
    ensures StartedOn(f, "networkIds")
  {
    Where("networkIds")
  }

  // ---------------------------------------------------------------------------
  // Presets
  // ---------------------------------------------------------------------------

  function EmptyZones(): (f: FilterState)
    ensures f.currentProperty == Some("networkIds")
    ensures ToString(f) == Call("networkIds", "isEmpty", "")
  {
    NoValueCall("networkIds", IsEmptyOp);
    IsEmpty(NetworkIds()).value
  }

  // ---------------------------------------------------------------------------
  // The examples of the class comment
  // ---------------------------------------------------------------------------

  /** `name()->like('DMZ*')`. */
  function DmzPrefixExample(): (f: FilterState)
    ensures f.currentProperty == Some("name")
    ensures ToString(f) == Call("name", "like", Quote("DMZ*"))
  {
    OneString("name", LikeOp, "DMZ*");
    Like(Name(), "DMZ*").value
  }

  /** `networkIds()->contains(...)` with a network UUID. */
  function NetworkExample(): (f: FilterState)
    ensures f.currentProperty == Some("networkIds")
    ensures ToString(f) == Call("networkIds", "contains", Quote("550e8400-e29b-41d4-a716-446655440000"))
  {
    OneString("networkIds", ContainsOp, "550e8400-e29b-41d4-a716-446655440000");
    Contains(NetworkIds(), "550e8400-e29b-41d4-a716-446655440000").value
  }
}
