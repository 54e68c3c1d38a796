/** Filters/Firewall/FirewallPolicyFilter.php: filters over firewall policies. */
module FirewallPolicyFilter {
  import opened Wrappers
  import opened FilterSyntax
  import opened FilterBuilder

  function Id(): (f: FilterState)
    ensures StartedOn(f, "id")
  {
    Where("id")
  }

  function Name(): (f: FilterState)
    ensures StartedOn(f, "name")
  {
    Where("name")
  }

  /** The dotted property `source.zoneId`. */
  function SourceZoneId(): (f: FilterState)
    ensures StartedOn(f, "source.zoneId")
  {
    Where("source.zoneId")
  }

  /** The dotted property `destination.zoneId`. */
  function DestinationZoneId(): (f: FilterState)
    ensures StartedOn(f, "destination.zoneId")
  {
    Where("destination.zoneId")
  }

  /** The dotted property `metadata.origin`. */
  function MetadataOrigin(): (f: FilterState)
    ensures StartedOn(f, "metadata.origin")
  {
    Where("metadata.origin")
  }

  // ---------------------------------------------------------------------------
  // The examples of the class comment
  // ---------------------------------------------------------------------------

  /** `name()->like('Block*')`. */
  function BlockPrefixExample(): (f: FilterState)
    ensures f.currentProperty == Some("name")
    ensures ToString(f) == Call("name", "like", Quote("Block*"))
  {
    OneString("name", LikeOp, "Block*");
    Like(Name(), "Block*").value
  }

  /** `sourceZoneId()->equals('zone-uuid-here')`. */
  function SourceZoneExample(): (f: FilterState)
    ensures f.currentProperty == Some("source.zoneId")
    ensures ToString(f) == Call("source.zoneId", "eq", Quote("zone-uuid-here"))
  {
    OneString("source.zoneId", EqOp, "zone-uuid-here");
    Equals(SourceZoneId(), StrValue("zone-uuid-here")).value
  }

  /** `sourceZoneId()->equals('zone-1')`. */
  function SourceZone1(): (f: FilterState)
    ensures f.currentProperty == Some("source.zoneId")
    ensures ToString(f) == Call("source.zoneId", "eq", Quote("zone-1"))
  {
    OneString("source.zoneId", EqOp, "zone-1");
    Equals(SourceZoneId(), StrValue("zone-1")).value
  }

  /** `destinationZoneId()->equals('zone-2')`. */
  function DestinationZone2(): (f: FilterState)
    ensures f.currentProperty == Some("destination.zoneId")
    ensures ToString(f) == Call("destination.zoneId", "eq", Quote("zone-2"))
  {
    OneString("destination.zoneId", EqOp, "zone-2");
    Equals(DestinationZoneId(), StrValue("zone-2")).value
  }

  /** Policies from zone-1 to zone-2. */
  function ZonePairExample(): (f: FilterState)
    ensures f.currentProperty == None
    ensures ToString(f) == "and(" + Call("source.zoneId", "eq", Quote("zone-1")) + ", " + Call("destination.zoneId", "eq", Quote("zone-2")) + ")"
  {
    var a, b := SourceZone1(), DestinationZone2();
    AndOfTwo(a, b, Call("source.zoneId", "eq", Quote("zone-1")), Call("destination.zoneId", "eq", Quote("zone-2")));
    And([a, b])
  }
}
