/** Filters/TrafficMatchingLists/TrafficMatchingListFilter.php: filters over traffic
    matching lists. */
module TrafficMatchingListFilter {
  import opened Wrappers
  import opened FilterSyntax
  import opened FilterBuilder

  function Id(): (f: FilterState)
    ensures StartedOn(f, "id")
  {
    Where("id")
  }

  function Name(): (f: FilterState)
    ensures StartedOn(f, "name")
  {
    Where("name")
  }

  function Type(): (f: FilterState)
    ensures StartedOn(f, "type")
  {
    Where("type")
  }

  /** A bare accessor holds no condition yet, so it serialises to the empty string. */
  lemma BareAccessorsRenderEmpty()
    ensures Id().conditions == [] && ToString(Id()) == ""
    ensures Name().conditions == [] && ToString(Name()) == ""
    ensures Type().conditions == [] && ToString(Type()) == ""
  {
  }

  // ---------------------------------------------------------------------------
  // The examples of the class comment
  // ---------------------------------------------------------------------------

  /** `name()->like('Blocked*')`. */
  function BlockedPrefixExample(): (f: FilterState)
    ensures f.currentProperty == Some("name")
    ensures ToString(f) == Call("name", "like", Quote("Blocked*"))
  {
    OneString("name", LikeOp, "Blocked*");
    Like(Name(), "Blocked*").value
  }

  /** `type()->equals('IP_ADDRESS')`. */
  function IpAddressListsExample(): (f: FilterState)
    ensures f.currentProperty == Some("type")
    ensures ToString(f) == Call("type", "eq", Quote("IP_ADDRESS"))
  {
    OneString("type", EqOp, "IP_ADDRESS");
    Equals(Type(), StrValue("IP_ADDRESS")).value
  }
}
