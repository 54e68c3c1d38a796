/** Filters/SupportingResources/RadiusProfilesFilter.php: filters over RADIUS profiles. */
module RadiusProfilesFilter {
  import opened Wrappers
  import opened FilterSyntax
  import opened FilterBuilder

  function Id(): (f: FilterState)
    ensures StartedOn(f, "id")
  {
    Where("id")
  }

  function Name(): (f: FilterState)
    ensures StartedOn(f, "name")
  {
    Where("name")
  }

  /** The dotted property `metadata.origin`. */
  function MetadataOrigin(): (f: FilterState)
    ensures StartedOn(f, "metadata.origin")
  {
    Where("metadata.origin")
  }

  // ---------------------------------------------------------------------------
  // The examples of the class comment
  // ---------------------------------------------------------------------------

  /** `name()->equals('Corporate')`. */
  function CorporateExample(): (f: FilterState)
    ensures f.currentProperty == Some("name")
    ensures ToString(f) == Call("name", "eq", Quote("Corporate"))
  {
    OneString("name", EqOp, "Corporate");
    Equals(Name(), StrValue("Corporate")).value
  }

  /** `name()->like('Guest*')`. */
  function GuestPrefixExample(): (f: FilterState)
    ensures f.currentProperty == Some("name")
    ensures ToString(f) == Call("name", "like", Quote("Guest*"))
  {
    OneString("name", LikeOp, "Guest*");
    Like(Name(), "Guest*").value
  }
}
