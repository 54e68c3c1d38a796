/** Filters/SupportingResources/SiteToSiteVpnTunnelsFilter.php: filters over site-to-site
    VPN tunnels. */
module SiteToSiteVpnTunnelsFilter {
  import opened Wrappers
  import opened FilterSyntax
  import opened FilterBuilder

  function Type(): (f: FilterState)
    ensures StartedOn(f, "type")
  {
    Where("type")
  }

  function Id(): (f: FilterState)
    ensures StartedOn(f, "id")
  {
    Where("id")
  }

  function Name(): (f: FilterState)
    ensures StartedOn(f, "name")
  {
    Where("name")
  }

  /** The dotted property `metadata.origin`. */
  function MetadataOrigin(): (f: FilterState)
    ensures StartedOn(f, "metadata.origin")
  {
    Where("metadata.origin")
  }

  /** The dotted property `metadata.source`. */
  function MetadataSource(): (f: FilterState)
    ensures StartedOn(f, "metadata.source")
  {
    Where("metadata.source")
  }

  // ---------------------------------------------------------------------------
  // The examples of the class comment
  // ---------------------------------------------------------------------------

  /** `name()->equals('Office-to-AWS')`. */
  function OfficeExample(): (f: FilterState)
    ensures f.currentProperty == Some("name")
    ensures ToString(f) == Call("name", "eq", Quote("Office-to-AWS"))
  {
    OneString("name", EqOp, "Office-to-AWS");
    Equals(Name(), StrValue("Office-to-AWS")).value
  }

  /** `type()->equals('L2TP')`. */
  function L2tpExample(): (f: FilterState)
    ensures f.currentProperty == Some("type")
    ensures ToString(f) == Call("type", "eq", Quote("L2TP"))
  {
    OneString("type", EqOp, "L2TP");
    Equals(Type(), StrValue("L2TP")).value
  }

  /** `metadataSource()->isNotNull()`. */
  function WithSourceExample(): (f: FilterState)
    ensures f.currentProperty == Some("metadata.source")
    ensures ToString(f) == Call("metadata.source", "isNotNull", "")
  {
    NoValueCall("metadata.source", IsNotNullOp);
    IsNotNull(MetadataSource()).value
  }
}
