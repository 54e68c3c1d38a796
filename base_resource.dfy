/** Resources/BaseResource.php: what every resource façade inherits, namely the
    connector, the optional site id it was created with, and the guard the
    site-scoped operations run before sending a request. */
module Resources {
  import opened Wrappers
  import opened Connector

  /** The resource façades the client hands out, one per factory of UnifiClient. */
  datatype ResourceKind =
    | ApplicationInfo | Sites | Devices | Clients | Networks | WifiBroadcasts
    | Hotspot | Firewall | AclRules | TrafficMatchingLists | DnsPolicies | SupportingResources

  /** PHP's `\RuntimeException`, carrying its message. */
  datatype RuntimeException = RuntimeException(message: string)

  /** The message `requireSiteId` throws with. */
  const SiteIdRequiredMessage: string :=
    "Site ID is required for this operation. "
    + "Please call setSiteId() on the client before using this endpoint."

  /** A resource: its kind, the connector and `?string $siteId = null`. The
      fields are set once, by the constructor. */
  datatype BaseResource = BaseResource(kind: ResourceKind, connector: UnifiConnector, siteId: Option<string> := None)
  {
    function GetConnector(): UnifiConnector
    {
      connector
    }

    function GetSiteId(): Option<string>
    {
      siteId
    }

    /** Throws when no site id was given, and returns it unchanged otherwise. */
    function RequireSiteId(): (r: Result<string, RuntimeException>)
      ensures r.Failure? <==> siteId.None?
      ensures r.Failure? ==> r.error == RuntimeException(SiteIdRequiredMessage)
      ensures r.Success? ==> Some(r.value) == siteId
    {
      if siteId.None? then Failure(RuntimeException(SiteIdRequiredMessage)) else Success(siteId.value)
    }
  }

  /** The accessors give back what the resource was built with, and a resource
      built without a site id has none. */
  lemma AccessorsGiveConstruction(kind: ResourceKind, c: UnifiConnector, s: Option<string>)
    ensures BaseResource(kind, c, s).GetConnector() == c
    ensures BaseResource(kind, c, s).GetSiteId() == s
    ensures BaseResource(kind, c).GetSiteId() == None
    ensures BaseResource(kind, c).RequireSiteId().Failure?
  {
  }
}
