/** UnifiClient.php: the entry point. It owns a connector and a site id that
    `setSiteId` changes in place; each factory builds a fresh resource that
    copies the connector and, except for the application info, the site id the
    client holds at that moment. */
module Client {
  import opened Wrappers
  import opened Connector
  import opened Resources

  class UnifiClient {
    const connector: UnifiConnector
    var siteId: Option<string>

    /** `new UnifiClient($baseUrl, $apiKey, $verifySsl = true)`: a connector on
        those arguments and no site id yet. */
    constructor(baseUrl: string, apiKey: string, verifySsl: bool := true)
      ensures connector == UnifiConnector(baseUrl, apiKey, verifySsl)
      ensures siteId == None
    {
      connector := UnifiConnector(baseUrl, apiKey, verifySsl);
      siteId := None;
    }

    /** `UnifiConnector::VERSION`. */
    function GetVersion(): (v: string)
      ensures v == "1.0.0"
    {
      Version
    }

    function GetConnector(): UnifiConnector
    {
      connector
    }

    function GetSiteId(): Option<string>
      reads this
    {
      siteId
    }

    /** Sets the site id for the resources created from now on, and returns the
        client itself for chaining. */
    method SetSiteId(s: string) returns (self: UnifiClient)
      modifies this
      ensures siteId == Some(s)
      ensures self == this
    {
      siteId := Some(s);
      self := this;
    }

    /** A resource carries the client's connector and its current site id. */
    predicate Carries(r: BaseResource)
      reads this
    {
      r.connector == connector && r.siteId == siteId
    }

    function Scoped(kind: ResourceKind): (r: BaseResource)
      reads this
      ensures r.kind == kind && Carries(r)
    {
      BaseResource(kind, connector, siteId)
    }

    /** The application info needs no site: it gets the connector alone. */
    function ApplicationInfo(): (r: BaseResource)
      ensures r.kind == ResourceKind.ApplicationInfo && r.connector == connector && r.siteId == None
    {
      BaseResource(ResourceKind.ApplicationInfo, connector)
    }

    function Sites(): (r: BaseResource)
      reads this
      ensures r.kind == ResourceKind.Sites && Carries(r)
    {
      Scoped(ResourceKind.Sites)
    }

    function Devices(): (r: BaseResource)
      reads this
      ensures r.kind == ResourceKind.Devices && Carries(r)
    {
      Scoped(ResourceKind.Devices)
    }

    function Clients(): (r: BaseResource)
      reads this
      ensures r.kind == ResourceKind.Clients && Carries(r)
    {
      Scoped(ResourceKind.Clients)
    }

    function Networks(): (r: BaseResource)
      reads this
      ensures r.kind == ResourceKind.Networks && Carries(r)
    {
      Scoped(ResourceKind.Networks)
    }

    function WifiBroadcasts(): (r: BaseResource)
      reads this
      ensures r.kind == ResourceKind.WifiBroadcasts && Carries(r)
    {
      Scoped(ResourceKind.WifiBroadcasts)
    }

    function Hotspot(): (r: BaseResource)
      reads this
      ensures r.kind == ResourceKind.Hotspot && Carries(r)
    {
      Scoped(ResourceKind.Hotspot)
    }

    function Firewall(): (r: BaseResource)
      reads this
      ensures r.kind == ResourceKind.Firewall && Carries(r)
    {
      Scoped(ResourceKind.Firewall)
    }

    function AclRules(): (r: BaseResource)
      reads this
      ensures r.kind == ResourceKind.AclRules && Carries(r)
    {
      Scoped(ResourceKind.AclRules)
    }

    function TrafficMatchingLists(): (r: BaseResource)
      reads this
      ensures r.kind == ResourceKind.TrafficMatchingLists && Carries(r)
    {
      Scoped(ResourceKind.TrafficMatchingLists)
    }

    function DnsPolicies(): (r: BaseResource)
      reads this
      ensures r.kind == ResourceKind.DnsPolicies && Carries(r)
    {
      Scoped(ResourceKind.DnsPolicies)
    }

    function SupportingResources(): (r: BaseResource)
      reads this
      ensures r.kind == ResourceKind.SupportingResources && Carries(r)
    {
      Scoped(ResourceKind.SupportingResources)
    }

    /** Every factory, by kind. */
    function Resource(kind: ResourceKind): (r: BaseResource)
      reads this
      ensures r.kind == kind && r.connector == connector
      ensures r.siteId == if kind == ResourceKind.ApplicationInfo then None else siteId
    {
      match kind
      case ApplicationInfo => ApplicationInfo()
      case Sites => Sites()
      case Devices => Devices()
      case Clients => Clients()
      case Networks => Networks()
      case WifiBroadcasts => WifiBroadcasts()
      case Hotspot => Hotspot()
      case Firewall => Firewall()
      case AclRules => AclRules()
      case TrafficMatchingLists => TrafficMatchingLists()
      case DnsPolicies => DnsPolicies()
      case SupportingResources => SupportingResources()
    }
  }

  /** Before `setSiteId`, every site-scoped operation throws; after it, the
      client reports the site id and each resource created from it finds the id,
      also through the client `setSiteId` returned. The application info never
      has one. */
  method SiteIdPropagates(baseUrl: string, apiKey: string, s: string, kind: ResourceKind)
    returns (before: Result<string, RuntimeException>, after: Result<string, RuntimeException>, held: Option<string>, info: Option<string>)
    ensures before == Failure(RuntimeException(SiteIdRequiredMessage))
    ensures after == if kind == ResourceKind.ApplicationInfo then before else Success(s)
    ensures held == Some(s)
    ensures info == None
  {
    var client := new UnifiClient(baseUrl, apiKey);
    before := client.Resource(kind).RequireSiteId();
    var same := client.SetSiteId(s);
    after := same.Resource(kind).RequireSiteId();
    held := client.GetSiteId();
    info := client.ApplicationInfo().GetSiteId();
  }

  /** A resource keeps the site id it was created with: setting another one on the
      client later changes the resources created afterwards only. */
  method ResourcesAreSnapshots(baseUrl: string, apiKey: string, s1: string, s2: string)
    returns (early: Option<string>, late: Option<string>)
    ensures early == Some(s1) && late == Some(s2)
  {
    var client := new UnifiClient(baseUrl, apiKey);
    var _ := client.SetSiteId(s1);
    var devices := client.Devices();
    var _ := client.SetSiteId(s2);
    early := devices.GetSiteId();
    late := client.Devices().GetSiteId();
  }

  /** A client reports the library's version and the connector built from its
      constructor's arguments, whose base URL drops trailing slashes. */
  method ClientConnector(baseUrl: string, apiKey: string)
    returns (version: string, connector: UnifiConnector)
    ensures version == "1.0.0"
    ensures connector == UnifiConnector(baseUrl, apiKey, true)
    ensures connector.ResolveBaseUrl() == UnifiConnector(baseUrl + "/", apiKey).ResolveBaseUrl()
  {
    var client := new UnifiClient(baseUrl, apiKey);
    version := client.GetVersion();
    connector := client.GetConnector();
    TrailingSlashIrrelevant(baseUrl, apiKey);
  }
}
