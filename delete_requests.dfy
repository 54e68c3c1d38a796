/** The delete requests that take a `force` flag:
    Requests/TrafficMatchingLists/DeleteTrafficMatchingListRequest.php,
    Requests/WifiBroadcasts/DeleteWifiBroadcastRequest.php,
    Requests/Firewall/DeleteFirewallZoneRequest.php,
    Requests/Networks/DeleteNetworkRequest.php and
    Requests/AclRules/DeleteAclRuleRequest.php.
    Each names one item of a site; `force` defaults to false and, when set, adds
    `force=true` to the query string. */
module DeleteRequests {
  import opened Wrappers
  import opened PhpArrays
  import opened ListRequests

  /** What the delete requests' `defaultQuery` promises: at most one entry, every
      key `force`, and `force` present, holding the string `'true'`, exactly when
      forcing. */
  predicate IsForceQuery(q: Query, force: bool)
  {
    && |q| <= 1
    && (forall i :: 0 <= i < |q| ==> q[i].key == "force")
    && Lookup(q, "force") == (if force then Some(StrParam("true")) else None)
  }

  /** The promise fixes the query: `['force' => 'true']` when forcing, `[]` otherwise. */
  lemma ForceQueryShape(q: Query, force: bool)
    requires IsForceQuery(q, force)
    ensures force ==> q == [Entry("force", StrParam("true"))]
    ensures !force ==> q == []
  {
    if |q| == 1 {
      assert Keys(q) == ["force"];
      assert q == [q[0]];
    }
  }

  datatype DeleteTrafficMatchingListRequest = DeleteTrafficMatchingListRequest(
    siteId: string, listId: string, force: bool := false)
  {
    /** The site's path, then the item id after a slash. */
    function ResolveEndpoint(): (path: string)
      ensures '/' !in siteId ==> SiteOf(path) == Some(siteId)
      ensures |path| > |listId| && path[|path| - |listId| - 1..] == "/" + listId
    {
      ItemPathParts(siteId, "/traffic-matching-lists/", listId);
      "/v1/sites/" + siteId + "/traffic-matching-lists/" + listId
    }

    function DefaultQuery(): (q: Query)
      ensures IsForceQuery(q, force)
    {
      if force then [Entry("force", StrParam("true"))] else []
    }
  }

  datatype DeleteWifiBroadcastRequest = DeleteWifiBroadcastRequest(
    siteId: string, wifiBroadcastId: string, force: bool := false)
  {
    /** The site's path, then the item id after a slash. */
    function ResolveEndpoint(): (path: string)
      ensures '/' !in siteId ==> SiteOf(path) == Some(siteId)
      ensures |path| > |wifiBroadcastId| && path[|path| - |wifiBroadcastId| - 1..] == "/" + wifiBroadcastId
    {
      ItemPathParts(siteId, "/wifi/broadcasts/", wifiBroadcastId);
      "/v1/sites/" + siteId + "/wifi/broadcasts/" + wifiBroadcastId
    }

    function DefaultQuery(): (q: Query)
      ensures IsForceQuery(q, force)
    {
      if force then [Entry("force", StrParam("true"))] else []
    }
  }

  datatype DeleteFirewallZoneRequest = DeleteFirewallZoneRequest(
    siteId: string, zoneId: string, force: bool := false)
  {
    /** The site's path, then the item id after a slash. */
    function ResolveEndpoint(): (path: string)
      ensures '/' !in siteId ==> SiteOf(path) == Some(siteId)
      ensures |path| > |zoneId| && path[|path| - |zoneId| - 1..] == "/" + zoneId
    {
      ItemPathParts(siteId, "/firewall/zones/", zoneId);
      "/v1/sites/" + siteId + "/firewall/zones/" + zoneId
    }

    function DefaultQuery(): (q: Query)
      ensures IsForceQuery(q, force)
    {
      if force then [Entry("force", StrParam("true"))] else []
    }
  }

  datatype DeleteNetworkRequest = DeleteNetworkRequest(
    siteId: string, networkId: string, force: bool := false)
  {
    /** The site's path, then the item id after a slash. */
    function ResolveEndpoint(): (path: string)
      ensures '/' !in siteId ==> SiteOf(path) == Some(siteId)
      ensures |path| > |networkId| && path[|path| - |networkId| - 1..] == "/" + networkId
    {
      ItemPathParts(siteId, "/networks/", networkId);
      "/v1/sites/" + siteId + "/networks/" + networkId
    }

    function DefaultQuery(): (q: Query)
      ensures IsForceQuery(q, force)
    {
      if force then [Entry("force", StrParam("true"))] else []
    }
  }

  datatype DeleteAclRuleRequest = DeleteAclRuleRequest(
    siteId: string, ruleId: string, force: bool := false)
  {
    /** The site's path, then the item id after a slash. */
    function ResolveEndpoint(): (path: string)
      ensures '/' !in siteId ==> SiteOf(path) == Some(siteId)
      ensures |path| > |ruleId| && path[|path| - |ruleId| - 1..] == "/" + ruleId
    {
      ItemPathParts(siteId, "/acl-rules/", ruleId);
      "/v1/sites/" + siteId + "/acl-rules/" + ruleId
    }

    function DefaultQuery(): (q: Query)
      ensures IsForceQuery(q, force)
    {
      if force then [Entry("force", StrParam("true"))] else []
    }
  }

  // ---------------------------------------------------------------------------
  // Endpoints
  // ---------------------------------------------------------------------------

  /** An item path names its site and ends with a slash and the item id. */
  lemma ItemPathParts(site: string, middle: string, item: string)
    requires |middle| > 0 && middle[0] == '/' && middle[|middle| - 1] == '/'
    ensures '/' !in site ==> SiteOf("/v1/sites/" + site + middle + item) == Some(site)
    ensures var path := "/v1/sites/" + site + middle + item;
      |path| > |item| && path[|path| - |item| - 1..] == "/" + item
  {
    var path := "/v1/sites/" + site + middle + item;
    assert path == "/v1/sites/" + site + (middle + item);
    SiteOfPath(site, middle + item);
    assert path[|path| - |item| - 1..] == [middle[|middle| - 1]] + item;
  }

  /** `"/v1/sites/{$site}{$middle}{$item}"` with a middle part that starts with a
      slash gives back both ids, as long as the site id holds no slash. */
  lemma ItemPathInjective(site1: string, item1: string, site2: string, item2: string, middle: string)
    requires '/' !in site1 && '/' !in site2
    requires |middle| > 0 && middle[0] == '/'
    requires "/v1/sites/" + site1 + middle + item1 == "/v1/sites/" + site2 + middle + item2
    ensures site1 == site2 && item1 == item2
  {
    var p := "/v1/sites/";
    var t1, t2 := site1 + middle + item1, site2 + middle + item2;
    assert t1 == (p + site1 + middle + item1)[|p|..];
    assert t2 == (p + site2 + middle + item2)[|p|..];
    FirstSlashAfter(site1, middle + item1);
    FirstSlashAfter(site2, middle + item2);
    assert t1 == site1 + (middle + item1) && t2 == site2 + (middle + item2);
    assert |site1| == |site2|;
    assert site1 == t1[..|site1|] && site2 == t2[..|site2|];
    assert item1 == t1[|site1| + |middle|..] && item2 == t2[|site2| + |middle|..];
  }

  /** Two delete requests of one kind hit the same endpoint only when they name
      the same site and the same item. */
  lemma DeleteTrafficMatchingListEndpoint(r: DeleteTrafficMatchingListRequest, s: DeleteTrafficMatchingListRequest)
    requires '/' !in r.siteId && '/' !in s.siteId
    ensures r.ResolveEndpoint() == s.ResolveEndpoint() <==> r.siteId == s.siteId && r.listId == s.listId
  {
    if r.ResolveEndpoint() == s.ResolveEndpoint() {
      ItemPathInjective(r.siteId, r.listId, s.siteId, s.listId, "/traffic-matching-lists/");
    }
  }

  lemma DeleteWifiBroadcastEndpoint(r: DeleteWifiBroadcastRequest, s: DeleteWifiBroadcastRequest)
    requires '/' !in r.siteId && '/' !in s.siteId
    ensures r.ResolveEndpoint() == s.ResolveEndpoint() <==> r.siteId == s.siteId && r.wifiBroadcastId == s.wifiBroadcastId
  {
    if r.ResolveEndpoint() == s.ResolveEndpoint() {
      ItemPathInjective(r.siteId, r.wifiBroadcastId, s.siteId, s.wifiBroadcastId, "/wifi/broadcasts/");
    }
  }

  lemma DeleteFirewallZoneEndpoint(r: DeleteFirewallZoneRequest, s: DeleteFirewallZoneRequest)
    requires '/' !in r.siteId && '/' !in s.siteId
    ensures r.ResolveEndpoint() == s.ResolveEndpoint() <==> r.siteId == s.siteId && r.zoneId == s.zoneId
  {
    if r.ResolveEndpoint() == s.ResolveEndpoint() {
      ItemPathInjective(r.siteId, r.zoneId, s.siteId, s.zoneId, "/firewall/zones/");
    }
  }

  lemma DeleteNetworkEndpoint(r: DeleteNetworkRequest, s: DeleteNetworkRequest)
    requires '/' !in r.siteId && '/' !in s.siteId
    ensures r.ResolveEndpoint() == s.ResolveEndpoint() <==> r.siteId == s.siteId && r.networkId == s.networkId
  {
    if r.ResolveEndpoint() == s.ResolveEndpoint() {
      ItemPathInjective(r.siteId, r.networkId, s.siteId, s.networkId, "/networks/");
    }
  }

  lemma DeleteAclRuleEndpoint(r: DeleteAclRuleRequest, s: DeleteAclRuleRequest)
    requires '/' !in r.siteId && '/' !in s.siteId
    ensures r.ResolveEndpoint() == s.ResolveEndpoint() <==> r.siteId == s.siteId && r.ruleId == s.ruleId
  {
    if r.ResolveEndpoint() == s.ResolveEndpoint() {
      ItemPathInjective(r.siteId, r.ruleId, s.siteId, s.ruleId, "/acl-rules/");
    }
  }

  /** A WiFi broadcast and a firewall zone are deleted at the path of their
      site's list, followed by a slash and the item id. */
  lemma ItemsUnderTheirList(siteId: string, id: string)
    ensures DeleteWifiBroadcastRequest(siteId, id).ResolveEndpoint()
         == GetWifiBroadcastsRequest(siteId).ResolveEndpoint() + "/" + id
    ensures DeleteFirewallZoneRequest(siteId, id).ResolveEndpoint()
         == GetFirewallZonesRequest(siteId).ResolveEndpoint() + "/" + id
  {
    assert "/wifi/broadcasts/" == "/wifi/broadcasts" + "/";
    assert "/firewall/zones/" == "/firewall/zones" + "/";
  }

  /** The flag is not part of the path: forcing changes only the query. */
  lemma ForceOnlyInQuery(siteId: string, id: string)
    ensures DeleteNetworkRequest(siteId, id, true).ResolveEndpoint() == DeleteNetworkRequest(siteId, id).ResolveEndpoint()
    ensures DeleteNetworkRequest(siteId, id, true).DefaultQuery() != DeleteNetworkRequest(siteId, id).DefaultQuery()
  {
  }

  /** When the flag is not given, `force` is false and the query is empty. */
  lemma DefaultsDoNotForce(siteId: string, id: string)
    ensures !DeleteTrafficMatchingListRequest(siteId, id).force && DeleteTrafficMatchingListRequest(siteId, id).DefaultQuery() == []
    ensures !DeleteWifiBroadcastRequest(siteId, id).force && DeleteWifiBroadcastRequest(siteId, id).DefaultQuery() == []
    ensures !DeleteFirewallZoneRequest(siteId, id).force && DeleteFirewallZoneRequest(siteId, id).DefaultQuery() == []
    ensures !DeleteNetworkRequest(siteId, id).force && DeleteNetworkRequest(siteId, id).DefaultQuery() == []
    ensures !DeleteAclRuleRequest(siteId, id).force && DeleteAclRuleRequest(siteId, id).DefaultQuery() == []
  {
  }
}
