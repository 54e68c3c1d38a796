/** The paginated list requests whose query string the library builds itself:
    Requests/WifiBroadcasts/GetWifiBroadcastsRequest.php,
    Requests/Firewall/GetFirewallZonesRequest.php,
    Requests/SupportingResources/GetCountriesRequest.php,
    Requests/Sites/GetSitesRequest.php and
    Requests/SupportingResources/GetWanInterfacesRequest.php.
    Each is an immutable value built from its constructor arguments; its endpoint
    is an interpolated path and its `defaultQuery` fills a PHP array key by key. */
module ListRequests {
  import opened Wrappers
  import opened PhpArrays
  import FilterSyntax

  /** A query-string value: the integers `offset`/`limit`, or a string. */
  datatype QueryValue = IntParam(i: int) | StrParam(s: string)

  type Query = seq<Entry<QueryValue>>

  /** `string|Filter`: a filter given as text, or as a builder. */
  datatype FilterArg = Text(text: string) | Built(filter: FilterSyntax.FilterState)

  /** `$filter instanceof Filter ? $filter->toString() : $filter`. */
  function FilterText(a: FilterArg): (s: string)
    ensures a.Text? ==> s == a.text
    ensures a.Built? ==> s == FilterSyntax.ToString(a.filter)
  {
    match a
    case Text(t) => t
    case Built(f) => FilterSyntax.ToString(f)
  }

  function OptionalFilterText(a: Option<FilterArg>): (r: Option<string>)
    ensures r.Some? <==> a.Some?
    ensures a.Some? ==> r.value == FilterText(a.value)
  {
    match a
    case None => None
    case Some(f) => Some(FilterText(f))
  }

  function IntParamOf(o: Option<int>): Option<QueryValue>
  {
    match o
    case None => None
    case Some(i) => Some(IntParam(i))
  }

  function StrParamOf(o: Option<string>): Option<QueryValue>
  {
    match o
    case None => None
    case Some(s) => Some(StrParam(s))
  }

  /** The position of a key in the order `defaultQuery` writes them. */
  function KeyRank(k: string): nat
  {
    if k == "offset" then 0 else if k == "limit" then 1 else 2
  }

  predicate IsListKey(k: string)
  {
    k == "offset" || k == "limit" || k == "filter"
  }

  /** What the list requests' `defaultQuery` promises: `offset`, `limit` and
      `filter` each present exactly when given, holding the value given, in that
      order, and no other key. */
  predicate IsListQuery(q: Query, offset: Option<int>, limit: Option<int>, filter: Option<string>)
  {
    && Lookup(q, "offset") == IntParamOf(offset)
    && Lookup(q, "limit") == IntParamOf(limit)
    && Lookup(q, "filter") == StrParamOf(filter)
    && (forall i :: 0 <= i < |q| ==> IsListKey(q[i].key))
    && (forall i, j :: 0 <= i < j < |q| ==> KeyRank(q[i].key) < KeyRank(q[j].key))
  }

  /** The one query the promise allows. */
  function CanonicalListQuery(offset: Option<int>, limit: Option<int>, filter: Option<string>): Query
  {
    OffsetPart(offset) + LimitPart(limit) + FilterPart(filter)
  }

  function OffsetPart(offset: Option<int>): Query
  {
    if offset.Some? then [Entry("offset", IntParam(offset.value))] else []
  }

  function LimitPart(limit: Option<int>): Query
  {
    if limit.Some? then [Entry("limit", IntParam(limit.value))] else []
  }

  function FilterPart(filter: Option<string>): Query
  {
    if filter.Some? then [Entry("filter", StrParam(filter.value))] else []
  }

  /** The body shared by the list requests' `defaultQuery`: start from `[]` and set
      each key whose argument is not null. */
  method ListQuery(offset: Option<int>, limit: Option<int>, filter: Option<string>) returns (query: Query)
    ensures query == CanonicalListQuery(offset, limit, filter)
    ensures IsListQuery(query, offset, limit, filter)
  {
    query := [];
    if offset.Some? {
      query := Put(query, "offset", IntParam(offset.value));
    }
    assert query == OffsetPart(offset);
    if limit.Some? {
      assert "limit" !in Keys(query);
      PutNew(query, "limit", IntParam(limit.value));
      query := Put(query, "limit", IntParam(limit.value));
    }
    assert query == OffsetPart(offset) + LimitPart(limit);
    if filter.Some? {
      assert "filter" !in Keys(query);
      PutNew(query, "filter", StrParam(filter.value));
      query := Put(query, "filter", StrParam(filter.value));
    }
    CanonicalMeetsPromise(offset, limit, filter);
  }

  /** The reference query keeps the promise ... */
  lemma CanonicalMeetsPromise(offset: Option<int>, limit: Option<int>, filter: Option<string>)
    ensures IsListQuery(CanonicalListQuery(offset, limit, filter), offset, limit, filter)
  {
    CanonicalRanked(offset, limit, filter);
    CanonicalLookups(offset, limit, filter);
  }

  lemma CanonicalRanked(offset: Option<int>, limit: Option<int>, filter: Option<string>)
    ensures Ranked(CanonicalListQuery(offset, limit, filter))
  {
    var o, l, f := OffsetPart(offset), LimitPart(limit), FilterPart(filter);
    RankedAppend(o, l);
    RankedAppend(o + l, f);
  }

  lemma CanonicalLookups(offset: Option<int>, limit: Option<int>, filter: Option<string>)
    ensures var q := CanonicalListQuery(offset, limit, filter);
      && Lookup(q, "offset") == IntParamOf(offset)
      && Lookup(q, "limit") == IntParamOf(limit)
      && Lookup(q, "filter") == StrParamOf(filter)
  {
    assert "limit"[0] != "offset"[0] && "filter"[0] != "offset"[0] && "filter"[0] != "limit"[0];
    CanonicalLookup(offset, limit, filter, "offset");
    CanonicalLookup(offset, limit, filter, "limit");
    CanonicalLookup(offset, limit, filter, "filter");
  }

  /** A key is looked up in the first part that holds it. */
  lemma CanonicalLookup(offset: Option<int>, limit: Option<int>, filter: Option<string>, k: string)
    ensures var o, l, f := OffsetPart(offset), LimitPart(limit), FilterPart(filter);
      Lookup(CanonicalListQuery(offset, limit, filter), k)
      == if k in Keys(o) then Lookup(o, k) else if k in Keys(l) then Lookup(l, k) else Lookup(f, k)
  {
    var o, l, f := OffsetPart(offset), LimitPart(limit), FilterPart(filter);
    LookupAppend(o, l + f, k);
    LookupAppend(l, f, k);
    assert o + l + f == o + (l + f);
  }

  /** Two ranked queries, every rank of the first below every rank of the second,
      join into a ranked query. */
  lemma RankedAppend(a: Query, b: Query)
    requires Ranked(a) && Ranked(b)
    requires forall i, j :: 0 <= i < |a| && 0 <= j < |b| ==> KeyRank(a[i].key) < KeyRank(b[j].key)
    ensures Ranked(a + b)
  {
    var q := a + b;
    forall i, j | 0 <= i < j < |q|
      ensures KeyRank(q[i].key) < KeyRank(q[j].key)
    {
      if j < |a| {
        assert q[i] == a[i] && q[j] == a[j];
      } else if i >= |a| {
        assert q[i] == b[i - |a|] && q[j] == b[j - |a|];
      } else {
        assert q[i] == a[i] && q[j] == b[j - |a|];
      }
    }
  }

  /** ... and is the only query that does: the promise fixes keys, values and order. */
  lemma ListQueryShape(q: Query, offset: Option<int>, limit: Option<int>, filter: Option<string>)
    requires IsListQuery(q, offset, limit, filter)
    ensures q == CanonicalListQuery(offset, limit, filter)
  {
    EntriesAsPromised(q, offset, limit, filter);
    if |q| <= 1 {
      ShortShape(q, offset, limit, filter);
    } else if |q| == 2 {
      PairShape(q, offset, limit, filter);
    } else {
      RankAtLeastIndex(q, |q| - 1);
      TripleShape(q, offset, limit, filter);
    }
  }

  /** Every entry of a promised query under key `k` holds `found`, and `k`
      occurs when `found` is a value. */
  predicate KeyMatches(q: Query, k: string, found: Option<QueryValue>)
  {
    && (forall i :: 0 <= i < |q| && q[i].key == k ==> found == Some(q[i].value))
    && (found.Some? ==> k in Keys(q))
  }

  predicate Ranked(q: Query)
  {
    && (forall i :: 0 <= i < |q| ==> IsListKey(q[i].key))
    && (forall a, b :: 0 <= a < b < |q| ==> KeyRank(q[a].key) < KeyRank(q[b].key))
  }

  /** The promise, entry by entry. */
  predicate EntriesMatch(q: Query, offset: Option<int>, limit: Option<int>, filter: Option<string>)
  {
    && Ranked(q)
    && KeyMatches(q, "offset", IntParamOf(offset))
    && KeyMatches(q, "limit", IntParamOf(limit))
    && KeyMatches(q, "filter", StrParamOf(filter))
  }

  lemma EntriesAsPromised(q: Query, offset: Option<int>, limit: Option<int>, filter: Option<string>)
    requires IsListQuery(q, offset, limit, filter)
    ensures EntriesMatch(q, offset, limit, filter)
  {
    KeyEntries(q, "offset", IntParamOf(offset));
    KeyEntries(q, "limit", IntParamOf(limit));
    KeyEntries(q, "filter", StrParamOf(filter));
  }

  /** In a ranked query, an entry under key `k` holds what looking `k` up gives. */
  lemma KeyEntries(q: Query, k: string, found: Option<QueryValue>)
    requires Lookup(q, k) == found
    requires forall a, b :: 0 <= a < b < |q| ==> KeyRank(q[a].key) < KeyRank(q[b].key)
    ensures KeyMatches(q, k, found)
  {
    forall i | 0 <= i < |q| && q[i].key == k
      ensures found == Some(q[i].value)
    {
      LookupAt(q, i);
    }
  }

  lemma ShortShape(q: Query, offset: Option<int>, limit: Option<int>, filter: Option<string>)
    requires EntriesMatch(q, offset, limit, filter) && |q| <= 1
    ensures q == CanonicalListQuery(offset, limit, filter)
  {
    if |q| == 1 {
      assert q == [q[0]];
    }
  }

  lemma PairShape(q: Query, offset: Option<int>, limit: Option<int>, filter: Option<string>)
    requires EntriesMatch(q, offset, limit, filter) && |q| == 2
    ensures q == CanonicalListQuery(offset, limit, filter)
  {
    assert q == [q[0], q[1]];
    assert KeyRank(q[0].key) < KeyRank(q[1].key);
  }

  lemma TripleShape(q: Query, offset: Option<int>, limit: Option<int>, filter: Option<string>)
    requires EntriesMatch(q, offset, limit, filter) && |q| == 3
    ensures q == CanonicalListQuery(offset, limit, filter)
  {
    assert q == [q[0], q[1], q[2]];
    assert KeyRank(q[0].key) < KeyRank(q[1].key) < KeyRank(q[2].key);
  }

  /** With every argument null the query is empty. */
  lemma EmptyListQuery(q: Query)
    requires IsListQuery(q, None, None, None)
    ensures q == []
  {
    ListQueryShape(q, None, None, None);
  }

  /** Ranks strictly increase, so the entry at index `i` has rank at least `i`. */
  lemma {:induction false} RankAtLeastIndex(q: Query, i: nat)
    requires i < |q|
    requires forall a, b :: 0 <= a < b < |q| ==> KeyRank(q[a].key) < KeyRank(q[b].key)
    ensures KeyRank(q[i].key) >= i
  {
    if i > 0 {
      RankAtLeastIndex(q, i - 1);
    }
  }

  /** With keys in strictly increasing rank, looking up a key finds its entry. */
  lemma {:induction false} LookupAt(q: Query, i: nat)
    requires i < |q|
    requires forall a, b :: 0 <= a < b < |q| ==> KeyRank(q[a].key) < KeyRank(q[b].key)
    ensures Lookup(q, q[i].key) == Some(q[i].value)
  {
    if i > 0 {
      assert q[0].key != q[i].key by {
        assert KeyRank(q[0].key) < KeyRank(q[i].key);
      }
      var rest := q[1..];
      LookupAt(rest, i - 1);
    }
  }

  // ---------------------------------------------------------------------------
  // The five requests
  // ---------------------------------------------------------------------------

  datatype GetWifiBroadcastsRequest = GetWifiBroadcastsRequest(
    siteId: string, offset: Option<int> := None, limit: Option<int> := None, filter: Option<FilterArg> := None)
  {
    /** The site's path: the site id can be read back from it. */
    function ResolveEndpoint(): (path: string)
      ensures '/' !in siteId ==> SiteOf(path) == Some(siteId)
    {
      SiteOfPath(siteId, "/wifi/broadcasts");
      "/v1/sites/" + siteId + "/wifi/broadcasts"
    }

    method DefaultQuery() returns (query: Query)
      ensures IsListQuery(query, offset, limit, OptionalFilterText(filter))
    {
      query := ListQuery(offset, limit, OptionalFilterText(filter));
    }
  }

  datatype GetFirewallZonesRequest = GetFirewallZonesRequest(
    siteId: string, offset: Option<int> := None, limit: Option<int> := None, filter: Option<FilterArg> := None)
  {
    /** The site's path: the site id can be read back from it. */
    function ResolveEndpoint(): (path: string)
      ensures '/' !in siteId ==> SiteOf(path) == Some(siteId)
    {
      SiteOfPath(siteId, "/firewall/zones");
      "/v1/sites/" + siteId + "/firewall/zones"
    }

    method DefaultQuery() returns (query: Query)
      ensures IsListQuery(query, offset, limit, OptionalFilterText(filter))
    {
      query := ListQuery(offset, limit, OptionalFilterText(filter));
    }
  }

  /** Countries are not per site: the endpoint is a constant. */
  datatype GetCountriesRequest = GetCountriesRequest(
    offset: Option<int> := None, limit: Option<int> := None, filter: Option<FilterArg> := None)
  {
    /** A path outside any site. */
    function ResolveEndpoint(): (path: string)
      ensures SiteOf(path) == None
    {
      assert "/v1/sites/"[4] != "/v1/countries"[4];
      "/v1/countries"
    }

    method DefaultQuery() returns (query: Query)
      ensures IsListQuery(query, offset, limit, OptionalFilterText(filter))
    {
      query := ListQuery(offset, limit, OptionalFilterText(filter));
    }
  }

  /** The site list takes its filter as a plain string only. */
  datatype GetSitesRequest = GetSitesRequest(
    offset: Option<int> := None, limit: Option<int> := None, filter: Option<string> := None)
  {
    /** A path outside any site. */
    function ResolveEndpoint(): (path: string)
      ensures SiteOf(path) == None
    {
      "/v1/sites"
    }

    method DefaultQuery() returns (query: Query)
      ensures IsListQuery(query, offset, limit, filter)
    {
      query := ListQuery(offset, limit, filter);
    }
  }

  /** The WAN interface list has no filter at all. */
  datatype GetWanInterfacesRequest = GetWanInterfacesRequest(
    siteId: string, offset: Option<int> := None, limit: Option<int> := None)
  {
    /** The site's path: the site id can be read back from it. */
    function ResolveEndpoint(): (path: string)
      ensures '/' !in siteId ==> SiteOf(path) == Some(siteId)
    {
      SiteOfPath(siteId, "/wans");
      "/v1/sites/" + siteId + "/wans"
    }

    method DefaultQuery() returns (query: Query)
      ensures IsListQuery(query, offset, limit, None)
      ensures "filter" !in Keys(query)
    {
      query := ListQuery(offset, limit, None);
    }
  }

  // ---------------------------------------------------------------------------
  // Endpoints
  // ---------------------------------------------------------------------------

  /** The index of the first slash in `s`, or `|s|` when there is none. */
  function FirstSlash(s: string): (n: nat)
    ensures n <= |s|
  {
    if |s| == 0 || s[0] == '/' then 0
    else
      var rest := s[1..];
      1 + FirstSlash(rest)
  }

  /** A slash-free id followed by a slash: the first slash is where the id ends. */
  lemma {:induction false} FirstSlashAfter(a: string, r: string)
    requires '/' !in a && |r| > 0 && r[0] == '/'
    ensures FirstSlash(a + r) == |a|
  {
    if |a| > 0 {
      assert (a + r)[0] == a[0];
      assert (a + r)[1..] == a[1..] + r;
      FirstSlashAfter(a[1..], r);
    }
  }

  /** The site a path is scoped to: what follows `/v1/sites/` up to the next
      slash, or nothing for a path outside `/v1/sites/`. */
  function SiteOf(path: string): (r: Option<string>)
    ensures r.Some? ==> "/v1/sites/" + r.value <= path
  {
    var p := "/v1/sites/";
    if p <= path then
      var t := path[|p|..];
      assert path == p + t;
      Some(t[..FirstSlash(t)])
    else None
  }

  /** A site id without a slash, followed by a path that starts with one, is read
      back from `/v1/sites/{$siteId}...`. */
  lemma SiteOfPath(site: string, rest: string)
    requires |rest| > 0 && rest[0] == '/'
    ensures '/' !in site ==> SiteOf("/v1/sites/" + site + rest) == Some(site)
  {
    if '/' !in site {
      var p := "/v1/sites/";
      var path := p + site + rest;
      assert path[..|p|] == p;
      var t := path[|p|..];
      assert t == site + rest;
      FirstSlashAfter(site, rest);
      assert t[..|site|] == site;
    }
  }

  /** `"/v1/sites/{$siteId}" . $suffix` gives back the site id it was built from. */
  lemma SitePathInjective(a: string, b: string, suffix: string)
    requires "/v1/sites/" + a + suffix == "/v1/sites/" + b + suffix
    ensures a == b
  {
    var p := "/v1/sites/";
    assert |a| == |b|;
    assert a == (p + a + suffix)[|p|..|p| + |a|];
    assert b == (p + b + suffix)[|p|..|p| + |b|];
  }

  /** Distinct sites get distinct endpoints, for every site-scoped list request. */
  lemma EndpointsDetermineSite(a: string, b: string)
    requires a != b
    ensures GetWifiBroadcastsRequest(a).ResolveEndpoint() != GetWifiBroadcastsRequest(b).ResolveEndpoint()
    ensures GetFirewallZonesRequest(a).ResolveEndpoint() != GetFirewallZonesRequest(b).ResolveEndpoint()
    ensures GetWanInterfacesRequest(a).ResolveEndpoint() != GetWanInterfacesRequest(b).ResolveEndpoint()
  {
    if GetWifiBroadcastsRequest(a).ResolveEndpoint() == GetWifiBroadcastsRequest(b).ResolveEndpoint() {
      SitePathInjective(a, b, "/wifi/broadcasts");
    }
    if GetFirewallZonesRequest(a).ResolveEndpoint() == GetFirewallZonesRequest(b).ResolveEndpoint() {
      SitePathInjective(a, b, "/firewall/zones");
    }
    if GetWanInterfacesRequest(a).ResolveEndpoint() == GetWanInterfacesRequest(b).ResolveEndpoint() {
      SitePathInjective(a, b, "/wans");
    }
  }

  /** `new GetWifiBroadcastsRequest('s1', 0, 25, 'enabled.eq(true)')` asks for
      `offset=0&limit=25&filter=enabled.eq(true)`, in this order. */
  method WifiBroadcastsPage() returns (query: Query)
    ensures query == [Entry("offset", IntParam(0)), Entry("limit", IntParam(25)), Entry("filter", StrParam("enabled.eq(true)"))]
  {
    var r := GetWifiBroadcastsRequest("s1", Some(0), Some(25), Some(Text("enabled.eq(true)")));
    query := r.DefaultQuery();
    ListQueryShape(query, Some(0), Some(25), Some("enabled.eq(true)"));
  }
}
