/** UnifiConnector.php: the Saloon connector holding the controller's base URL,
    the API key and the TLS-verification switch; it fixes the base URL every
    request is resolved against, the headers sent with every request and the
    HTTP client options. Its properties are set once, by the constructor. */
module Connector {
  import opened Wrappers
  import opened Text
  import opened PhpArrays

  /** `UnifiConnector::VERSION`, the library's version. */
  const Version: string := "1.0.0"

  /** The path the integration API lives under on the controller. */
  const IntegrationPath: string := "/proxy/network/integration"

  /** `'unifi-api-client-php/'.self::VERSION`. */
  const UserAgent: string := "unifi-api-client-php/" + Version

  /** An HTTP client option: `verify` is a boolean, `timeout` a number of seconds. */
  datatype ConfigValue = BoolOption(b: bool) | IntOption(i: int)

  datatype UnifiConnector = UnifiConnector(baseUrl: string, apiKey: string, verifySsl: bool := true)
  {
    /** `rtrim($baseUrl, '/').'/proxy/network/integration'`: the base URL with
        every trailing slash removed, then the integration path. */
    function ResolveBaseUrl(): (url: string)
      ensures exists host ::
        && url == host + IntegrationPath
        && host <= baseUrl
        && (|host| == 0 || host[|host| - 1] != '/')
        && (forall i :: |host| <= i < |baseUrl| ==> baseUrl[i] == '/')
    {
      TrimRight(baseUrl, '/') + IntegrationPath
    }

    /** The headers of every request, in this order: JSON in both directions,
        the API key, and the library's user agent. */
    function DefaultHeaders(): (h: seq<Entry<string>>)
      ensures Keys(h) == ["Accept", "Content-Type", "X-API-KEY", "User-Agent"]
      ensures Lookup(h, "Accept") == Some("application/json")
      ensures Lookup(h, "Content-Type") == Some("application/json")
      ensures Lookup(h, "X-API-KEY") == Some(apiKey)
      ensures Lookup(h, "User-Agent") == Some(UserAgent)
    {
      var h := [ Entry("Accept", "application/json"),
                 Entry("Content-Type", "application/json"),
                 Entry("X-API-KEY", apiKey),
                 Entry("User-Agent", UserAgent) ];
      HeaderKeysDistinct(h);
      LookupDistinct(h, 0);
      LookupDistinct(h, 1);
      LookupDistinct(h, 2);
      LookupDistinct(h, 3);
      h
    }

    /** The HTTP client options: certificate verification as configured and a
        30-second timeout. */
    function DefaultConfig(): (c: seq<Entry<ConfigValue>>)
      ensures Keys(c) == ["verify", "timeout"]
      ensures Lookup(c, "verify") == Some(BoolOption(verifySsl))
      ensures Lookup(c, "timeout") == Some(IntOption(30))
    {
      var c := [Entry("verify", BoolOption(verifySsl)), Entry("timeout", IntOption(30))];
      assert |c[0].key| != |c[1].key|;
      LookupDistinct(c, 0);
      LookupDistinct(c, 1);
      c
    }
  }

  /** Trailing slashes on the configured URL make no difference. */
  lemma TrailingSlashIrrelevant(baseUrl: string, apiKey: string)
    ensures UnifiConnector(baseUrl + "/", apiKey).ResolveBaseUrl() == UnifiConnector(baseUrl, apiKey).ResolveBaseUrl()
  {
    TrimRightExtra(baseUrl, '/');
  }

  /** A URL that does not end in a slash is kept as it is. */
  lemma UrlWithoutTrailingSlash(baseUrl: string, apiKey: string)
    requires |baseUrl| == 0 || baseUrl[|baseUrl| - 1] != '/'
    ensures UnifiConnector(baseUrl, apiKey).ResolveBaseUrl() == baseUrl + IntegrationPath
  {
  }

  /** Resolving is stable: a connector built on a resolved host resolves to
      the same host again. */
  lemma ResolveIdempotent(baseUrl: string, apiKey: string)
    ensures UnifiConnector(TrimRight(baseUrl, '/'), apiKey).ResolveBaseUrl() == UnifiConnector(baseUrl, apiKey).ResolveBaseUrl()
  {
    TrimRightIdempotent(baseUrl, '/');
  }

  /** The example of the constructor's documentation, with and without a
      trailing slash. */
  lemma ControllerExample()
    ensures UnifiConnector("https://192.168.1.1", "key").ResolveBaseUrl() == "https://192.168.1.1" + IntegrationPath
    ensures UnifiConnector("https://192.168.1.1" + "/", "key").ResolveBaseUrl() == "https://192.168.1.1" + IntegrationPath
  {
    UrlWithoutTrailingSlash("https://192.168.1.1", "key");
    TrailingSlashIrrelevant("https://192.168.1.1", "key");
  }

  /** The four header names differ in length, hence from each other. */
  lemma HeaderKeysDistinct<V>(h: seq<Entry<V>>)
    requires |h| == 4
    requires h[0].key == "Accept" && h[1].key == "Content-Type" && h[2].key == "X-API-KEY" && h[3].key == "User-Agent"
    ensures DistinctKeys(h)
  {
    assert |h[0].key| == 6 && |h[1].key| == 12 && |h[2].key| == 9 && |h[3].key| == 10;
  }

  /** Two connectors send the same headers except for the third, `X-API-KEY`,
      which holds each one's API key. */
  lemma HeadersFromKey(c: UnifiConnector, d: UnifiConnector)
    ensures forall i :: 0 <= i < 4 && i != 2 ==> c.DefaultHeaders()[i] == d.DefaultHeaders()[i]
    ensures c.DefaultHeaders()[2] == Entry("X-API-KEY", c.apiKey)
  {
  }
}
