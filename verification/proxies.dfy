/** `make_proxies` (stock_backend.py:322-330): the `requests` proxy settings
    for an optional proxy host and port. */
module Proxies {
  import opened Wrappers
  import opened Text

  /** The `{'http': url, 'https': url}` dictionary. */
  datatype ProxyMap = ProxyMap(http: string, https: string)

  predicate HasScheme(host: string) {
    StartsWith(host, "http://") || StartsWith(host, "https://")
  }

  /** The proxy URL: the host as given when it already names a scheme,
      otherwise with "http://" in front; then ":" and the port. */
  function ProxyUrl(host: string, port: string): string {
    if HasScheme(host) then host + ":" + port else "http://" + host + ":" + port
  }

  /** No proxies unless both the host and the port are given (a missing value
      is the empty string). */
  function MakeProxies(host: string, port: string): (r: Option<ProxyMap>)
    ensures r.Some? <==> host != "" && port != ""
    ensures r.Some? ==> r.value.http == r.value.https && HasScheme(r.value.http)
    ensures r.Some? ==> r.value.http == ProxyUrl(host, port)
  {
    if host != "" && port != "" then
      var url := ProxyUrl(host, port);
      ProxyUrlHasScheme(host, port);
      Some(ProxyMap(url, url))
    else None
  }

  /** The URL always names a scheme. */
  lemma ProxyUrlHasScheme(host: string, port: string)
    ensures HasScheme(ProxyUrl(host, port))
  {
    var url := ProxyUrl(host, port);
    if HasScheme(host) {
      if StartsWith(host, "http://") {
        assert url[..7] == host[..7];
      } else {
        assert url[..8] == host[..8];
      }
    } else {
      assert url[..7] == "http://";
    }
  }

  /** The URL ends with ":" and the port, and keeps the host whole: the host is
      what lies between the scheme added in front (if any) and that suffix. */
  lemma ProxyUrlParts(host: string, port: string)
    ensures var url, lead := ProxyUrl(host, port), if HasScheme(host) then "" else "http://";
      && |url| == |lead| + |host| + 1 + |port|
      && url[..|lead|] == lead
      && url[|lead|..|lead| + |host|] == host
      && url[|lead| + |host|..] == ":" + port
  {
    var url := ProxyUrl(host, port);
    if HasScheme(host) {
      assert url == host + (":" + port);
    } else {
      assert url == "http://" + host + (":" + port);
      assert url[..7] == "http://";
      assert url[7..7 + |host|] == host;
    }
  }

  /** A host that already names a scheme gets no second one. */
  lemma NoDoubleScheme(host: string, port: string)
    requires HasScheme(host)
    ensures StartsWith(ProxyUrl(host, port), host)
  {
    assert ProxyUrl(host, port)[..|host|] == host;
  }
}
