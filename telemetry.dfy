/** The tracing set-up of the product service (`src/product-service/telemetry/telemetry.go`):
    the service name and collector endpoint it takes from the environment, with their
    defaults, and the scheme prefix it strips because the exporter wants `host:port`. The
    environment is given as the two variables' values (the empty text when unset). */
module Telemetry {
  import opened Text

  const DefaultServiceName := "unknown-service"
  const DefaultEndpoint := "otel-collector-collector.observability:4318"

  function ServiceName(env: GoString): (name: GoString)
    ensures env == "" ==> name == DefaultServiceName
    ensures env != "" ==> name == env
  {
    if env == "" then DefaultServiceName else env
  }

  /** The endpoint with its default, then one leading `http://` dropped, then one leading
      `https://`: the defaulted value is the result behind at most one of each scheme, in
      that order. */
  function Endpoint(env: GoString): (endpoint: GoString)
    ensures var e := if env == "" then DefaultEndpoint else env;
      e == endpoint || e == "http://" + endpoint || e == "https://" + endpoint ||
      e == "http://https://" + endpoint
    ensures |endpoint| <= |if env == "" then DefaultEndpoint else env|
  {
    var e := if env == "" then DefaultEndpoint else env;
    TrimPrefix(TrimPrefix(e, "http://"), "https://")
  }

  /** What the endpoint becomes: an unset variable gives the in-cluster collector, a host
      behind either scheme gives the bare host, and a value with neither prefix is kept. */
  lemma EndpointNormalised(host: GoString)
    ensures Endpoint("") == DefaultEndpoint
    ensures Endpoint("http://" + host) == TrimPrefix(host, "https://")
    ensures Endpoint("https://" + host) == host
    ensures host != "" && !("http://" <= host) && !("https://" <= host) ==> Endpoint(host) == host
  {
    assert DefaultEndpoint[0] == 'o';
    assert ("http://" + host)[7..] == host;
    assert ("https://" + host)[8..] == host;
    assert !("http://" <= "https://" + host) by {
      assert ("https://" + host)[4] == 's';
    }
  }

  /** Both schemes lead to the same host when the host itself starts with neither. */
  lemma EndpointSchemesAgree(host: GoString)
    requires host != "" && !("https://" <= host)
    ensures Endpoint("http://" + host) == Endpoint("https://" + host) == host
  {
    EndpointNormalised(host);
  }

  /** The two prefixes are stripped in a fixed order, once each: `http://https://h` loses
      both, `https://http://h` only the first. */
  lemma EndpointPrefixOrder()
    ensures Endpoint("http://https://h") == "h"
    ensures Endpoint("https://http://h") == "http://h"
  {
    var h1, h2 := "https://h", "http://h";
    assert "http://https://h" == "http://" + h1;
    assert "https://http://h" == "https://" + h2;
    EndpointNormalised(h1);
    EndpointNormalised(h2);
    assert h1[8..] == "h";
  }
}
