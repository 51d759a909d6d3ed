/**
 * The query engine: every query is one GET of the query path on the
 * discovered host, carrying the bearer token; the decoded response is
 * reduced to a boolean by "the result sequence is non-empty".
 *
 * The HTTP round trip, URL encoding and JSON decoding are a `Transport`
 * parameter: a function from the request to the decoded response or an error.
 */
module Query {
  import opened Wrappers
  import opened Strings
  import opened Discovery
  import opened Promql

  /** One entry of `data.result`; `value` (timestamp, number text) is kept as raw text and never read. */
  datatype AlertResult = AlertResult(metric: map<string, string>, value: seq<string>)
  datatype AlertData = AlertData(result: seq<AlertResult>)
  datatype AlertResponse = AlertResponse(status: string, data: AlertData)

  /** What goes over the wire: the URL, the Authorization header value, and the `query` parameter. */
  datatype Request = Request(url: string, authorization: string, query: string)

  type Transport = Request -> Result<AlertResponse, string>

  const Scheme := "https://"
  const QueryPath := "/api/v1/query"
  const BearerPrefix := "Bearer "

  /** The query endpoint on a host: the scheme, then the host, then the query path. */
  function QueryUrl(host: string): (url: string)
    ensures |url| == |Scheme| + |host| + |QueryPath|
    ensures url[..|Scheme|] == Scheme && url[|Scheme|..|Scheme| + |host|] == host && url[|Scheme| + |host|..] == QueryPath
  {
    Scheme + host + QueryPath
  }

  /** The Authorization field value of section 2.1 of RFC 6750. */
  function BearerHeader(token: string): (header: string)
    ensures HasPrefix(header, BearerPrefix) && header[|BearerPrefix|..] == token
  {
    BearerPrefix + token
  }

  /** The host of a query URL, if the URL has the query URL's form. */
  function HostOfUrl(url: string): (host: Option<string>)
    ensures host.Some? ==> QueryUrl(host.value) == url
  {
    if |Scheme| + |QueryPath| <= |url| && url[..|Scheme|] == Scheme && url[|url| - |QueryPath|..] == QueryPath then
      var h := url[|Scheme|..|url| - |QueryPath|];
      assert url == url[..|Scheme|] + h + url[|url| - |QueryPath|..];
      Some(h)
    else None
  }

  /** The token of an Authorization value, if it is a bearer credential. */
  function TokenOfHeader(header: string): (token: Option<string>)
    ensures token.Some? ==> BearerHeader(token.value) == header
  {
    if HasPrefix(header, BearerPrefix) then
      assert header == header[..|BearerPrefix|] + header[|BearerPrefix|..];
      Some(header[|BearerPrefix|..])
    else None
  }

  lemma UrlRoundTrip(host: string)
    ensures HostOfUrl(QueryUrl(host)) == Some(host)
  {
    var url := QueryUrl(host);
    assert url[..|Scheme|] == Scheme;
    assert url[|url| - |QueryPath|..] == QueryPath;
    assert url[|Scheme|..|url| - |QueryPath|] == host;
  }

  /** Every token, the empty one included, is sent as-is after "Bearer ". */
  lemma HeaderRoundTrip(token: string)
    ensures TokenOfHeader(BearerHeader(token)) == Some(token)
  {
    var h := BearerHeader(token);
    assert h[..|BearerPrefix|] == BearerPrefix;
    assert h[|BearerPrefix|..] == token;
  }

  /** The request `Query` sends: it carries exactly the credential's host and token and the query text. */
  function NewRequest(cred: Credential, query: string): (req: Request)
    ensures HostOfUrl(req.url) == Some(cred.host)
    ensures TokenOfHeader(req.authorization) == Some(cred.token)
    ensures req.query == query
  {
    UrlRoundTrip(cred.host);
    HeaderRoundTrip(cred.token);
    Request(QueryUrl(cred.host), BearerHeader(cred.token), query)
  }

  /**
   * `Query`: one round trip, no retry, no caching. The answer is the
   * transport's answer to any request that carries the credential's host,
   * its token and the query text.
   */
  function Query(cred: Credential, transport: Transport, query: string): (r: Result<AlertResponse, string>)
    ensures forall req: Request ::
      HostOfUrl(req.url) == Some(cred.host) && TokenOfHeader(req.authorization) == Some(cred.token) && req.query == query
      ==> r == transport(req)
  {
    transport(NewRequest(cred, query))
  }

  /**
   * The reduction shared by the three `Is*` operations: an error gives
   * `(false, err)`; otherwise the answer is whether `data.result` is non-empty.
   */
  function Reduce(response: Result<AlertResponse, string>): (r: (bool, Option<string>))
    ensures r.1.Some? <==> response.Failure?
    ensures response.Failure? ==> r == (false, Some(response.error))
    ensures r.0 <==> response.Success? && |response.value.data.result| > 0
  {
    match response
    case Failure(e) => (false, Some(e))
    case Success(resp) => (|resp.data.result| > 0, None)
  }

  function IsMetricNotificationEventSentSet(
    cred: Credential, transport: Transport, upgradeConfigName: string, event: string, version: string): (r: (bool, Option<string>))
    ensures var resp := transport(NewRequest(cred, NotificationQuery(upgradeConfigName, event, version)));
      && (r.1.Some? <==> resp.Failure?)
      && (resp.Failure? ==> r == (false, Some(resp.error)))
      && (r.0 <==> resp.Success? && |resp.value.data.result| > 0)
  {
    Reduce(Query(cred, transport, NotificationQuery(upgradeConfigName, event, version)))
  }

  function IsClusterVersionAtVersion(cred: Credential, transport: Transport, version: string): (r: (bool, Option<string>))
    ensures var resp := transport(NewRequest(cred, ClusterVersionQuery(version)));
      && (r.1.Some? <==> resp.Failure?)
      && (resp.Failure? ==> r == (false, Some(resp.error)))
      && (r.0 <==> resp.Success? && |resp.value.data.result| > 0)
  {
    Reduce(Query(cred, transport, ClusterVersionQuery(version)))
  }

  function IsAlertFiring(
    cred: Credential, transport: Transport, alert: string, checkedNS: seq<string>, ignoredNS: seq<string>): (r: (bool, Option<string>))
    ensures var resp := transport(NewRequest(cred, AlertQuery(alert, checkedNS, ignoredNS)));
      && (r.1.Some? <==> resp.Failure?)
      && (resp.Failure? ==> r == (false, Some(resp.error)))
      && (r.0 <==> resp.Success? && |resp.value.data.result| > 0)
  {
    Reduce(Query(cred, transport, AlertQuery(alert, checkedNS, ignoredNS)))
  }

  /** Nothing but the number of result entries decides the answer: status and values are never read. */
  lemma OnlyResultCountMatters(a: AlertResponse, b: AlertResponse)
    requires |a.data.result| == 0 <==> |b.data.result| == 0
    ensures Reduce(Success(a)) == Reduce(Success(b))
  {
  }
}
