/** The DNS-over-HTTPS forwarding handler of api/dns-reroute.js, split at its
    one network call:
    - Plan turns the inbound request into either an immediate answer (the
      405 method gate, the 204 CORS preflight) or the upstream `fetch`;
    - Relay turns the upstream outcome into the answer to the caller;
    - Handle composes the two around a `fetch` given as a parameter. */
module DnsReroute {

  import opened Text
  import opened Url
  import opened Messages
  import opened Headers
  import opened Wrappers

  const UpstreamHost: string := "dns.adguard-dns.com"
  const UpstreamPath: string := "/dns-query"
  /** `https://dns.adguard-dns.com/dns-query`, the handler's `baseUrl`. */
  const BaseUrl: string := Scheme + UpstreamHost + UpstreamPath
  const DefaultAccept: string := "application/dns-json"
  const MethodNotAllowedMessage: string := "Method not allowed"
  const ProxyFailureMessage: string := "Failed to proxy request"

  /** The three `setHeader` calls that open both the preflight answer and
      every relayed answer, with the names as the handler spells them. */
  const CorsPairs: seq<HeaderPair> := [
    ("Access-Control-Allow-Origin", "*"),
    ("Access-Control-Allow-Methods", "GET, POST, OPTIONS"),
    ("Access-Control-Allow-Headers", "Content-Type, Accept")
  ]

  /** The header map those three calls leave behind. */
  const CorsHeaders: HeaderMap := map[
    "access-control-allow-origin" := "*",
    "access-control-allow-methods" := "GET, POST, OPTIONS",
    "access-control-allow-headers" := "Content-Type, Accept"
  ]

  /** Each CORS name as the handler spells it folds to its key; one lemma
      per name keeps each literal computation a proof of its own. */
  lemma OriginNameFolds()
    ensures Lower("Access-Control-Allow-Origin") == "access-control-allow-origin"
  {
  }

  lemma MethodsNameFolds()
    ensures Lower("Access-Control-Allow-Methods") == "access-control-allow-methods"
  {
  }

  lemma HeadersNameFolds()
    ensures Lower("Access-Control-Allow-Headers") == "access-control-allow-headers"
  {
  }

  /** The header map right after the three CORS `setHeader` calls: the
      mixed-case calls leave exactly the three lower-case CORS entries. */
  function CorsPreamble(): (r: HeaderMap)
    ensures r == CorsHeaders
  {
    OriginNameFolds();
    MethodsNameFolds();
    HeadersNameFolds();
    OverlayThree(map[], CorsPairs[0], CorsPairs[1], CorsPairs[2]);
    assert CorsPairs == [CorsPairs[0], CorsPairs[1], CorsPairs[2]];
    Overlay(map[], CorsPairs)
  }

  /** The methods the handler answers at all, the same three its CORS
      answers advertise. */
  const AllowedMethods: set<string> := {"GET", "POST", "OPTIONS"}

  /** The gate of line 6: a method passes unless it differs from each of
      the three. */
  predicate IsAllowedMethod(verb: string): (allowed: bool)
    ensures allowed <==> verb in AllowedMethods
  {
    !(verb != "GET" && verb != "POST" && verb != "OPTIONS")
  }

  /** JavaScript truthiness of `req.headers[name]`, a string or `undefined`. */
  predicate Truthy(headers: HeaderMap, name: string): (t: bool)
    ensures !t <==> Lookup(headers, name) == None || Lookup(headers, name) == Some("")
  {
    name in headers && headers[name] != ""
  }

  /** `q` is the query part of `url`: the suffix that starts at the first
      `?` of `url`, taken byte for byte. */
  predicate IsQuerySuffix(url: string, q: string) {
    && 0 < |q| <= |url|
    && q == url[|url| - |q|..]
    && q[0] == '?'
    && '?' !in url[..|url| - |q|]
  }

  /** A URL has at most one query part. */
  lemma QuerySuffixUnique(url: string, q1: string, q2: string)
    requires IsQuerySuffix(url, q1) && IsQuerySuffix(url, q2)
    ensures q1 == q2
  {
  }

  lemma UpstreamHostIsOneAuthority()
    ensures NoDelimiter(UpstreamHost)
  {
  }

  lemma BaseUrlHasNoQuery()
    ensures '?' !in BaseUrl
  {
  }

  /** Whatever suffix the client's URL contributes, the target URL addresses
      the constant upstream host: the `/` of the upstream path already ends
      the authority, so nothing appended after it can extend it. */
  lemma TargetHostIsFixed(q: string)
    ensures Authority(BaseUrl + q) == Some(UpstreamHost)
  {
    UpstreamHostIsOneAuthority();
    assert BaseUrl + q == Scheme + UpstreamHost + (UpstreamPath + q);
    AuthorityOf(UpstreamHost, UpstreamPath + q);
  }

  /** The URL handed to `fetch` (lines 19-21 of the handler). */
  function TargetUrl(verb: string, url: string): (r: string)
    ensures StartsWith(r, BaseUrl)
    ensures Authority(r) == Some(UpstreamHost)
    ensures verb == "GET" && '?' in url ==> IsQuerySuffix(url, r[|BaseUrl|..])
    ensures verb != "GET" || '?' !in url ==> r == BaseUrl
  {
    if verb == "GET" && '?' in url then
      var q := url[IndexOf(url, '?')..];
      TargetHostIsFixed(q);
      assert (BaseUrl + q)[|BaseUrl|..] == q;
      BaseUrl + q
    else
      TargetHostIsFixed("");
      assert BaseUrl + "" == BaseUrl;
      BaseUrl
  }

  /** The whitelisted request headers (lines 24-30 of the handler). */
  function ForwardHeaders(verb: string, headers: HeaderMap): (r: HeaderMap)
    ensures r.Keys <= {"accept", "content-type"}
    ensures Lookup(r, "accept") ==
      Some(if Truthy(headers, "accept") then headers["accept"] else DefaultAccept)
    ensures Lookup(r, "content-type") ==
      if verb == "POST" && Truthy(headers, "content-type") then Some(headers["content-type"]) else None
  {
    var accept := if Truthy(headers, "accept") then headers["accept"] else DefaultAccept;
    var base := map["accept" := accept];
    if verb == "POST" && Truthy(headers, "content-type") then
      base["content-type" := headers["content-type"]]
    else
      base
  }

  /** Everything the handler decides before the `fetch` (lines 3-45). */
  function Plan(req: Inbound): (a: Action)
    ensures !IsAllowedMethod(req.verb) ==>
      a == Immediate(Response(405, map[], Json(ErrorBody(MethodNotAllowedMessage, None))))
    ensures req.verb == "OPTIONS" ==> a == Immediate(Response(204, CorsHeaders, Empty))
    ensures a.Forward? <==> req.verb == "GET" || req.verb == "POST"
    ensures a.Forward? ==> a.request.verb == req.verb
    ensures a.Forward? ==> StartsWith(a.request.target, BaseUrl)
    ensures a.Forward? ==> Authority(a.request.target) == Some(UpstreamHost)
    ensures a.Forward? && req.verb == "GET" && '?' in req.url ==>
      IsQuerySuffix(req.url, a.request.target[|BaseUrl|..])
    ensures a.Forward? && (req.verb == "POST" || '?' !in req.url) ==> a.request.target == BaseUrl
    ensures a.Forward? ==> a.request.headers.Keys <= {"accept", "content-type"}
    ensures a.Forward? ==>
      Lookup(a.request.headers, "accept") ==
      Some(if Truthy(req.headers, "accept") then req.headers["accept"] else DefaultAccept)
    ensures a.Forward? ==> (Lookup(a.request.headers, "content-type").Some? <==>
      req.verb == "POST" && Truthy(req.headers, "content-type"))
    ensures a.Forward? && "content-type" in a.request.headers ==>
      a.request.headers["content-type"] == req.headers["content-type"]
    ensures a.Forward? ==> (a.request.body.Some? <==> req.verb == "POST")
    ensures a.Forward? && req.verb == "POST" ==> a.request.body == Some(Concat(req.chunks))
  {
    if !IsAllowedMethod(req.verb) then
      Immediate(Response(405, map[], Json(ErrorBody(MethodNotAllowedMessage, None))))
    else if req.verb == "OPTIONS" then
      Immediate(Response(204, CorsPreamble(), Empty))
    else
      var body := if req.verb == "POST" then Some(Concat(req.chunks)) else None;
      Forward(Outbound(
        TargetUrl(req.verb, req.url), req.verb, ForwardHeaders(req.verb, req.headers), body))
  }

  /** The header pairs upstream sent, when `fetch` got that far. */
  function UpstreamHeaders(u: Upstream): seq<HeaderPair> {
    match u
    case Ok(_, headers, _) => headers
    case BodyFailed(headers, _) => headers
    case Failed(_) => []
  }

  /** The answer to the caller once the `fetch` has settled (lines 47-66). */
  function Relay(u: Upstream): (r: Response)
    ensures u.Ok? ==> r.status == u.status && r.body == Raw(u.body)
    ensures u.Failed? ==>
      r == Response(500, map[], Json(ErrorBody(ProxyFailureMessage, Some(u.message))))
    ensures u.BodyFailed? ==>
      r.status == 500 && r.body == Json(ErrorBody(ProxyFailureMessage, Some(u.message)))
    ensures !u.Failed? ==> LastWriteWins(r.headers, CorsHeaders, UpstreamHeaders(u))
    ensures LowerKeys(r.headers)
  {
    match u
    case Failed(message) =>
      Response(500, map[], Json(ErrorBody(ProxyFailureMessage, Some(message))))
    case Ok(status, headers, body) =>
      Response(status, RelayHeaders(headers), Raw(body))
    case BodyFailed(headers, message) =>
      Response(500, RelayHeaders(headers), Json(ErrorBody(ProxyFailureMessage, Some(message))))
  }

  /** The CORS `setHeader` calls followed by one per upstream header. */
  function RelayHeaders(upstream: seq<HeaderPair>): (r: HeaderMap)
    ensures LastWriteWins(r, CorsHeaders, upstream)
    ensures LowerKeys(r)
  {
    var base := CorsPreamble();
    OverlayLastWriteWinsAll(base, upstream);
    OverlayAppend(map[], CorsPairs, upstream);
    Overlay(base, upstream)
  }

  /** The CORS calls and the upstream calls are one run of `setHeader`,
      starting from a response with no headers. */
  lemma RelayHeadersOneRun(upstream: seq<HeaderPair>)
    ensures RelayHeaders(upstream) == Overlay(map[], CorsPairs + upstream)
  {
    OverlayAppend(map[], CorsPairs, upstream);
  }

  /** One whole invocation: the `fetch` calls it makes and its answer. */
  function Handle(req: Inbound, fetch: Outbound -> Upstream): (x: Exchange)
    ensures !IsAllowedMethod(req.verb) ==>
      && x.upstreamCalls == []
      && x.response == Response(405, map[], Json(ErrorBody(MethodNotAllowedMessage, None)))
    ensures req.verb == "OPTIONS" ==>
      x.upstreamCalls == [] && x.response == Response(204, CorsHeaders, Empty)
    ensures req.verb == "GET" || req.verb == "POST" ==>
      && x.upstreamCalls == [Plan(req).request]
      && x.response == Relay(fetch(x.upstreamCalls[0]))
    ensures forall c :: c in x.upstreamCalls ==> Authority(c.target) == Some(UpstreamHost)
  {
    match Plan(req)
    case Immediate(response) => Exchange([], response)
    case Forward(request) => Exchange([request], Relay(fetch(request)))
  }

  /** The 405 and 204 answers never depend on what upstream would say: no
      upstream request is made for them. */
  lemma ImmediateIgnoresUpstream(req: Inbound, f: Outbound -> Upstream, g: Outbound -> Upstream)
    requires req.verb != "GET" && req.verb != "POST"
    ensures Handle(req, f) == Handle(req, g)
    ensures Handle(req, f).upstreamCalls == []
  {
  }

  /** Every header upstream sent reaches the caller under its lower-case
      name, hop-by-hop headers such as `transfer-encoding` included. */
  lemma RelayCopiesEveryHeader(u: Upstream, i: int)
    requires u.Ok? && 0 <= i < |u.headers|
    ensures NameOf(u.headers[i]) in Relay(u).headers
  {
    LastWriteWinsAt(Relay(u).headers, CorsHeaders, u.headers, NameOf(u.headers[i]));
  }

  /** A CORS entry upstream did not send keeps the handler's value; one it
      did send takes upstream's last value instead. */
  lemma RelayCorsEntry(u: Upstream, k: string)
    requires u.Ok? && k in CorsHeaders
    ensures LastValue(u.headers, k).None? ==> Relay(u).headers[k] == CorsHeaders[k]
    ensures LastValue(u.headers, k).Some? ==> Relay(u).headers[k] == LastValue(u.headers, k).value
  {
  }

  /** A GET whose URL is a path without `?` followed by a query is sent to
      the upstream with that query appended, byte for byte. */
  lemma GetKeepsQuery(path: string, query: string, headers: HeaderMap, chunks: seq<seq<byte>>)
    requires '?' !in path
    requires |query| > 0 && query[0] == '?'
    ensures Plan(Inbound("GET", path + query, headers, chunks)).request.target == BaseUrl + query
  {
    var url := path + query;
    var target := Plan(Inbound("GET", url, headers, chunks)).request.target;
    assert url[..|url| - |query|] == path;
    assert IsQuerySuffix(url, query);
    assert query[0] in url;
    QuerySuffixUnique(url, query, target[|BaseUrl|..]);
    assert target == target[..|BaseUrl|] + target[|BaseUrl|..];
  }

  /** A GET without a query, and every POST, go to the bare upstream URL:
      never with a trailing `?`, never with the client's query. */
  lemma BareTargetUnlessGetQuery(req: Inbound)
    requires req.verb == "POST" || (req.verb == "GET" && '?' !in req.url)
    ensures Plan(req).request.target == BaseUrl
    ensures '?' !in Plan(req).request.target
  {
    BaseUrlHasNoQuery();
  }

  /** An upstream 502 reaches the caller as 502 with its headers and body. */
  lemma UpstreamErrorPassesThrough(body: seq<byte>)
    ensures
      var r := Relay(Ok(502, [("X-Test", "1")], body));
      r.status == 502 && r.body == Raw(body) && Lookup(r.headers, "x-test") == Some("1")
  {
    var pairs: seq<HeaderPair> := [("X-Test", "1")];
    LowerEach("X-Test", "x-test");
    assert LastValue(pairs, "x-test") == Some("1");
  }
}
