# DNS-over-HTTPS reroute handler, modelled in Dafny

`api/dns-reroute.js` is a serverless HTTP handler that forwards DNS-over-HTTPS
requests to one fixed resolver, `https://dns.adguard-dns.com/dns-query`, and
relays the answer back with CORS headers. This project models that handler
as pure functions over immutable messages. The one network call splits it
into two parts:

- `DnsReroute.Plan` covers everything before the `fetch`. It applies the
  method gate (405 for anything but GET, POST and OPTIONS) and answers the
  CORS preflight (204). Otherwise it builds the upstream request: target URL,
  whitelisted headers and, for POST only, the joined body.
- `DnsReroute.Relay` covers everything after the `fetch`. It maps the
  upstream outcome to the caller's answer. Status and body pass through
  unchanged. The headers are the three CORS entries overlaid by every
  upstream header, and the last write wins. A rejected `fetch` becomes a 500
  with `{error: "Failed to proxy request", details}`.
- `DnsReroute.Handle` joins the two around a `fetch` passed in as a function.
  It records the upstream requests it makes, so "no upstream contact" is a
  statement about an empty list.

Modules:

- `Wrappers` (wrappers.dfy) holds `Option`, a value that may be absent.
- `Text` (text.dfy) holds the JavaScript string and byte operations: `indexOf`,
  lower-casing header names, and joining body chunks.
- `Url` (url.dfy) defines the authority of an `https` URL, following
  section 3.2 of RFC 3986.
- `Messages` (messages.dfy) holds the inbound request, the outbound request,
  the upstream outcome and the response. Header maps there are keyed by
  lower-case names.
- `Headers` (headers.dfy) models Node's `setHeader` as a fold. It also gives
  an independent reference for "last write wins" and proves the two agree.
- `DnsReroute` (dns_reroute.dfy) is the handler itself.

The upstream outcome has three cases, because the handler's `try` covers two
awaits:

- `Ok`: the upstream answer arrived in full.
- `Failed`: `fetch` rejected before any header was set, so the 500 carries no
  headers.
- `BodyFailed`: reading the upstream body rejected after the status and
  headers had already been set. The catch block then sets status 500 and
  sends the JSON error. The CORS and upstream headers it had already set stay
  on that 500.

In three places the model follows the code where a reader might expect
otherwise:

- The code copies every upstream header, hop-by-hop ones such as
  `transfer-encoding` included. The comment at line 58 says to skip them, but
  no code does. `RelayCopiesEveryHeader` states that every header is copied.
- The code reads the POST body before its `try`. So a read error on the
  inbound stream does not become a 500, and the model does not claim it does.
- `accept` falls back to `application/dns-json` by JavaScript truthiness, so
  an empty `accept` value also falls back.

## Model

| member | source | states |
|---|---|---|
| Text.IndexOf | api/dns-reroute.js:19-20 | the position `indexOf('?')` cuts at: -1 exactly when the URL has no `?`, otherwise a `?` with no `?` before it |
| Text.Lower | api/dns-reroute.js:59 | the key `setHeader` stores a name under: same length, each letter folded, result lower-case, lower-case names unchanged |
| Text.ConcatInOrder | api/dns-reroute.js:39-41 | the joined body holds every chunk unchanged, after all earlier chunks and before all later ones |
| Text.ConcatAppend | api/dns-reroute.js:41 | joining the chunks distributes over any split of the chunk list |
| Text.Concat | api/dns-reroute.js:41 | `Buffer.concat` of the collected chunks: the joined body is exactly as long as all chunks together |
| Url.AuthorityOf | api/dns-reroute.js:4 | an `https` URL's authority ends at the first delimiter after the host, whatever follows |
| Headers.SetHeader | api/dns-reroute.js:59 | one `setHeader` call (also lines 12-14 and 51-53): the value is found under the lower-case name afterwards, every other name keeps its entry or absence, the key set grows by that one name, and lower-case keys stay lower-case |
| Headers.Overlay | api/dns-reroute.js:57-60 | the `setHeader` fold keeps every key it started with and keeps all keys lower-case |
| Headers.LastValue | api/dns-reroute.js:57-60 | reference meaning of "last write wins": None exactly when no pair has the name, otherwise the value of the last pair with that name |
| Headers.OverlaySnoc | api/dns-reroute.js:59 | one more upstream header is one more `setHeader` on the map built so far |
| Headers.OverlayAppend | api/dns-reroute.js:51-60 | two runs of `setHeader` calls, one after the other, equal one run over both lists, for any lists |
| Headers.OverlayLastWriteWins | api/dns-reroute.js:57-60 | after the fold, each name has its last value among the pairs, or the value it had before when no pair carries it |
| DnsReroute.CorsPreamble | api/dns-reroute.js:12-14 | the three mixed-case CORS `setHeader` calls (repeated at lines 51-53) leave exactly the three lower-case CORS entries |
| DnsReroute.IsAllowedMethod | api/dns-reroute.js:6 | a method passes the gate exactly when it is one of GET, POST and OPTIONS |
| DnsReroute.Truthy | api/dns-reroute.js:25-28 | a header value is falsy exactly when it is absent (`undefined`) or the empty string |
| DnsReroute.QuerySuffixUnique | api/dns-reroute.js:20 | a URL has at most one query suffix in the sense the target uses |
| DnsReroute.TargetHostIsFixed | api/dns-reroute.js:4 | base URL plus any suffix whatever still addresses `dns.adguard-dns.com` |
| DnsReroute.TargetUrl | api/dns-reroute.js:19-21 | the target starts with the base URL and its authority is the upstream host; a GET with `?` adds the URL's query suffix, byte for byte; otherwise the target is the bare base URL |
| DnsReroute.GetKeepsQuery | api/dns-reroute.js:19-21 | a GET for a path without `?` followed by a query goes to base URL plus exactly that query |
| DnsReroute.BareTargetUnlessGetQuery | api/dns-reroute.js:19-21 | POST, and GET without `?`, go to the base URL, which has no `?` at all |
| DnsReroute.ForwardHeaders | api/dns-reroute.js:24-30 | only `accept` and `content-type` are forwarded; `accept` is the inbound value when truthy, else `application/dns-json`; `content-type` is present exactly for a POST with a truthy inbound one, copied verbatim |
| DnsReroute.Plan | api/dns-reroute.js:3-45 | methods outside GET/POST/OPTIONS get 405 `{error: "Method not allowed"}`; OPTIONS gets 204, no body, exactly the three CORS headers; only GET and POST are forwarded, with their own method, the target, header and body properties above; the body is present exactly for POST and is the joined chunks |
| DnsReroute.RelayHeaders | api/dns-reroute.js:51-60 | the answer's headers are the CORS entries overlaid by the upstream pairs, last write wins, all keyed by lower-case names |
| DnsReroute.RelayHeadersOneRun | api/dns-reroute.js:51-60 | the CORS calls and the upstream calls are one run of `setHeader` over both lists, starting from no headers |
| DnsReroute.Relay | api/dns-reroute.js:47-66 | an upstream answer keeps its status (4xx and 5xx too) and its body bytes; a rejected fetch gives 500 `{error: "Failed to proxy request", details: message}` with no headers; a failed body read gives the same 500 with the headers already set; headers follow last write wins over the CORS entries and are keyed by lower-case names |
| DnsReroute.RelayCopiesEveryHeader | api/dns-reroute.js:57-60 | every upstream header, hop-by-hop ones included, reaches the caller under its lower-case name |
| DnsReroute.RelayCorsEntry | api/dns-reroute.js:51-60 | a CORS entry keeps the handler's value unless upstream sends that name, in which case upstream's last value wins |
| DnsReroute.UpstreamErrorPassesThrough | api/dns-reroute.js:56-63 | an upstream 502 with `X-Test: 1` reaches the caller as 502 with `x-test: 1` and the same body |
| DnsReroute.Handle | api/dns-reroute.js:3-68 | 405 and 204 answers make no upstream request; GET and POST make exactly one, which is the planned request (target, method, headers, body as above), and the answer is the relay of its outcome; every upstream request goes to `dns.adguard-dns.com` |
| DnsReroute.ImmediateIgnoresUpstream | api/dns-reroute.js:6-16 | for methods other than GET and POST, the answer does not depend on the upstream at all |

## Left out

- Network I/O: the `fetch`, TLS and DNS resolution (line 48) are not modelled. `Handle` takes `fetch` as a parameter and `Relay` takes its outcome as input.
- Stream reading (lines 38-43): the body arrives as an already-collected list of byte chunks. An `error` event on the inbound stream is not modelled. It rejects outside the `try`, so the handler gives no answer of its own for it.
- Representation details: `Buffer.from`, `arrayBuffer` and `Buffer.concat` are modelled as byte sequences and sequence concatenation.
- Framework serialisation: `res.json`, `res.end` and `res.send` (lines 7, 15, 63, 66) are not modelled. Their bodies are a datatype: empty, raw bytes or the JSON error object. Headers the framework adds while serialising, and its handling of bodies on 204/304, are not modelled.
- Logging: `console.error` (line 65) has no effect on the answer.
- Text.Lower: folds only ASCII letters, where JavaScript's `toLowerCase` folds all of Unicode. HTTP header names are ASCII tokens, so the two agree on every valid name.
- DnsReroute.Relay: `details` is always the message string. A thrown value that is not an `Error` would give `details: undefined`, which is not modelled.
- `setHeader` rejecting a header value: Node throws on values with control characters. Headers coming from `fetch` are already validated, so this path is not modelled.
- Repeated upstream names: if the upstream header iteration yields a name more than once (several `set-cookie` entries, say), each is a separate pair and only the last survives. That is what `setHeader` does and what `Headers.OverlayLastWriteWins` states. Which names the iteration repeats is up to the `fetch` implementation and is not modelled.
- Concurrency, timeouts and cancellation: each call is sequential and independent, so they have no counterpart in the model.
