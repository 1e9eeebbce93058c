/** The messages the handler receives, sends and returns. Header maps are
    keyed by lower-case names, as Node supplies inbound headers and as
    `setHeader` stores outbound ones. */
module Messages {

  import opened Text
  import opened Wrappers

  type HeaderMap = map<string, string>

  /** One `(name, value)` entry in the order `Headers.forEach` visits it. */
  type HeaderPair = (string, string)

  /** The value under `name`, if any. */
  function Lookup(m: HeaderMap, name: string): Option<string> {
    if name in m then Some(m[name]) else None
  }

  /** The request as the handler receives it: `req.method` (here `verb`), `req.url` (path
      plus optional query), `req.headers` and the body chunks the stream
      delivered. */
  datatype Inbound = Inbound(
    verb: string,
    url: string,
    headers: HeaderMap,
    chunks: seq<seq<byte>>)

  /** The arguments of the upstream `fetch`: target URL and options. */
  datatype Outbound = Outbound(
    target: string,
    verb: string,
    headers: HeaderMap,
    body: Option<seq<byte>>)

  /** The JSON object of a locally generated error: `{error, details?}`. */
  datatype ErrorBody = ErrorBody(error: string, details: Option<string>)

  /** What the handler writes after the status line: nothing (`end()`),
      raw bytes (`send(buffer)`) or a JSON error object (`json(...)`). */
  datatype Body = Empty | Raw(bytes: seq<byte>) | Json(err: ErrorBody)

  datatype Response = Response(status: int, headers: HeaderMap, body: Body)

  /** What the handler decides before any upstream contact. */
  datatype Action = Immediate(response: Response) | Forward(request: Outbound)

  /** How the upstream exchange ended:
      - Ok: `fetch` resolved and its body was read in full;
      - Failed: `fetch` itself rejected with `message`;
      - BodyFailed: `fetch` resolved with `headers`, but reading the body
        (`arrayBuffer`) rejected with `message`. */
  datatype Upstream =
    | Ok(status: int, headers: seq<HeaderPair>, body: seq<byte>)
    | Failed(message: string)
    | BodyFailed(headers: seq<HeaderPair>, message: string)

  /** One handler invocation as seen from outside: the upstream requests it
      issued, in order, and the answer it gave the caller. */
  datatype Exchange = Exchange(upstreamCalls: seq<Outbound>, response: Response)
}
