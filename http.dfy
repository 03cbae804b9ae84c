/**
 * The wire level: the requests the client hands to the HTTP transport, the URL
 * template they target, and the transport itself, which is foreign network I/O and
 * is represented by an oracle that answers the n-th exchange.
 */
module Http {
  import opened Options
  import opened Endpoints

  /** A parsed JSON document. Numbers are integers only. */
  datatype Json =
    | Null
    | Bool(b: bool)
    | Number(n: int)
    | Str(s: string)
    | Array(items: seq<Json>)
    | Object(fields: map<string, Json>)

  /** A request body: a JSON object whose values are all strings. */
  type Payload = map<string, string>

  datatype HttpRequest = HttpRequest(verb: Verb, url: string, payload: Option<Payload>)

  /** What the transport reports for one exchange. */
  datatype Outcome =
    | TransportFailure(cause: string)  // DNS failure, refused connection, timeout, ...
    | Response(status: int, body: Json)

  const Scheme := "http://"
  const ApiPrefix := "/api/"


  /** The text after the last '/' of `s` (all of `s` when it has none). */
  function LastSegment(s: string): (t: string)
    ensures '/' !in t
    ensures |t| <= |s| && t == s[|s| - |t|..]
    decreases |s|
  {
    if s == [] || s[|s| - 1] == '/' then [] else LastSegment(s[..|s| - 1]) + [s[|s| - 1]]
  }

  lemma {:induction false} LastSegmentAfterSlash(p: string, t: string)
    requires '/' !in t
    ensures LastSegment(p + "/" + t) == t
    decreases |t|
  {
    var s := p + "/" + t;
    if t != [] {
      var t' := t[..|t| - 1];
      assert s[..|s| - 1] == p + "/" + t';
      LastSegmentAfterSlash(p, t');
    } else {
      assert s[|s| - 1] == '/';
    }
  }

  /**
   * The template `http://{ip}/api/{endpoint}` filled in. It starts with the scheme,
   * and an endpoint that is a single path segment is the URL's last segment.
   */
  function Url(ip: string, endpoint: string): (u: string)
    ensures |u| >= |Scheme| && u[..|Scheme|] == Scheme
    ensures '/' !in endpoint ==> LastSegment(u) == endpoint
  {
    var u := Scheme + ip + ApiPrefix + endpoint;
    assert u == (Scheme + ip + "/api") + "/" + endpoint;
    assert '/' !in endpoint ==> LastSegment(u) == endpoint by {
      if '/' !in endpoint {
        LastSegmentAfterSlash(Scheme + ip + "/api", endpoint);
      }
    }
    u
  }

  /** The command a URL addresses, read from its last path segment. */
  function EndpointOf(url: string): Option<Endpoint> {
    Parse(LastSegment(url))
  }

  /** The host part of a URL built from a known command. */
  function HostOf(url: string, e: Endpoint): string
    requires |url| >= |Scheme| + |ApiPrefix| + |Name(e)|
  {
    url[|Scheme|..|url| - |ApiPrefix| - |Name(e)|]
  }

  /** The address and the command can both be read back from a command URL. */
  lemma UrlRoundTrip(ip: string, e: Endpoint)
    ensures EndpointOf(Url(ip, Name(e))) == Some(e)
    ensures |Url(ip, Name(e))| >= |Scheme| + |ApiPrefix| + |Name(e)|
    ensures HostOf(Url(ip, Name(e)), e) == ip
  {
    ParseName(e);
    var u := Url(ip, Name(e));
    assert u[|Scheme|..|u| - |ApiPrefix| - |Name(e)|] == ip;
  }

  /** Different (address, command) pairs never share a URL. */
  lemma UrlInjective(ip1: string, e1: Endpoint, ip2: string, e2: Endpoint)
    ensures Url(ip1, Name(e1)) == Url(ip2, Name(e2)) ==> ip1 == ip2 && e1 == e2
  {
    UrlRoundTrip(ip1, e1);
    UrlRoundTrip(ip2, e2);
  }

  /**
   * The HTTP transport. Its answers come from `respond`: the n-th exchange
   * (counting from 0) of request `req` gets `respond(n, req)`. Every request
   * handed over is appended to `log`, in order.
   */
  class Network {
    const respond: (nat, HttpRequest) -> Outcome
    var log: seq<HttpRequest>

    constructor (respond: (nat, HttpRequest) -> Outcome)
      ensures this.respond == respond && log == []
    {
      this.respond := respond;
      log := [];
    }

    /** The outcome the next exchange of `req` will get. */
    function Next(req: HttpRequest): Outcome
      reads this
    {
      respond(|log|, req)
    }

    method Exchange(req: HttpRequest) returns (o: Outcome)
      modifies this
      ensures log == old(log) + [req]
      ensures o == old(Next(req))
    {
      o := respond(|log|, req);
      log := log + [req];
    }
  }
}
