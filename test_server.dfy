/**
 * The HTTP handlers of the end-to-end test server: the admin handler that answers the
 * liveness and readiness probes, and the test handler that describes the request it got.
 * Requests are given as the parts the handlers read; the description is the summary value,
 * not its JSON text.
 */
module TestServer {
  import opened Wrappers
  import Utf8

  type Byte = Utf8.Byte

  /** An HTTP method; `Extension` holds any other method token. */
  datatype Method = GET | HEAD | POST | PUT | DELETE | CONNECT | OPTIONS | TRACE | PATCH | Extension(token: string)

  /** `Method::to_string`: the method token. */
  function MethodString(m: Method): string
  {
    match m
    case GET => "GET"
    case HEAD => "HEAD"
    case POST => "POST"
    case PUT => "PUT"
    case DELETE => "DELETE"
    case CONNECT => "CONNECT"
    case OPTIONS => "OPTIONS"
    case TRACE => "TRACE"
    case PATCH => "PATCH"
    case Extension(t) => t
  }

  /** An HTTP version. */
  datatype Version = Http09 | Http10 | Http11 | H2 | H3

  /** `Debug` of a version. */
  function VersionDebug(v: Version): string
  {
    match v
    case Http09 => "HTTP/0.9"
    case Http10 => "HTTP/1.0"
    case Http11 => "HTTP/1.1"
    case H2 => "HTTP/2.0"
    case H3 => "HTTP/3.0"
  }

  /** A request target as its parts: scheme and authority (absent in origin form), path and query. */
  datatype Uri = Uri(scheme: Option<string>, authority: Option<string>, path: string, query: Option<string>)

  /** `Uri::to_string`: `scheme://`, the authority, the path, then `?query`, each part when present. */
  function UriString(u: Uri): string
  {
    (if u.scheme.Some? then u.scheme.value + "://" else "")
    + (if u.authority.Some? then u.authority.value else "")
    + u.path
    + (if u.query.Some? then "?" + u.query.value else "")
  }

  /** A header: its (lower-case) name and its value bytes. */
  datatype Header = Header(name: string, value: seq<Byte>)

  datatype Request = Request(httpMethod: Method, uri: Uri, version: Version, headers: seq<Header>)

  /** The body of a response: empty, or the request summary. */
  datatype Body = Empty | Summary(summary: RequestSummary)

  datatype RequestSummary = RequestSummary(version: string, httpMethod: string, uri: string, headers: seq<(string, string)>)

  datatype Response = Response(status: nat, body: Body)

  const Ok: nat := 200
  const NotFound: nat := 404

  // === Admin ===

  /** `handle_admin`: 200 for a GET or HEAD of `/live` or `/ready`, 404 for everything else, always with an empty body. */
  function HandleAdmin(req: Request): (r: Response)
    ensures r.status == Ok <==> (req.httpMethod == GET || req.httpMethod == HEAD) && (req.uri.path == "/live" || req.uri.path == "/ready")
    ensures r.status == Ok || r.status == NotFound
    ensures r.body == Empty
  {
    if (req.httpMethod == GET || req.httpMethod == HEAD) && (req.uri.path == "/live" || req.uri.path == "/ready") then
      Response(Ok, Empty)
    else
      Response(NotFound, Empty)
  }

  /** The probe paths are not answered for other methods: a `POST /live` is not found. */
  lemma AdminRejectsPost(uri: Uri, version: Version, headers: seq<Header>)
    requires uri.path == "/live"
    ensures HandleAdmin(Request(POST, uri, version, headers)) == Response(NotFound, Empty)
  {
  }

  // === Test handler ===

  /** A header value byte that `HeaderValue::to_str` accepts: visible ASCII or a tab. */
  predicate VisibleAscii(b: Byte)
  {
    (32 <= b < 127) || b == 9
  }

  /** `HeaderValue::to_str`: the value as text when every byte is visible ASCII, otherwise nothing. */
  function HeaderValueToStr(v: seq<Byte>): (r: Option<string>)
    ensures r.Some? <==> forall i :: 0 <= i < |v| ==> VisibleAscii(v[i])
    ensures r.Some? ==> |r.value| == |v| && forall i :: 0 <= i < |v| ==> r.value[i] as int == v[i]
  {
    if forall i :: 0 <= i < |v| ==> VisibleAscii(v[i]) then
      Some(seq(|v|, i requires 0 <= i < |v| => v[i] as char))
    else
      None
  }

  /** The summary's headers: the request headers in order, keeping those whose value is text. */
  function FilterHeaders(hs: seq<Header>): (r: seq<(string, string)>)
    ensures |r| <= |hs|
  {
    if |hs| == 0 then []
    else
      var rest := FilterHeaders(hs[1..]);
      match HeaderValueToStr(hs[0].value)
      case None => rest
      case Some(v) => [(hs[0].name, v)] + rest
  }

  /** Filtering is done header by header: the headers of a concatenation are the concatenated headers. */
  lemma {:induction false} FilterHeadersAppend(a: seq<Header>, b: seq<Header>)
    ensures FilterHeaders(a + b) == FilterHeaders(a) + FilterHeaders(b)
  {
    if |a| == 0 {
      assert a + b == b;
    } else {
      assert (a + b)[0] == a[0];
      assert (a + b)[1..] == a[1..] + b;
      FilterHeadersAppend(a[1..], b);
    }
  }

  /** A single header is kept, under its own name and with its value as text, exactly when its value is text. */
  lemma FilterHeadersSingle(h: Header)
    ensures HeaderValueToStr(h.value).Some? ==> FilterHeaders([h]) == [(h.name, HeaderValueToStr(h.value).value)]
    ensures HeaderValueToStr(h.value).None? ==> FilterHeaders([h]) == []
  {
    assert [h][1..] == [];
  }

  /** When every value is text, every header is kept, in order, under its own name. */
  lemma {:induction false} FilterHeadersAllText(hs: seq<Header>)
    requires forall i :: 0 <= i < |hs| ==> HeaderValueToStr(hs[i].value).Some?
    ensures |FilterHeaders(hs)| == |hs|
    ensures forall i :: 0 <= i < |hs| ==> FilterHeaders(hs)[i] == (hs[i].name, HeaderValueToStr(hs[i].value).value)
  {
    if |hs| > 0 {
      FilterHeadersAllText(hs[1..]);
      assert forall i :: 1 <= i < |hs| ==> hs[i] == hs[1..][i - 1];
    }
  }

  /** Every kept header is one of the request's headers, with its value read as text. */
  lemma {:induction false} FilterHeadersFromRequest(hs: seq<Header>, k: nat)
    requires k < |FilterHeaders(hs)|
    ensures exists i :: (0 <= i < |hs| && HeaderValueToStr(hs[i].value).Some?
      && FilterHeaders(hs)[k] == (hs[i].name, HeaderValueToStr(hs[i].value).value))
  {
    var rest := FilterHeaders(hs[1..]);
    if HeaderValueToStr(hs[0].value).Some? && k == 0 {
      assert FilterHeaders(hs)[0] == (hs[0].name, HeaderValueToStr(hs[0].value).value);
    } else {
      var k' := if HeaderValueToStr(hs[0].value).Some? then k - 1 else k;
      assert FilterHeaders(hs)[k] == rest[k'];
      FilterHeadersFromRequest(hs[1..], k');
      var i :| 0 <= i < |hs[1..]| && HeaderValueToStr(hs[1..][i].value).Some?
        && rest[k'] == (hs[1..][i].name, HeaderValueToStr(hs[1..][i].value).value);
      assert hs[i + 1] == hs[1..][i];
    }
  }

  /** The summary of a request. */
  function Summarize(req: Request): RequestSummary
  {
    RequestSummary(VersionDebug(req.version), MethodString(req.httpMethod), UriString(req.uri), FilterHeaders(req.headers))
  }

  /** `handle_http`: the summary of the request, for `/request-summary` only; 404 with an empty body otherwise. */
  function HandleHttp(req: Request): (r: Response)
    ensures r.status == Ok <==> req.uri.path == "/request-summary"
    ensures r.status == Ok ==> r.body.Summary?
    ensures r.status == Ok ==> r.body.summary.version == VersionDebug(req.version) && r.body.summary.httpMethod == MethodString(req.httpMethod)
    ensures r.status == Ok ==> r.body.summary.uri == UriString(req.uri) && r.body.summary.headers == FilterHeaders(req.headers)
    ensures r.status != Ok ==> r == Response(NotFound, Empty)
  {
    if req.uri.path == "/request-summary" then Response(Ok, Summary(Summarize(req))) else Response(NotFound, Empty)
  }

  /**
   * The summary reports the request line faithfully: in origin form the uri text is the path
   * and query, and the method text is the method's own token.
   */
  lemma SummaryOfOriginForm(req: Request)
    requires req.uri.path == "/request-summary" && req.uri.scheme.None? && req.uri.authority.None?
    ensures HandleHttp(req).body.summary.uri == "/request-summary" + (if req.uri.query.Some? then "?" + req.uri.query.value else "")
    ensures req.httpMethod == GET ==> HandleHttp(req).body.summary.httpMethod == "GET"
  {
  }

  /** Distinct methods other than extensions have distinct tokens. */
  lemma MethodStringInjective(a: Method, b: Method)
    requires !a.Extension? && !b.Extension?
    ensures MethodString(a) == MethodString(b) ==> a == b
  {
  }
}
