/**
 * The `HttpClient` object and the process-wide fields its requests record
 * into. A client owns a base URL and an ordered header list; the last error,
 * status code and response body are module globals shared by every client.
 */
module Client {
  import opened Wrappers
  import opened CStrings
  import opened Url
  import opened Headers
  import opened Transport
  import opened Response

  /** The three recorded fields as one value. */
  datatype Snapshot = Snapshot(lastError: Option<CString>, statusCode: int, responseBody: Option<CString>)

  /** The module globals `last_error`, `status_code` and `response_body`. */
  class Globals {
    var lastError: Option<CString>
    var statusCode: int
    var responseBody: Option<CString>

    /** Module globals start zeroed: no error, status 0, no body. */
    constructor()
      ensures State() == Snapshot(None, 0, None)
    {
      lastError := None;
      statusCode := 0;
      responseBody := None;
    }

    function State(): Snapshot
      reads this
    {
      Snapshot(lastError, statusCode, responseBody)
    }
  }

  /**
   * How one call of `perform_request` moves the recorded fields from
   * `before` to `after` and what it returns. Without an easy handle nothing
   * happens. A failed exchange records its message and nothing else. A
   * completed one records the status and the body (replacing a previous body
   * with "none" when no chunk arrived) and leaves the last error as it was.
   */
  predicate Recorded(before: Snapshot, after: Snapshot, ok: bool, curlInit: bool, ex: Exchange) {
    ok == (curlInit && ex.Completed?) &&
    if !curlInit then after == before
    else match ex
      case Failed(message) => after == before.(lastError := Some(message))
      case Completed(status, chunks) => after == before.(statusCode := status, responseBody := LastBody(chunks))
  }

  /**
   * `perform_request(url, method, data, headers)`. `curlInit` is whether
   * `curl_easy_init` returned a handle; `net` is the network, answering the
   * configured options with an exchange.
   */
  method PerformRequest(g: Globals, url: CString, verb: string, data: Option<CString>, headers: seq<CString>,
                        curlInit: bool, net: Options -> Exchange) returns (ok: bool)
    modifies g
    ensures Recorded(old(g.State()), g.State(), ok, curlInit, net(Configure(url, verb, data, headers)))
  {
    if !curlInit {
      return false;
    }
    var response := new ResponseBuffer();
    match net(Configure(url, verb, data, headers))
    case Failed(message) =>
      g.lastError := Some(message);
      ok := false;
    case Completed(status, chunks) =>
      response.Deliver(chunks);
      if chunks != [] {
        var last := chunks[|chunks| - 1];
        CStrStopsAtNul(last, []);
        assert last + ['\0'] + [] == response.data[..];
      }
      g.statusCode := status;
      g.responseBody := response.Body();
      ok := true;
  }

  /** A failure after a success leaves the success's status and body observable. */
  lemma StaleOnFailure(s0: Snapshot, s1: Snapshot, s2: Snapshot, ok1: bool, ok2: bool,
                       status: int, chunks: seq<string>, message: CString)
    requires Recorded(s0, s1, ok1, true, Completed(status, chunks))
    requires Recorded(s1, s2, ok2, true, Failed(message))
    ensures ok1 && !ok2
    ensures s2 == Snapshot(Some(message), status, LastBody(chunks))
  {
  }

  /**
   * Only the last chunk of a completed exchange is recorded: two exchanges
   * with the same status and the same last chunk leave the same fields,
   * whatever chunks came before.
   */
  lemma EarlierChunksIgnored(before: Snapshot, a1: Snapshot, a2: Snapshot, ok1: bool, ok2: bool,
                             status: int, earlier1: seq<string>, earlier2: seq<string>, last: string)
    requires Recorded(before, a1, ok1, true, Completed(status, earlier1 + [last]))
    requires Recorded(before, a2, ok2, true, Completed(status, earlier2 + [last]))
    ensures ok1 && ok2 && a1 == a2
    ensures a1.responseBody == Some(CStr(last))
  {
    LastChunkWins(earlier1, last);
    LastChunkWins(earlier2, last);
  }

  /** A success never clears an earlier error. */
  lemma ErrorSurvivesSuccess(s0: Snapshot, s1: Snapshot, s2: Snapshot, ok1: bool, ok2: bool,
                             message: CString, status: int, chunks: seq<string>)
    requires Recorded(s0, s1, ok1, true, Failed(message))
    requires Recorded(s1, s2, ok2, true, Completed(status, chunks))
    ensures !ok1 && ok2
    ensures s2 == Snapshot(Some(message), status, LastBody(chunks))
  {
  }

  /** The C view of an optional PHP string argument: NULL when it was omitted. */
  function CArg(s: Option<string>): (r: Option<CString>)
    ensures r.None? <==> s.None?
    ensures s.Some? ==> r == Some(CStr(s.value))
  {
    if s.None? then None else Some(CStr(s.value))
  }

  /** An `HttpClient` object: `base_url` and the `headers` list. */
  class HttpClient {
    var baseUrl: Option<CString>
    var headers: seq<CString>

    /**
     * `new HttpClient(?string $baseUrl, ?array $headers)`. A base is kept
     * only when its PHP length is non-zero; a header line is appended for
     * each string-keyed entry, in iteration order.
     */
    constructor(base: Option<string>, entries: Option<seq<Entry>>)
      ensures baseUrl == if base.Some? && |base.value| > 0 then Some(CStr(base.value)) else None
      ensures headers == InitialHeaders(if entries.Some? then entries.value else [])
    {
      var lines: seq<CString> := [];
      if entries.Some? {
        var es := entries.value;
        for i := 0 to |es|
          invariant lines == InitialHeaders(es[..i])
        {
          assert es[..i + 1][..i] == es[..i];
          if es[i].key.StrKey? {
            lines := lines + [HeaderLine(es[i].key.name, es[i].value)];
          }
        }
        assert es[..|es|] == es;
      }
      baseUrl := if base.Some? && |base.value| > 0 then Some(CStr(base.value)) else None;
      headers := lines;
    }

    /** `setHeader($key, $value)`: appends one line at the end and returns true. */
    method SetHeader(key: string, value: string) returns (ok: bool)
      modifies this
      ensures ok
      ensures headers == old(headers) + [HeaderLine(key, value)]
      ensures baseUrl == old(baseUrl)
    {
      headers := headers + [HeaderLine(key, value)];
      ok := true;
    }

    /** `getHeaders()`: walks the list from its head, one element per node. */
    method GetHeaders() returns (lines: seq<CString>)
      ensures |lines| == |headers|
      ensures forall i :: 0 <= i < |lines| ==> lines[i] == headers[i]
    {
      lines := [];
      var i := 0;
      while i < |headers|
        invariant 0 <= i <= |headers|
        invariant lines == headers[..i]
      {
        lines := lines + [headers[i]];
        i := i + 1;
      }
    }

    /** The URL a request for `path` goes to: `build_full_url` over the C view of `path`. */
    function UrlFor(path: string): (url: CString)
      reads this
      ensures baseUrl.None? ==> url == CStr(path)
      ensures baseUrl.Some? ==> baseUrl.value <= url
      ensures |CStr(path)| <= |url| && url[|url| - |CStr(path)|..] == CStr(path)
    {
      FullUrl(baseUrl, CStr(path))
    }

    /** `get($path)`. */
    method Get(g: Globals, path: string, curlInit: bool, net: Options -> Exchange) returns (ok: bool)
      modifies g
      ensures Recorded(old(g.State()), g.State(), ok, curlInit, net(Configure(UrlFor(path), "GET", None, headers)))
    {
      var url := UrlFor(path);
      ghost var ex := net(Configure(url, "GET", None, headers));
      ok := PerformRequest(g, url, "GET", None, headers, curlInit, net);
      assert Recorded(old(g.State()), g.State(), ok, curlInit, ex);
    }

    /** `post($path, ?$data)`. */
    method Post(g: Globals, path: string, data: Option<string>, curlInit: bool, net: Options -> Exchange) returns (ok: bool)
      modifies g
      ensures Recorded(old(g.State()), g.State(), ok, curlInit, net(Configure(UrlFor(path), "POST", CArg(data), headers)))
    {
      var url := UrlFor(path);
      ghost var ex := net(Configure(url, "POST", CArg(data), headers));
      ok := PerformRequest(g, url, "POST", CArg(data), headers, curlInit, net);
      assert Recorded(old(g.State()), g.State(), ok, curlInit, ex);
    }

    /** `put($path, ?$data)`. */
    method Put(g: Globals, path: string, data: Option<string>, curlInit: bool, net: Options -> Exchange) returns (ok: bool)
      modifies g
      ensures Recorded(old(g.State()), g.State(), ok, curlInit, net(Configure(UrlFor(path), "PUT", CArg(data), headers)))
    {
      var url := UrlFor(path);
      ghost var ex := net(Configure(url, "PUT", CArg(data), headers));
      ok := PerformRequest(g, url, "PUT", CArg(data), headers, curlInit, net);
      assert Recorded(old(g.State()), g.State(), ok, curlInit, ex);
    }

    /** `delete($path)`. */
    method Delete(g: Globals, path: string, curlInit: bool, net: Options -> Exchange) returns (ok: bool)
      modifies g
      ensures Recorded(old(g.State()), g.State(), ok, curlInit, net(Configure(UrlFor(path), "DELETE", None, headers)))
    {
      var url := UrlFor(path);
      ghost var ex := net(Configure(url, "DELETE", None, headers));
      ok := PerformRequest(g, url, "DELETE", None, headers, curlInit, net);
      assert Recorded(old(g.State()), g.State(), ok, curlInit, ex);
    }

    /** `getStatusCode()`: the process-wide status, whichever client set it. */
    method GetStatusCode(g: Globals) returns (code: int)
      ensures code == g.statusCode
    {
      code := g.statusCode;
    }

    /** `getResponseBody()`: the process-wide body, or null before any body was recorded. */
    method GetResponseBody(g: Globals) returns (body: Option<CString>)
      ensures body == g.responseBody
    {
      body := g.responseBody;
    }
  }
}
