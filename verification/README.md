# php-http-client core, modelled in Dafny

This project models the request-building and result-recording logic of the
`HttpClient` PHP extension (`http_client.c`), a thin wrapper over libcurl.
The network call is an input to the model. It is a function from the options
configured on the easy handle to an `Exchange`: either a failure message, or a
status code plus the body chunks libcurl handed to the write callback.
Whether `curl_easy_init` produced a handle is a boolean input.

Modules, one per piece of the source:

- `CStrings`: C string semantics. A PHP string passed as `char *` is seen up to
  its first NUL (`CStr`). `snprintf` truncates to its buffer (`Snprintf`).
  A Dafny `char` stands for one byte of a PHP string (a value 0-255), so every
  length and buffer size in the model counts bytes.
- `Url`: `build_full_url` (`FullUrl`).
- `Headers`: header lines formatted into the 1024-byte buffer, and the lines
  the constructor derives from its header array.
- `Transport`: the options `perform_request` sets (`Configure`), the exchange
  libcurl reports, and the request verb libcurl sends for given options.
- `Response`: `write_callback` and the `char *response` buffer it reallocates,
  as a class over a nullable `array<char>`.
- `Client`: the process-wide globals `last_error`, `status_code` and
  `response_body` (class `Globals`), `perform_request`, and the `HttpClient`
  object with its base URL and header list (class `HttpClient`).

The globals are process-wide in the source, so every request method and
accessor takes the one `Globals` object as a parameter, and two clients
overwrite each other's results.

The code behaves as follows, which callers may not expect:

- URL composition never trims or merges separators. A base ending in `/`
  joined with any path gives `//` (`Url.TrailingSlashDoubled`). An empty path
  yields `base + "/"`, so composing again with `""` is not idempotent
  (`Url.RejoinAddsSlash`).
- The response body is not accumulated across chunks. Each write-callback call
  replaces the buffer, so the recorded body is the last chunk only
  (`Response.LastChunkWins`). It is cut at its first NUL when read back. After
  a successful exchange with no chunk, the body becomes absent.
- A successful request does not clear `last_error`
  (`Client.ErrorSurvivesSuccess`).
- POST without a body does not send an empty body. It sets `CURLOPT_POST` and
  no `CURLOPT_POSTFIELDS`. PUT without a body sets only the custom verb.
- Header lines longer than 1023 bytes are truncated.
- There is no asynchronous mode in the code (see Left out).

## Model

| member | source | states |
|---|---|---|
| `CStrings.CStr` | http_client.c:95 | the C view of a buffer is its longest NUL-free prefix: a prefix of the buffer, followed by a NUL or by the end; a NUL-free string is its own view |
| `CStrings.Snprintf` | http_client.c:506 | `snprintf` into a buffer of `size` bytes keeps a prefix of the formatted text of min(len, size-1) bytes |
| `CStrings.CStrStopsAtNul` | http_client.c:74-75 | whatever follows the first NUL of a buffer is invisible: `CStr(s + NUL + t) == CStr(s)` |
| `Url.FullUrl` | http_client.c:86-105 | no base: the path unchanged; base and path starting with `/`: exactly base ++ path; otherwise (the empty path included) base ++ "/" ++ path, even if the base ends in `/`; the result plus terminator fits the \|base\|+\|path\|+2-byte buffer, so nothing is truncated |
| `Url.FullUrlParts` | http_client.c:98-101 | the base is a prefix and the path a suffix of every composed URL |
| `Url.EmptyPathAppendsSlash` | http_client.c:100-101 | an empty path composes to base ++ "/" |
| `Url.RejoinAddsSlash` | http_client.c:100-101 | re-composing a composed URL with "" appends one more "/" (no idempotence) |
| `Url.TrailingSlashDoubled` | http_client.c:98-101 | for every base ending in `/` and every path, the composed URL has `//` where base and path meet |
| `Headers.HeaderLine` | http_client.c:506 | the stored line is the first min(1023, n) bytes of key ++ ": " ++ value (C views), so at most 1023 bytes; a multi-byte character may be cut |
| `Headers.InitialHeaders` | http_client.c:351-362 | the constructor adds at most one line per array entry |
| `Headers.InitialHeadersAppend` | http_client.c:355-362 | lines follow the array's iteration order: the lines of a + b are those of a followed by those of b |
| `Headers.InitialHeadersStringKeys` | http_client.c:355-362 | with only string keys, line i is the header line of entry i, one per entry |
| `Headers.InitialHeadersIntKeys` | http_client.c:356 | integer-keyed entries add no line |
| `Transport.Configure` | http_client.c:285-307 | URL always set; header list set only when non-empty; POST flag exactly for POST; custom verb exactly for PUT and DELETE and equal to the method; a body only for POST and PUT, and then exactly the given data (none when absent) |
| `Transport.DispatchSendsRequestedVerb` | http_client.c:293-307 | under libcurl's option rules the request line carries POST, PUT or DELETE as asked, and GET for any other method |
| `Response.ResponseBuffer.constructor` | http_client.c:281 | the response pointer starts NULL |
| `Response.ResponseBuffer.WriteCallback` | http_client.c:64-78 | on allocation the buffer becomes exactly the chunk followed by NUL (the previous contents are dropped) and the chunk size is returned; on allocation failure the pointer becomes NULL and 0 is returned |
| `Response.ResponseBuffer.Deliver` | http_client.c:286-287 | after libcurl has called the callback for every chunk, the buffer holds the last chunk plus NUL; with no chunk it is untouched |
| `Response.ResponseBuffer.Body` | http_client.c:319 | the recorded body is absent exactly when the pointer is NULL |
| `Response.LastChunkWins` | http_client.c:69-75 | the recorded body of a delivery ending in chunk c is the C view of c, whatever came before |
| `Client.Globals.constructor` | php_http_client.h:88-93 | the globals start with no error, status 0 and no body |
| `Client.PerformRequest` | http_client.c:277-326 | (`Recorded`) no handle: returns false, nothing changes; transport failure: returns false, sets only the last error to the transport's message; success: returns true, sets the status and the body (last chunk, or none), leaves the last error |
| `Client.StaleOnFailure` | http_client.c:311-319 | after a success then a failure, status and body are the success's and the error is the failure's |
| `Client.EarlierChunksIgnored` | http_client.c:69-75 | two completed exchanges with the same status and the same last chunk leave identical recorded fields, the body being that chunk's C view: earlier chunks leave no trace |
| `Client.ErrorSurvivesSuccess` | http_client.c:311-319 | after a failure then a success, the failure's message is still the last error |
| `Client.HttpClient.constructor` | http_client.c:333-364 | a base URL is stored only when given with non-zero length; the header list is the string-keyed entries' lines in iteration order |
| `Client.HttpClient.SetHeader` | http_client.c:491-510 | appends exactly one line, the truncated "key: value", after all earlier lines; returns true; base URL unchanged |
| `Client.HttpClient.GetHeaders` | http_client.c:472-488 | returns every stored line, in list order, one element per line |
| `Client.CArg` | http_client.c:396-404 | an omitted `data` argument stays NULL, and a given one is passed as its C view (both stated in the contract) |
| `Client.HttpClient.UrlFor` | http_client.c:381 | the request URL is `build_full_url` over the C view of the path: the path's C view alone without a base, otherwise starting with the base and ending with the path's C view |
| `Client.HttpClient.Get` | http_client.c:368-391 | a GET to the composed URL with the client's headers and no body, recorded by the rule of `PerformRequest` |
| `Client.HttpClient.Post` | http_client.c:393-418 | a POST with the optional body, recorded by the rule of `PerformRequest` |
| `Client.HttpClient.Put` | http_client.c:420-445 | a PUT with the optional body, recorded by the rule of `PerformRequest` |
| `Client.HttpClient.Delete` | http_client.c:447-470 | a DELETE without body, recorded by the rule of `PerformRequest` |
| `Client.HttpClient.GetStatusCode` | http_client.c:513-518 | returns the process-wide status code |
| `Client.HttpClient.GetResponseBody` | http_client.c:520-528 | returns the process-wide body, or null when none is recorded |

## Left out

- Asynchronous mode: `async_request_thread` (http_client.c:155-167) and the
  async context record only serve a worker thread. `getAsync`, `postAsync`,
  `putAsync`, `deleteAsync` and `wait` are declared but have no implementation
  and are not in the method table. So there is no task slot to model, and
  concurrency is out of scope.
- The older `perform_request` at http_client.c:119-149. Only the thread
  function uses it. Its dispatch differs: it sets `CURLOPT_POSTFIELDS` for POST
  and PUT even when the data is NULL, and never sets `CURLOPT_POST`.
- libcurl itself. The options are a returned record and the exchange an input.
  `RequestVerb` states only which verb the options select. What libcurl sends
  as the body of a POST without `CURLOPT_POSTFIELDS` is not modelled.
- `Response.ResponseBuffer.Deliver`: libcurl aborts a transfer when the
  callback returns less than the chunk size. That path is not modelled.
  `erealloc` never returns NULL, so `Deliver` always passes a successful
  allocation.
- A failed exchange carries no chunks. Chunks written before a failure are
  freed and never recorded, so they are unobservable.
- The `size * nmemb` product in the callback: a chunk is a sequence of its
  bytes, so `size_t` overflow is not modelled.
- `status_code` is a C `long`. It is an unbounded `int` here.
- Character encoding: a `char` is one byte of a PHP string, and non-ASCII text
  is given as its encoded bytes. Decoding (UTF-8 or otherwise) is not modelled.
- `convert_to_string` on non-string header values: constructor entries carry
  their values already as strings.
- Allocation failure in `curl_slist_append`, which would replace the whole
  header list by NULL.
- Memory management: leaked previous `response_body`/`last_error` strings and
  `efree` of URLs.
- Zend glue: module init, shutdown and info; object create and free; argument
  parsing and PHP's coercion of arguments; the method table. A second explicit
  call of `__construct` on the same object is not modelled.
- `write_callback`, `build_full_url` and the object creator are each defined
  twice in the source. Each is modelled once.
