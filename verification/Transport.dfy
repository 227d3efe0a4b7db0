/**
 * What `perform_request` hands to libcurl, and what comes back. The network
 * exchange itself is a foreign call: it is an input to the model, a function
 * from the configured options to an outcome.
 */
module Transport {
  import opened Wrappers
  import opened CStrings

  /** The easy-handle options `perform_request` sets that depend on its arguments. */
  datatype Options = Options(
    url: CString,                         // CURLOPT_URL
    httpHeader: Option<seq<CString>>,     // CURLOPT_HTTPHEADER, set only for a non-empty list
    post: bool,                           // CURLOPT_POST = 1
    customRequest: Option<CString>,       // CURLOPT_CUSTOMREQUEST
    postFields: Option<CString>)          // CURLOPT_POSTFIELDS

  /**
   * The result of `curl_easy_perform`: a failure with the text
   * `curl_easy_strerror` gives for it, or a completed exchange with the
   * response code and the body chunks passed to the write callback, in order.
   */
  datatype Exchange =
    | Failed(message: CString)
    | Completed(status: int, chunks: seq<string>)

  /**
   * The options set for one request. `verb` (the C `method` argument) is compared with `strcmp`
   * against "POST", "PUT" and "DELETE"; any other method sets none of the
   * verb or body options.
   */
  function Configure(url: CString, verb: string, data: Option<CString>, headers: seq<CString>): (opts: Options)
    ensures opts.url == url
    ensures opts.httpHeader == if headers == [] then None else Some(headers)
    ensures opts.post <==> verb == "POST"
    ensures opts.customRequest.Some? <==> verb == "PUT" || verb == "DELETE"
    ensures opts.customRequest.Some? ==> opts.customRequest.value == verb
    ensures opts.postFields.Some? ==> verb == "POST" || verb == "PUT"
    ensures verb == "POST" || verb == "PUT" ==> opts.postFields == data
  {
    var plain := Options(url, if headers == [] then None else Some(headers), false, None, None);
    if verb == "POST" then plain.(post := true, postFields := data)
    else if verb == "PUT" then plain.(customRequest := Some("PUT"), postFields := data)
    else if verb == "DELETE" then plain.(customRequest := Some("DELETE"))
    else plain
  }

  /**
   * The verb libcurl puts on the request line for a set of options:
   * CURLOPT_CUSTOMREQUEST replaces it outright; otherwise CURLOPT_POST or
   * CURLOPT_POSTFIELDS make the request a POST; GET is the default.
   */
  function RequestVerb(opts: Options): string {
    if opts.customRequest.Some? then opts.customRequest.value
    else if opts.post || opts.postFields.Some? then "POST"
    else "GET"
  }

  /**
   * Dispatch sends the verb that was asked for: POST, PUT and DELETE go out
   * as themselves, with or without a body, and every other method as GET.
   */
  lemma DispatchSendsRequestedVerb(url: CString, verb: string, data: Option<CString>, headers: seq<CString>)
    ensures RequestVerb(Configure(url, verb, data, headers))
      == if verb == "POST" || verb == "PUT" || verb == "DELETE" then verb else "GET"
  {
  }
}
