/**
 * `write_callback` and the response buffer it writes into. Every call
 * reallocates the buffer to the size of the current chunk plus a terminator
 * and copies the chunk to offset 0, so the buffer only ever holds the most
 * recent chunk.
 */
module Response {
  import opened Wrappers
  import opened CStrings

  /** The body a completed exchange leaves behind: the C view of its last chunk, or none. */
  function LastBody(chunks: seq<string>): Option<CString> {
    if chunks == [] then None else Some(CStr(chunks[|chunks| - 1]))
  }

  /** The `char *response` that CURLOPT_WRITEDATA points at. */
  class ResponseBuffer {
    var data: array?<char>

    /** `char *response = NULL`. */
    constructor()
      ensures data == null
    {
      data := null;
    }

    /**
     * One call of the write callback with a chunk of `|contents|` bytes.
     * `allocOk` is whether `erealloc` returned a buffer; when it did not the
     * pointer is overwritten with NULL and 0 is returned.
     */
    method WriteCallback(contents: string, allocOk: bool) returns (written: nat)
      modifies this
      ensures allocOk ==> data != null && fresh(data) && data[..] == contents + ['\0'] && written == |contents|
      ensures !allocOk ==> data == null && written == 0
    {
      if !allocOk {
        data := null;
        return 0;
      }
      var a := new char[|contents| + 1];
      forall i | 0 <= i < |contents| {
        a[i] := contents[i];
      }
      a[|contents|] := '\0';
      data := a;
      written := |contents|;
    }

    /**
     * libcurl calling the callback once per chunk during `curl_easy_perform`.
     * `erealloc` never returns NULL (it aborts the request instead), so every
     * call succeeds and returns the chunk's size.
     */
    method Deliver(chunks: seq<string>)
      modifies this
      ensures chunks == [] ==> data == old(data)
      ensures chunks != [] ==> data != null && data[..] == chunks[|chunks| - 1] + ['\0']
    {
      var i := 0;
      while i < |chunks|
        invariant 0 <= i <= |chunks|
        invariant i == 0 ==> data == old(data)
        invariant i > 0 ==> data != null && data[..] == chunks[i - 1] + ['\0']
      {
        var written := WriteCallback(chunks[i], true);
        i := i + 1;
      }
    }

    /** The string `response` denotes once handed on: NULL, or a NUL-terminated C string. */
    function Body(): (body: Option<CString>)
      reads this, data
      ensures data == null <==> body.None?
    {
      if data == null then None else Some(CStr(data[..]))
    }
  }

  /** Earlier chunks leave no trace: only the last one is recorded. */
  lemma LastChunkWins(earlier: seq<string>, last: string)
    ensures LastBody(earlier + [last]) == Some(CStr(last))
  {
  }
}
