/**
 * Header lines: each is "key: value" formatted into a 1024-byte stack buffer,
 * and the constructor's header array contributes one line per string key, in
 * the array's iteration order.
 */
module Headers {
  import opened CStrings

  /** `char header_line[1024]` in the constructor and in `setHeader`. */
  const HeaderBufferSize: nat := 1024

  /** A PHP array key: integer keys are skipped by the constructor. */
  datatype ArrayKey = IntKey(index: int) | StrKey(name: string)

  /** One entry of the constructor's header array, its value already converted to a string. */
  datatype Entry = Entry(key: ArrayKey, value: string)

  /** The untruncated line "key: value", over the C views of key and value. */
  function Joined(key: string, value: string): CString {
    CStr(key) + ": " + CStr(value)
  }

  /** The line `snprintf(header_line, 1024, "%s: %s", key, value)` builds. */
  function HeaderLine(key: string, value: string): (line: CString)
    ensures line <= Joined(key, value)
    ensures |line| == if |Joined(key, value)| < HeaderBufferSize then |Joined(key, value)| else HeaderBufferSize - 1
    ensures |line| <= 1023
  {
    Snprintf(HeaderBufferSize, Joined(key, value))
  }

  /** The lines the constructor appends for `entries`, visited first to last. */
  function InitialHeaders(entries: seq<Entry>): (lines: seq<CString>)
    ensures |lines| <= |entries|
  {
    if entries == [] then []
    else
      var last := entries[|entries| - 1];
      InitialHeaders(entries[..|entries| - 1])
        + (if last.key.StrKey? then [HeaderLine(last.key.name, last.value)] else [])
  }

  /** Splitting the array splits the header lines: iteration order is kept. */
  lemma {:induction false} InitialHeadersAppend(a: seq<Entry>, b: seq<Entry>)
    ensures InitialHeaders(a + b) == InitialHeaders(a) + InitialHeaders(b)
    decreases |b|
  {
    if b == [] {
      assert a + b == a;
    } else {
      var n := |b| - 1;
      assert (a + b)[..|a + b| - 1] == a + b[..n];
      InitialHeadersAppend(a, b[..n]);
    }
  }

  /** With only string keys every entry gives exactly its own line, in place. */
  lemma {:induction false} InitialHeadersStringKeys(entries: seq<Entry>)
    requires forall i :: 0 <= i < |entries| ==> entries[i].key.StrKey?
    ensures |InitialHeaders(entries)| == |entries|
    ensures forall i :: 0 <= i < |entries| ==>
      InitialHeaders(entries)[i] == HeaderLine(entries[i].key.name, entries[i].value)
  {
    if entries != [] {
      InitialHeadersStringKeys(entries[..|entries| - 1]);
    }
  }

  /** Integer-keyed entries contribute nothing. */
  lemma {:induction false} InitialHeadersIntKeys(entries: seq<Entry>)
    requires forall i :: 0 <= i < |entries| ==> entries[i].key.IntKey?
    ensures InitialHeaders(entries) == []
  {
    if entries != [] {
      InitialHeadersIntKeys(entries[..|entries| - 1]);
    }
  }
}
