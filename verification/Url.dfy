/**
 * `build_full_url`: joins the client's optional base URL and a request path.
 * Only the path's first character is inspected; the base's last character
 * never is, so no separator is ever removed.
 */
module Url {
  import opened Wrappers
  import opened CStrings

  /** The test `path[0] == '/'`; on the empty string it reads the terminator. */
  predicate StartsWithSlash(path: CString) {
    |path| > 0 && path[0] == '/'
  }

  /**
   * The composed URL. With a base it is formatted into a buffer of
   * |base| + |path| + 2 bytes; the contract shows that this buffer always
   * suffices, so `snprintf` never truncates.
   */
  function FullUrl(base: Option<CString>, path: CString): (url: CString)
    ensures base.None? ==> url == path
    ensures base.Some? && StartsWithSlash(path) ==> url == base.value + path
    ensures base.Some? && !StartsWithSlash(path) ==> url == base.value + "/" + path
    ensures base.Some? ==> |url| + 1 <= |base.value| + |path| + 2
  {
    match base
    case None => path
    case Some(b) =>
      var size := |b| + |path| + 2;
      if StartsWithSlash(path) then Snprintf(size, b + path) else Snprintf(size, b + "/" + path)
  }

  /** The base is always a prefix and the path always a suffix of the result. */
  lemma FullUrlParts(base: Option<CString>, path: CString)
    ensures base.Some? ==> base.value <= FullUrl(base, path)
    ensures |path| <= |FullUrl(base, path)|
    ensures FullUrl(base, path)[|FullUrl(base, path)| - |path|..] == path
  {
  }

  /** An empty path still gets a separator: the base followed by "/". */
  lemma EmptyPathAppendsSlash(base: CString)
    ensures FullUrl(Some(base), "") == base + "/"
  {
  }

  /**
   * Composing again with an empty path is not idempotent: every round adds
   * one more "/".
   */
  lemma RejoinAddsSlash(base: CString, path: CString)
    ensures FullUrl(Some(FullUrl(Some(base), path)), "") == FullUrl(Some(base), path) + "/"
  {
  }

  /**
   * A base that ends in "/" is never trimmed: whatever the path, the composed
   * URL carries "//" where base and path meet.
   */
  lemma TrailingSlashDoubled(base: CString, path: CString)
    requires |base| > 0 && base[|base| - 1] == '/'
    ensures FullUrl(Some(base), path)[|base| - 1..|base| + 1] == "//"
  {
  }
}
