/**
 * The two pieces of C string semantics the client relies on: a NUL-terminated
 * buffer denotes only the characters before its first NUL, and `snprintf`
 * truncates its output to fit the buffer it is given.
 */
module CStrings {
  /**
   * A C string: the characters before the terminator, never a NUL itself.
   * Throughout the model a `char` stands for one byte of a PHP string
   * (a value 0-255), so lengths and buffer sizes count bytes; non-ASCII text
   * is given as its encoded bytes.
   */
  type CString = s: string | '\0' !in s

  /**
   * The C string a NUL-terminated buffer holding `s` denotes: what `strlen`,
   * `%s`, `estrdup` and `RETURN_STRING` see of it. A PHP string may hold NUL
   * bytes; handing its character pointer to C code cuts it at the first one.
   */
  function CStr(s: string): (r: CString)
    ensures r <= s
    ensures |r| < |s| ==> s[|r|] == '\0'
    ensures '\0' !in s ==> r == s
  {
    if s == [] || s[0] == '\0' then [] else [s[0]] + CStr(s[1..])
  }

  /**
   * The text `snprintf(buf, size, fmt, ...)` leaves in `buf` when `formatted`
   * is the full expansion of `fmt`: at most `size - 1` characters, a prefix of
   * the expansion, then the terminator.
   */
  function Snprintf(size: nat, formatted: CString): (r: CString)
    requires 0 < size
    ensures r <= formatted
    ensures |r| == if |formatted| < size then |formatted| else size - 1
  {
    if |formatted| < size then formatted else formatted[..size - 1]
  }

  /** Whatever follows the first NUL of a buffer is invisible to C string code. */
  lemma {:induction false} CStrStopsAtNul(s: string, t: string)
    ensures CStr(s + ['\0'] + t) == CStr(s)
  {
    if s != [] && s[0] != '\0' {
      assert (s + ['\0'] + t)[1..] == s[1..] + ['\0'] + t;
      CStrStopsAtNul(s[1..], t);
    }
  }
}
