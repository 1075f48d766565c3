/** Prefix and substring tests shared by the C and the Python code. */
module Strings {
  /** `g_str_has_prefix` and Python's `str.startswith`. */
  predicate HasPrefix(s: string, prefix: string)
  {
    |prefix| <= |s| && forall i :: 0 <= i < |prefix| ==> s[i] == prefix[i]
  }

  /** Whether `p` occurs in `s` (Python's `s.find(p) >= 0`). */
  predicate Contains(s: string, p: string)
  {
    exists i :: 0 <= i <= |s| && HasPrefix(s[i..], p)
  }
}
