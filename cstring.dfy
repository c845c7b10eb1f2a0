/**
 * C strings: what a C function sees of a string it is handed through
 * `c_str()` or a `char` buffer, which is the text before the first NUL.
 */
module CString {

  /** A C string holds no NUL before its end. */
  predicate NoNul(s: string) {
    forall k :: 0 <= k < |s| ==> s[k] != '\0'
  }

  /**
   * `strlen`: the length of the C string at the start of `s`, which is the
   * index of its first NUL, or all of `s` if it has none.
   */
  function CLength(s: seq<char>): (n: nat)
    ensures n <= |s| && NoNul(s[..n])
    ensures n < |s| ==> s[n] == '\0'
    decreases |s|
  {
    if s == [] || s[0] == '\0' then 0
    else
      var n := 1 + CLength(s[1..]);
      assert s[..n] == [s[0]] + s[1..][..n - 1];
      n
  }

  /** The text C functions see in `s`: everything before its first NUL. */
  function CText(s: seq<char>): (t: string)
    ensures t <= s && NoNul(t)
    ensures |t| < |s| ==> s[|t|] == '\0'
  {
    s[..CLength(s)]
  }

  /** A string without NUL is its own C text. */
  lemma CTextNoNul(s: string)
    requires NoNul(s)
    ensures CText(s) == s
  {
  }
}
