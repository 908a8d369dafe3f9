/** The JavaScript regular-expression character classes the credential rules rely on.
    `\d` is the ASCII digits only; `.` matches everything except the four line terminators. */
module Chars {

  predicate IsLower(c: char) { 'a' <= c <= 'z' }

  predicate IsUpper(c: char) { 'A' <= c <= 'Z' }

  predicate IsDigit(c: char) { '0' <= c <= '9' }

  /** `[^A-Za-z0-9]` */
  predicate IsOther(c: char) { !IsLower(c) && !IsUpper(c) && !IsDigit(c) }

  /** LF, CR, LINE SEPARATOR and PARAGRAPH SEPARATOR: the characters `.` does not match. */
  predicate IsLineTerminator(c: char)
  {
    c == '\n' || c == '\r' || c == '\U{2028}' || c == '\U{2029}'
  }

  /** `/cls/.test(s)` for a one-character class: some character of `s` is in the class. */
  predicate Contains(s: string, cls: char -> bool)
  {
    exists i :: 0 <= i < |s| && cls(s[i])
  }

  /** The characters of `s` before its first line terminator. */
  function FirstLine(s: string): (r: string)
    ensures |r| <= |s| && r == s[..|r|]
    ensures forall i :: 0 <= i < |r| ==> !IsLineTerminator(r[i])
    ensures |r| < |s| ==> IsLineTerminator(s[|r|])
  {
    if s == [] || IsLineTerminator(s[0]) then [] else [s[0]] + FirstLine(s[1..])
  }

  lemma ContainsPrefix(s: string, t: string, cls: char -> bool)
    requires Contains(s, cls)
    ensures Contains(s + t, cls)
  {
    var i :| 0 <= i < |s| && cls(s[i]);
    assert (s + t)[i] == s[i];
  }
}
