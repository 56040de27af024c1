/**
 * Cleaning a project name for display: `name.split(/[^\w\s.$]+/)[0].trim()`,
 * that is, the part of the name before the first character that is not a
 * word character, white space, `.` or `$`, without surrounding white space.
 * The poster uses the same rule without `.` among the allowed characters.
 */
module Sanitize {

  /** `\w` of a regular expression without the `u` flag: ASCII letters, digits and `_`. */
  predicate IsWordChar(c: char) {
    ('a' <= c <= 'z') || ('A' <= c <= 'Z') || ('0' <= c <= '9') || c == '_'
  }

  /** `\s`, which is also the set of characters `trim()` removes. */
  predicate IsJsWhitespace(c: char) {
    var n := c as int;
    (9 <= n <= 13) || n == 0x20 || n == 0xA0 || n == 0x1680 || (0x2000 <= n <= 0x200A)
    || n == 0x2028 || n == 0x2029 || n == 0x202F || n == 0x205F || n == 0x3000 || n == 0xFEFF
  }

  /** A character the split pattern does not match. */
  predicate Allowed(c: char, allowDot: bool) {
    IsWordChar(c) || IsJsWhitespace(c) || c == '$' || (allowDot && c == '.')
  }

  /** `split(...)[0]`: the longest prefix made only of allowed characters. */
  function AllowedPrefix(s: string, allowDot: bool): (r: string)
    ensures r <= s
    ensures forall i :: 0 <= i < |r| ==> Allowed(r[i], allowDot)
    ensures |r| < |s| ==> !Allowed(s[|r|], allowDot)
  {
    if s != [] && Allowed(s[0], allowDot) then [s[0]] + AllowedPrefix(s[1..], allowDot) else []
  }

  /** What `trim()` removes at the front. */
  function TrimStart(s: string): (r: string)
    ensures |r| <= |s| && r == s[|s| - |r|..]
    ensures r == [] || !IsJsWhitespace(r[0])
    ensures forall i :: 0 <= i < |s| - |r| ==> IsJsWhitespace(s[i])
  {
    if s != [] && IsJsWhitespace(s[0]) then
      var r := TrimStart(s[1..]);
      assert forall i :: 1 <= i < |s| - |r| ==> s[i] == s[1..][i - 1];
      r
    else s
  }

  /** What `trim()` removes at the back. */
  function TrimEnd(s: string): (r: string)
    ensures r <= s
    ensures r == [] || !IsJsWhitespace(r[|r| - 1])
    ensures forall i :: |r| <= i < |s| ==> IsJsWhitespace(s[i])
  {
    if s != [] && IsJsWhitespace(s[|s| - 1]) then
      var r := TrimEnd(s[..|s| - 1]);
      assert forall i :: |r| <= i < |s| - 1 ==> s[i] == s[..|s| - 1][i];
      r
    else s
  }

  /**
   * `trim()`: `s` without its leading white space (`TrimStart`) and then
   * without its trailing white space; what is left has none at either end.
   */
  function Trim(s: string): (r: string)
    ensures r <= TrimStart(s)
    ensures forall i :: |r| <= i < |TrimStart(s)| ==> IsJsWhitespace(TrimStart(s)[i])
    ensures r == [] || (!IsJsWhitespace(r[0]) && !IsJsWhitespace(r[|r| - 1]))
  {
    TrimEnd(TrimStart(s))
  }

  /** Only allowed characters, and no white space at either end. */
  predicate Clean(r: string, allowDot: bool) {
    && (forall i :: 0 <= i < |r| ==> Allowed(r[i], allowDot))
    && (r == [] || (!IsJsWhitespace(r[0]) && !IsJsWhitespace(r[|r| - 1])))
  }

  /** The rule itself, with or without `.` among the allowed characters. */
  function SanitizeWith(name: string, allowDot: bool): (r: string)
    ensures Clean(r, allowDot)
  {
    var p := AllowedPrefix(name, allowDot);
    TrimKeepsAllowed(p, allowDot);
    Trim(p)
  }

  lemma TrimKeepsAllowed(p: string, allowDot: bool)
    requires forall i :: 0 <= i < |p| ==> Allowed(p[i], allowDot)
    ensures forall i :: 0 <= i < |Trim(p)| ==> Allowed(Trim(p)[i], allowDot)
  {
    var t := TrimStart(p);
    var k := |p| - |t|;
    assert forall i :: 0 <= i < |t| ==> Allowed(t[i], allowDot) by {
      forall i | 0 <= i < |t|
        ensures Allowed(t[i], allowDot)
      {
        assert t[i] == p[k + i];
      }
    }
    var r := Trim(p);
    forall i | 0 <= i < |r|
      ensures Allowed(r[i], allowDot)
    {
      assert r[i] == t[i];
    }
  }

  /** Without `.` among the allowed characters, a clean string has no `.` at all. */
  lemma CleanWithoutDot(r: string)
    requires Clean(r, false)
    ensures '.' !in r
  {
    forall i | 0 <= i < |r|
      ensures r[i] != '.'
    {
      assert Allowed(r[i], false);
    }
  }

  /** `sanitizeName` of the shared utilities. */
  function SanitizeName(name: string): (r: string)
    ensures Clean(r, true)
  {
    SanitizeWith(name, true)
  }

  /** A name whose first character is not allowed sanitises to the empty string. */
  lemma StartsDisallowed(name: string, allowDot: bool)
    requires name != [] && !Allowed(name[0], allowDot)
    ensures SanitizeWith(name, allowDot) == []
  {
  }

  lemma {:induction false} AllAllowedPrefix(s: string, allowDot: bool)
    requires forall i :: 0 <= i < |s| ==> Allowed(s[i], allowDot)
    ensures AllowedPrefix(s, allowDot) == s
  {
    if s != [] {
      AllAllowedPrefix(s[1..], allowDot);
    }
  }

  /** A name made only of allowed characters is just trimmed. */
  lemma AllAllowed(name: string, allowDot: bool)
    requires forall i :: 0 <= i < |name| ==> Allowed(name[i], allowDot)
    ensures SanitizeWith(name, allowDot) == Trim(name)
  {
    AllAllowedPrefix(name, allowDot);
  }

  /** Trimming a string without white space at either end changes nothing. */
  lemma TrimmedStaysPut(s: string)
    requires s == [] || (!IsJsWhitespace(s[0]) && !IsJsWhitespace(s[|s| - 1]))
    ensures Trim(s) == s
  {
  }

  /** Sanitising twice is sanitising once. */
  lemma SanitizeIdempotent(name: string, allowDot: bool)
    ensures SanitizeWith(SanitizeWith(name, allowDot), allowDot) == SanitizeWith(name, allowDot)
  {
    var r := SanitizeWith(name, allowDot);
    AllAllowedPrefix(r, allowDot);
    TrimmedStaysPut(r);
  }
}
