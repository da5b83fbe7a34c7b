/** The JavaScript string operations the pages rely on: `String.prototype.trim`
    and the truthiness of an optional string. Strings are sequences of code
    points; JavaScript counts UTF-16 code units instead. */
module JsStrings {
  import opened Wrappers

  /** The code points `trim` strips: ECMAScript's WhiteSpace (tab, vertical tab,
      form feed, space, no-break space, zero-width no-break space and every
      other space separator) and LineTerminator (line feed, carriage return,
      line and paragraph separator) productions. */
  predicate IsWhitespace(c: char) {
    var n := c as int;
    n == 0x09 || n == 0x0A || n == 0x0B || n == 0x0C || n == 0x0D ||
    n == 0x20 || n == 0xA0 || n == 0x1680 || (0x2000 <= n <= 0x200A) ||
    n == 0x2028 || n == 0x2029 || n == 0x202F || n == 0x205F ||
    n == 0x3000 || n == 0xFEFF
  }

  predicate AllWhitespace(s: string) {
    forall c :: c in s ==> IsWhitespace(c)
  }

  /** Neither end of `s` is whitespace. */
  predicate Trimmed(s: string) {
    s == [] || (!IsWhitespace(s[0]) && !IsWhitespace(s[|s| - 1]))
  }

  /** `t` is `s` without a prefix of whitespace, and does not itself start
      with whitespace. */
  predicate StripsLeading(s: string, t: string) {
    |t| <= |s| && t == s[|s| - |t|..] && AllWhitespace(s[..|s| - |t|]) &&
    (t == [] || !IsWhitespace(t[0]))
  }

  /** `r` is `s` without a suffix of whitespace, and does not itself end
      with whitespace. */
  predicate StripsTrailing(s: string, r: string) {
    |r| <= |s| && r == s[..|r|] && AllWhitespace(s[|r|..]) &&
    (r == [] || !IsWhitespace(r[|r| - 1]))
  }

  /** `r` is the slice of `s` at offset `k`, with only whitespace before
      and after it. */
  predicate FramedByWhitespace(s: string, k: nat, r: string) {
    k + |r| <= |s| && r == s[k..k + |r|] &&
    AllWhitespace(s[..k]) && AllWhitespace(s[k + |r|..])
  }

  /** `s` with its leading whitespace removed. */
  function TrimStart(s: string): (r: string)
    ensures StripsLeading(s, r)
  {
    if s != [] && IsWhitespace(s[0]) then
      var r := TrimStart(s[1..]);
      assert s[..|s| - |r|] == [s[0]] + s[1..][..|s| - 1 - |r|];
      r
    else
      s
  }

  /** `s` with its trailing whitespace removed. */
  function TrimEnd(s: string): (r: string)
    ensures StripsTrailing(s, r)
  {
    if s != [] && IsWhitespace(s[|s| - 1]) then
      var r := TrimEnd(s[..|s| - 1]);
      assert s[|r|..] == s[..|s| - 1][|r|..] + [s[|s| - 1]];
      r
    else
      s
  }

  /** `String.prototype.trim`: the slice of `s` left once the whitespace at
      both ends is gone. It starts where `TrimStart` starts, and neither of
      its ends is whitespace. */
  function Trim(s: string): (r: string)
    ensures FramedByWhitespace(s, |s| - |TrimStart(s)|, r)
    ensures Trimmed(r)
  {
    var t := TrimStart(s);
    var r := TrimEnd(t);
    TrimSlices(s, t, r);
    r
  }

  /** Stripping the leading and then the trailing whitespace leaves a
      trimmed slice framed by whitespace. */
  lemma TrimSlices(s: string, t: string, r: string)
    requires StripsLeading(s, t) && StripsTrailing(t, r)
    ensures FramedByWhitespace(s, |s| - |t|, r) && Trimmed(r)
  {
    var k := |s| - |t|;
    assert s[k + |r|..] == t[|r|..];
    assert r != [] ==> r[0] == t[0];
  }

  /** The JavaScript test `!s.trim()`. */
  predicate IsBlank(s: string) {
    Trim(s) == ""
  }

  /** A string is blank exactly when every character of it is whitespace. */
  lemma BlankIffAllWhitespace(s: string)
    ensures IsBlank(s) <==> AllWhitespace(s)
  {
  }

  /** Trimming changes nothing in a string whose ends are not whitespace. */
  lemma TrimmedIsFixed(s: string)
    requires Trimmed(s)
    ensures Trim(s) == s
  {
  }

  /** Trimming twice is trimming once. */
  lemma TrimIdempotent(s: string)
    ensures Trim(Trim(s)) == Trim(s)
  {
    TrimmedIsFixed(Trim(s));
  }

  /** JavaScript truthiness of a string that may be null or undefined: the
      empty string is falsy too. */
  predicate Truthy(s: Option<string>) {
    s.Some? && s.value != ""
  }
}
