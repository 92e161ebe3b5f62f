/**
 * The part of JavaScript's `String.prototype.trim` that the follow-up
 * handler relies on. `trim` removes every leading and trailing code point
 * that ECMA-262 classifies as WhiteSpace or LineTerminator.
 */
module JsString {

  /** WhiteSpace (TAB, VT, FF, SP, NBSP, ZWNBSP and the Zs category) and LineTerminator (LF, CR, LS, PS). */
  predicate IsWhitespace(c: char) {
    var n := c as int;
    n == 0x09 || n == 0x0A || n == 0x0B || n == 0x0C || n == 0x0D || n == 0x20 ||
    n == 0xA0 || n == 0x1680 || (0x2000 <= n <= 0x200A) ||
    n == 0x2028 || n == 0x2029 || n == 0x202F || n == 0x205F || n == 0x3000 || n == 0xFEFF
  }

  predicate AllWhitespace(s: string) {
    forall i :: 0 <= i < |s| ==> IsWhitespace(s[i])
  }

  /** Drops the leading whitespace. */
  function TrimStart(s: string): string
  {
    if |s| > 0 && IsWhitespace(s[0]) then TrimStart(s[1..]) else s
  }

  /** Drops the trailing whitespace. */
  function TrimEnd(s: string): string
  {
    if |s| > 0 && IsWhitespace(s[|s| - 1]) then TrimEnd(s[..|s| - 1]) else s
  }

  /** `s.trim()`. */
  function Trim(s: string): string
  {
    TrimEnd(TrimStart(s))
  }

  /** `TrimStart(s)` is the suffix of `s` that begins at its first non-whitespace character. */
  lemma {:induction false} TrimStartSpec(s: string)
    ensures var r := TrimStart(s);
      && |r| <= |s| && r == s[|s| - |r|..]
      && AllWhitespace(s[..|s| - |r|])
      && (r != [] ==> !IsWhitespace(r[0]))
  {
    if |s| > 0 && IsWhitespace(s[0]) {
      TrimStartSpec(s[1..]);
      var r := TrimStart(s[1..]);
      assert s[1..][..|s| - 1 - |r|] == s[1..|s| - |r|];
      assert s[..|s| - |r|] == [s[0]] + s[1..|s| - |r|];
    }
  }

  /** `TrimEnd(s)` is the prefix of `s` that ends at its last non-whitespace character. */
  lemma {:induction false} TrimEndSpec(s: string)
    ensures var r := TrimEnd(s);
      && |r| <= |s| && r == s[..|r|]
      && AllWhitespace(s[|r|..])
      && (r != [] ==> !IsWhitespace(r[|r| - 1]))
  {
    if |s| > 0 && IsWhitespace(s[|s| - 1]) {
      var p := s[..|s| - 1];
      TrimEndSpec(p);
      var r := TrimEnd(p);
      assert p[|r|..] == s[|r|..|s| - 1];
      assert s[|r|..] == s[|r|..|s| - 1] + [s[|s| - 1]];
    }
  }

  /**
   * `s.trim()` is the slice of `s` starting after its leading whitespace;
   * everything outside the slice is whitespace, and the slice neither starts
   * nor ends with whitespace.
   */
  lemma TrimSpec(s: string)
    ensures var r, k := Trim(s), |s| - |TrimStart(s)|;
      && 0 <= k && k + |r| <= |s| && r == s[k..k + |r|]
      && AllWhitespace(s[..k]) && AllWhitespace(s[k + |r|..])
      && (r != [] ==> !IsWhitespace(r[0]) && !IsWhitespace(r[|r| - 1]))
  {
    var t := TrimStart(s);
    TrimStartSpec(s);
    TrimEndSpec(t);
    var r := TrimEnd(t);
    var k := |s| - |t|;
    assert s[k..k + |r|] == t[..|r|];
    assert s[k + |r|..] == t[|r|..];
  }

  /** `s.trim() === ''` holds exactly when every character of `s` is whitespace (in particular for ""). */
  lemma BlankIffAllWhitespace(s: string)
    ensures Trim(s) == "" <==> AllWhitespace(s)
  {
    var t := TrimStart(s);
    TrimStartSpec(s);
    TrimEndSpec(t);
    assert s == s[..|s| - |t|] + t;
  }
}
