/**
 * The part of JavaScript string handling the quiz form relies on:
 * `String.prototype.trim`, which strips ECMAScript white space and line
 * terminators from both ends.
 */
module Text {

  /**
   * ECMAScript WhiteSpace (TAB, VT, FF, SP, NBSP, ZWNBSP and the
   * space separators of category Zs) and LineTerminator (LF, CR, LS, PS).
   */
  predicate IsWhitespace(c: char) {
    c == '\t' || c == '\n' || c == '\U{000B}' || c == '\U{000C}' || c == '\r' || c == ' '
    || c == '\U{00A0}' || c == '\U{1680}' || ('\U{2000}' <= c <= '\U{200A}')
    || c == '\U{2028}' || c == '\U{2029}' || c == '\U{202F}' || c == '\U{205F}'
    || c == '\U{3000}' || c == '\U{FEFF}'
  }

  /**
   * A string of white space only. The quiz form tests `!s.trim()`, which by
   * TrimEmptyIffBlank holds exactly for these strings.
   */
  predicate IsBlank(s: string) {
    forall i :: 0 <= i < |s| ==> IsWhitespace(s[i])
  }

  /** `s` without its leading white space. */
  function TrimStart(s: string): (r: string)
    ensures |r| <= |s|
  {
    if s != [] && IsWhitespace(s[0]) then TrimStart(s[1..]) else s
  }

  /** `s` without its trailing white space. */
  function TrimEnd(s: string): (r: string)
    ensures |r| <= |s|
  {
    if s != [] && IsWhitespace(s[|s| - 1]) then TrimEnd(s[..|s| - 1]) else s
  }

  /** `s.trim()`: never longer than `s`, and neither starting nor ending with white space. */
  function Trim(s: string): (r: string)
    ensures |r| <= |s|
    ensures r == [] || (!IsWhitespace(r[0]) && !IsWhitespace(r[|r| - 1]))
  {
    TrimStartShape(s);
    TrimEndShape(TrimStart(s));
    TrimEnd(TrimStart(s))
  }

  /** TrimStart leaves a suffix that starts with a visible character, and everything it drops is white space. */
  lemma {:induction false} TrimStartShape(s: string)
    ensures var r := TrimStart(s);
      r == s[|s| - |r|..] && (r == [] || !IsWhitespace(r[0])) && IsBlank(s[..|s| - |r|])
  {
    if s != [] && IsWhitespace(s[0]) {
      TrimStartShape(s[1..]);
      var r := TrimStart(s);
      assert s[..|s| - |r|] == [s[0]] + s[1..][..|s| - 1 - |r|];
    }
  }

  /** TrimEnd leaves a prefix that ends with a visible character, and everything it drops is white space. */
  lemma {:induction false} TrimEndShape(s: string)
    ensures var r := TrimEnd(s);
      r == s[..|r|] && (r == [] || !IsWhitespace(r[|r| - 1])) && IsBlank(s[|r|..])
  {
    if s != [] && IsWhitespace(s[|s| - 1]) {
      TrimEndShape(s[..|s| - 1]);
      var r := TrimEnd(s);
      assert s[|r|..] == s[..|s| - 1][|r|..] + [s[|s| - 1]];
    }
  }

  /** How many characters TrimStart removes. */
  function LeadingWhitespace(s: string): nat {
    |s| - |TrimStart(s)|
  }

  /**
   * `s.trim()` is the slice of `s` left after removing white space from both
   * ends: it neither starts nor ends with white space, and what was removed
   * on either side is all white space.
   */
  lemma TrimShape(s: string)
    ensures var r, k := Trim(s), LeadingWhitespace(s);
      && k + |r| <= |s| && r == s[k..k + |r|]
      && (r == [] || (!IsWhitespace(r[0]) && !IsWhitespace(r[|r| - 1])))
      && IsBlank(s[..k]) && IsBlank(s[k + |r|..])
  {
    var t := TrimStart(s);
    var r := TrimEnd(t);
    var k := LeadingWhitespace(s);
    TrimStartShape(s);
    TrimEndShape(t);
    assert t == s[k..];
    assert r == s[k..k + |r|];
    assert r != [] ==> r[0] == t[0];
    assert s[k + |r|..] == t[|r|..];
  }

  /** Trimming leaves nothing exactly when every character is white space. */
  lemma TrimEmptyIffBlank(s: string)
    ensures Trim(s) == "" <==> IsBlank(s)
  {
    var t := TrimStart(s);
    TrimStartShape(s);
    TrimEndShape(t);
    if Trim(s) == "" {
      assert IsBlank(t[0..]);
      assert s == s[..|s| - |t|] + t;
    }
  }
}
