/**
 * `String.prototype.trim` as the add form applies it to the store name and the
 * barcode number: leading and trailing ECMAScript white space and line
 * terminators are removed.
 */
module Text {

  /** ECMAScript WhiteSpace (TAB, VT, FF, ZWNBSP and the Zs space separators) and LineTerminator characters. */
  const WhiteSpace: set<char> := {
    '\t', '\n', '\U{000B}', '\U{000C}', '\r', ' ', '\U{00A0}', '\U{1680}',
    '\U{2000}', '\U{2001}', '\U{2002}', '\U{2003}', '\U{2004}', '\U{2005}',
    '\U{2006}', '\U{2007}', '\U{2008}', '\U{2009}', '\U{200A}',
    '\U{2028}', '\U{2029}', '\U{202F}', '\U{205F}', '\U{3000}', '\U{FEFF}'
  }

  predicate IsWhiteSpace(c: char) {
    c in WhiteSpace
  }

  predicate Blank(s: string) {
    forall i :: 0 <= i < |s| ==> IsWhiteSpace(s[i])
  }

  /** Drops the leading white space: the result is a suffix of `s`. */
  function TrimStart(s: string): (r: string)
    ensures |r| <= |s| && r == s[|s| - |r|..]
    ensures Blank(s[..|s| - |r|])
    ensures r == [] || !IsWhiteSpace(r[0])
    decreases |s|
  {
    if s == [] || !IsWhiteSpace(s[0]) then s
    else
      var r := TrimStart(s[1..]);
      LeadingStep(s, |s| - |r|);
      r
  }

  /** A white space character in front of a blank slice and a suffix of the rest. */
  lemma LeadingStep(s: string, k: nat)
    requires 0 < k <= |s| && IsWhiteSpace(s[0]) && Blank(s[1..][..k - 1])
    ensures Blank(s[..k]) && s[1..][k - 1..] == s[k..]
  {
    assert forall i :: 0 < i < k ==> s[..k][i] == s[1..][..k - 1][i - 1];
  }

  /** Drops the trailing white space: the result is a prefix of `s`. */
  function TrimEnd(s: string): (r: string)
    ensures |r| <= |s| && r == s[..|r|]
    ensures Blank(s[|r|..])
    ensures r == [] || !IsWhiteSpace(r[|r| - 1])
  {
    if s != [] && IsWhiteSpace(s[|s| - 1]) then
      var r := TrimEnd(s[..|s| - 1]);
      TrailingStep(s, |r|);
      r
    else s
  }

  /** A blank slice followed by a white space character, and a prefix of the rest. */
  lemma TrailingStep(s: string, k: nat)
    requires k < |s| && IsWhiteSpace(s[|s| - 1]) && Blank(s[..|s| - 1][k..])
    ensures Blank(s[k..]) && s[..|s| - 1][..k] == s[..k]
  {
    assert forall i :: 0 <= i < |s| - 1 - k ==> s[k..][i] == s[..|s| - 1][k..][i];
  }

  /**
   * `s.trim()`: `s` is white space, then the suffix `TrimStart(s)`; that
   * suffix is the result, then white space. The result is empty exactly when
   * `s` is all white space, and otherwise starts and ends with a visible
   * character.
   */
  function Trim(s: string): (r: string)
    ensures var t := TrimStart(s);
      && |t| <= |s| && t == s[|s| - |t|..] && Blank(s[..|s| - |t|])
      && |r| <= |t| && r == t[..|r|] && Blank(t[|r|..])
    ensures r == [] <==> Blank(s)
    ensures r != [] ==> !IsWhiteSpace(r[0]) && !IsWhiteSpace(r[|r| - 1])
  {
    TrimStartEmpty(s);
    TrimEndEmpty(TrimStart(s));
    TrimEnd(TrimStart(s))
  }

  lemma TrimStartEmpty(s: string)
    ensures TrimStart(s) == [] <==> Blank(s)
  {
    var r := TrimStart(s);
    if r == [] {
      assert s[..|s| - |r|] == s;
    } else {
      assert s[|s| - |r|] == r[0];
    }
  }

  lemma TrimEndEmpty(s: string)
    ensures TrimEnd(s) == [] <==> Blank(s)
  {
    var r := TrimEnd(s);
    if r == [] {
      assert s[|r|..] == s;
    } else {
      assert s[|r| - 1] == r[|r| - 1];
    }
  }

  /** Trimming an already trimmed string changes nothing. */
  lemma TrimIdempotent(s: string)
    ensures Trim(Trim(s)) == Trim(s)
  {
    var r := Trim(s);
    if r != [] {
      assert TrimStart(r) == r;
      assert TrimEnd(r) == r;
    }
  }
}
