/**
 * The two string operations of JavaScript the views rely on: `String.prototype.trim`
 * and `length`, which counts UTF-16 code units rather than characters.
 */
module JsText {

  /** The code points `trim` strips: ECMAScript's WhiteSpace and LineTerminator. */
  predicate IsTrimmable(c: char) {
    || c == '\U{0009}' || c == '\U{000B}' || c == '\U{000C}' || c == ' ' || c == '\U{00A0}' || c == '\U{FEFF}'
    || c == '\U{1680}' || ('\U{2000}' <= c <= '\U{200A}') || c == '\U{202F}' || c == '\U{205F}' || c == '\U{3000}'
    || c == '\n' || c == '\r' || c == '\U{2028}' || c == '\U{2029}'
  }

  /** A string that `trim` turns into the empty (falsy) string. */
  predicate IsBlank(s: string) {
    forall i :: 0 <= i < |s| ==> IsTrimmable(s[i])
  }

  /** `s.trimStart()`: the suffix left after dropping leading whitespace. */
  function TrimStart(s: string): (r: string)
    ensures |r| <= |s| && r == s[|s| - |r|..]
    ensures forall i :: 0 <= i < |s| - |r| ==> IsTrimmable(s[i])
    ensures r != [] ==> !IsTrimmable(r[0])
  {
    if s != [] && IsTrimmable(s[0]) then TrimStart(s[1..]) else s
  }

  /** `s.trimEnd()`: the prefix left after dropping trailing whitespace. */
  function TrimEnd(s: string): (r: string)
    ensures |r| <= |s| && r == s[..|r|]
    ensures forall i :: |r| <= i < |s| ==> IsTrimmable(s[i])
    ensures r != [] ==> !IsTrimmable(r[|r| - 1])
  {
    if s != [] && IsTrimmable(s[|s| - 1]) then TrimEnd(s[..|s| - 1]) else s
  }

  /** `s.trim()`: an infix of `s` that neither starts nor ends with whitespace, and is empty exactly for blank input. */
  function Trim(s: string): (r: string)
    ensures |r| <= |s|
    ensures r != [] ==> !IsTrimmable(r[0]) && !IsTrimmable(r[|r| - 1])
    ensures r == [] <==> IsBlank(s)
    ensures exists k :: 0 <= k <= |s| - |r| && IsBlank(s[..k]) && r == s[k..][..|r|] && IsBlank(s[k..][|r|..])
  {
    TrimmedIsInfix(s);
    TrimEnd(TrimStart(s))
  }

  /** What `trimStart` and `trimEnd` drop is whitespace on either side of what they keep. */
  lemma TrimmedIsInfix(s: string)
    ensures var r := TrimEnd(TrimStart(s));
      exists k :: 0 <= k <= |s| - |r| && IsBlank(s[..k]) && r == s[k..][..|r|] && IsBlank(s[k..][|r|..])
  {
    var t := TrimStart(s);
    var r := TrimEnd(t);
    var k := |s| - |t|;
    LeadingIsBlank(s);
    TrailingIsBlank(t);
    assert s[k..] == t;
    assert IsBlank(s[..k]) && r == s[k..][..|r|] && IsBlank(s[k..][|r|..]);
  }

  /** `trimStart` drops only whitespace. */
  lemma LeadingIsBlank(s: string)
    ensures IsBlank(s[..|s| - |TrimStart(s)|])
  {
    var k := |s| - |TrimStart(s)|;
    forall i | 0 <= i < k ensures IsTrimmable(s[..k][i]) {
      assert s[..k][i] == s[i];
    }
  }

  /** `trimEnd` drops only whitespace. */
  lemma TrailingIsBlank(t: string)
    ensures IsBlank(t[|TrimEnd(t)|..])
  {
    var n := |TrimEnd(t)|;
    forall i | 0 <= i < |t| - n ensures IsTrimmable(t[n..][i]) {
      assert t[n..][i] == t[n + i];
    }
  }

  /** `s.length`: one unit per character, two for a character outside the Basic Multilingual Plane. */
  function Utf16Length(s: string): (n: nat)
    ensures |s| <= n <= 2 * |s|
  {
    if s == [] then 0 else (if s[0] as int > 0xFFFF then 2 else 1) + Utf16Length(s[1..])
  }
}
