/**
  The part of ECMAScript's string library the tool relies on:
  `String.prototype.trim`, used to decide whether a committed description is blank.
 */
module JsString {

  /** ECMAScript WhiteSpace and LineTerminator code points (section 12.2 and 12.3 of ECMA-262). */
  predicate IsWhiteSpace(c: char)
  {
    || c == '\U{9}' || c == '\U{B}' || c == '\U{C}' || c == ' '
    || c == '\U{A0}' || c == '\U{FEFF}'
    || c == '\U{1680}' || ('\U{2000}' <= c <= '\U{200A}') || c == '\U{202F}'
    || c == '\U{205F}' || c == '\U{3000}'
    || c == '\U{A}' || c == '\U{D}' || c == '\U{2028}' || c == '\U{2029}'
  }

  /** True when every character of `s` is white space (so `s.trim()` is falsy). */
  predicate AllWhiteSpace(s: string)
  {
    forall i :: 0 <= i < |s| ==> IsWhiteSpace(s[i])
  }

  /** Drops leading white space. */
  function TrimStart(s: string): (r: string)
    ensures |r| <= |s| && r == s[|s| - |r|..]
    ensures AllWhiteSpace(s[..|s| - |r|])
    ensures r == [] || !IsWhiteSpace(r[0])
    decreases |s|
  {
    if |s| > 0 && IsWhiteSpace(s[0]) then TrimStart(s[1..]) else s
  }

  /** Drops trailing white space. */
  function TrimEnd(s: string): (r: string)
    ensures |r| <= |s| && r == s[..|r|]
    ensures AllWhiteSpace(s[|r|..])
    ensures r == [] || !IsWhiteSpace(r[|r| - 1])
    decreases |s|
  {
    if |s| > 0 && IsWhiteSpace(s[|s| - 1]) then TrimEnd(s[..|s| - 1]) else s
  }

  /** `s.trim()`: both ends stripped of white space. */
  function Trim(s: string): string
  {
    TrimEnd(TrimStart(s))
  }

  /** `!value.trim()` holds exactly when the value consists of white space only. */
  lemma TrimEmptyIffAllWhiteSpace(s: string)
    ensures Trim(s) == [] <==> AllWhiteSpace(s)
  {
    var t := TrimStart(s);
    if Trim(s) == [] {
      assert AllWhiteSpace(t[0..]) && t[0..] == t;
      assert t == [];
      assert s[..|s|] == s;
    } else {
      var r := Trim(s);
      assert !IsWhiteSpace(r[|r| - 1]);
      assert r[|r| - 1] == t[|r| - 1];
      assert t[|r| - 1] == s[|s| - |t| + |r| - 1];
    }
  }
}
