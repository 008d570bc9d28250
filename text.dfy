/**
 The character classes and the `trim` operation that the form validators of
 the sign-in and sign-up screens rely on. A string is a sequence of
 characters; the model works with code points and does not reproduce the
 UTF-16 view a browser has of a string.
 */
module Text {

  /** The characters the regular-expression class `\s` matches, which are also
      exactly the characters `String.prototype.trim` strips: the ECMAScript
      WhiteSpace and LineTerminator code points. */
  predicate IsWhitespace(c: char)
  {
    || c == '\t' || c == '\n' || c == '\U{B}' || c == '\U{C}' || c == '\r' || c == ' '
    || c == '\U{A0}' || c == '\U{1680}'
    || ('\U{2000}' <= c <= '\U{200A}')
    || c == '\U{2028}' || c == '\U{2029}' || c == '\U{202F}' || c == '\U{205F}'
    || c == '\U{3000}' || c == '\U{FEFF}'
  }

  /** The characters the regular-expression class `\d` matches: ASCII digits only. */
  predicate IsAsciiDigit(c: char)
  {
    '0' <= c <= '9'
  }

  predicate AllWhitespace(s: string)
  {
    forall i | 0 <= i < |s| :: IsWhitespace(s[i])
  }

  /** `s` with its leading whitespace removed. */
  function TrimStart(s: string): (r: string)
    ensures |r| <= |s| && r == s[|s| - |r|..]
    ensures r == [] || !IsWhitespace(r[0])
    ensures forall i | 0 <= i < |s| - |r| :: IsWhitespace(s[i])
  {
    if s == [] || !IsWhitespace(s[0]) then s else TrimStart(s[1..])
  }

  /** `s` with its trailing whitespace removed. */
  function TrimEnd(s: string): (r: string)
    ensures |r| <= |s| && r == s[..|r|]
    ensures r == [] || !IsWhitespace(r[|r| - 1])
    ensures forall i | |r| <= i < |s| :: IsWhitespace(s[i])
  {
    if s == [] || !IsWhitespace(s[|s| - 1]) then s else TrimEnd(s[..|s| - 1])
  }

  /** `String.prototype.trim`: strips both ends. The result is a prefix of
      what follows the leading whitespace, neither begins nor ends with
      whitespace, and everything dropped before and after it is whitespace. */
  function Trim(s: string): (r: string)
    ensures r == [] || (!IsWhitespace(r[0]) && !IsWhitespace(r[|r| - 1]))
    ensures r <= s[|s| - |TrimStart(s)|..]
    ensures forall i | 0 <= i < |s| - |TrimStart(s)| :: IsWhitespace(s[i])
    ensures forall i | |s| - |TrimStart(s)| + |r| <= i < |s| :: IsWhitespace(s[i])
  {
    var t := TrimStart(s);
    var r := TrimEnd(t);
    TrailingWhitespace(s, t, |r|);
    r
  }

  /** If the tail of `t` from index `n` is whitespace and `t` is a suffix of
      `s`, the matching tail of `s` is whitespace. */
  lemma {:induction false} TrailingWhitespace(s: string, t: string, n: nat)
    requires |t| <= |s| && t == s[|s| - |t|..] && n <= |t|
    requires forall k | n <= k < |t| :: IsWhitespace(t[k])
    ensures forall i | |s| - |t| + n <= i < |s| :: IsWhitespace(s[i])
  {
    var d := |s| - |t|;
    forall i | d + n <= i < |s|
      ensures IsWhitespace(s[i])
    {
      assert s[i] == t[i - d];
    }
  }

  /** The JavaScript test `!s.trim()`: the trimmed string is empty. */
  predicate IsBlank(s: string)
  {
    Trim(s) == []
  }

  /** A string is blank exactly when every one of its characters is whitespace;
      in particular the empty string is blank and a string that holds a
      non-whitespace character is not. */
  lemma BlankIffAllWhitespace(s: string)
    ensures IsBlank(s) <==> AllWhitespace(s)
  {
    var t := TrimStart(s);
    if IsBlank(s) {
      assert TrimEnd(t) == [];
    }
  }
}
