/**
 * JavaScript's `String.prototype.trim`, which the chat client applies to the
 * message input before deciding whether to send it.
 */
module JsString {

  /** ECMAScript WhiteSpace and LineTerminator code points. */
  const Whitespace: set<char> := {
    '\U{9}', '\U{A}', '\U{B}', '\U{C}', '\U{D}', ' ', '\U{A0}', '\U{1680}',
    '\U{2000}', '\U{2001}', '\U{2002}', '\U{2003}', '\U{2004}', '\U{2005}',
    '\U{2006}', '\U{2007}', '\U{2008}', '\U{2009}', '\U{200A}',
    '\U{2028}', '\U{2029}', '\U{202F}', '\U{205F}', '\U{3000}', '\U{FEFF}'
  }

  predicate IsWhitespace(c: char)
  {
    c in Whitespace
  }

  predicate AllWhitespace(s: string)
  {
    forall i :: 0 <= i < |s| ==> IsWhitespace(s[i])
  }

  /** The number of whitespace characters at the start of `s`. */
  function LeadingWhitespace(s: string): (n: nat)
    ensures n <= |s|
    ensures forall i :: 0 <= i < n ==> IsWhitespace(s[i])
    ensures n == |s| || !IsWhitespace(s[n])
  {
    if s == [] || !IsWhitespace(s[0]) then 0
    else 1 + LeadingWhitespace(s[1..])
  }

  /** Where the trailing whitespace of `s` starts. */
  function TrailingWhitespaceStart(s: string): (j: nat)
    ensures j <= |s|
    ensures forall i :: j <= i < |s| ==> IsWhitespace(s[i])
    ensures j == 0 || !IsWhitespace(s[j - 1])
  {
    if s == [] || !IsWhitespace(s[|s| - 1]) then |s|
    else TrailingWhitespaceStart(s[..|s| - 1])
  }

  function TrimStart(s: string): string
  {
    s[LeadingWhitespace(s)..]
  }

  function TrimEnd(s: string): string
  {
    s[..TrailingWhitespaceStart(s)]
  }

  /** `trim`: never longer than its input, and neither starts nor ends with whitespace. */
  function Trim(s: string): (t: string)
    ensures |t| <= |s|
    ensures t == [] || (!IsWhitespace(t[0]) && !IsWhitespace(t[|t| - 1]))
  {
    TrimEnd(TrimStart(s))
  }

  /**
   * `trim` removes exactly the leading and trailing whitespace: the result is a
   * contiguous slice of the input, everything cut off on either side is
   * whitespace, and the result neither starts nor ends with whitespace.
   */
  lemma TrimIsMaximalSlice(s: string)
    ensures exists i, j :: (0 <= i <= j <= |s| && Trim(s) == s[i..j]
                            && AllWhitespace(s[..i]) && AllWhitespace(s[j..]))
    ensures Trim(s) == [] || (!IsWhitespace(Trim(s)[0]) && !IsWhitespace(Trim(s)[|Trim(s)| - 1]))
  {
    var i := LeadingWhitespace(s);
    var a := s[i..];
    var e := TrailingWhitespaceStart(a);
    var j := i + e;
    assert Trim(s) == a[..e] == s[i..j];
    assert AllWhitespace(s[j..]) by {
      forall t | 0 <= t < |s| - j ensures IsWhitespace(s[j..][t]) {
        assert s[j..][t] == a[e + t];
      }
    }
    if e > 0 {
      assert a[..e][0] == s[i];
    }
  }

  /** A string trims to the empty string exactly when every character is whitespace. */
  lemma TrimEmptyIffBlank(s: string)
    ensures Trim(s) == [] <==> AllWhitespace(s)
  {
    var i := LeadingWhitespace(s);
    var a := s[i..];
    if Trim(s) == [] {
      // what is left after the leading whitespace is all trailing whitespace, and cannot start with any
      assert TrailingWhitespaceStart(a) == 0;
    }
  }
}
