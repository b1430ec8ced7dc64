/**
 * The Ruby values that flow through the option and identifier hashes, with
 * the three Ruby notions the engine relies on: truthiness (`||`), `blank?`
 * (ActiveSupport) and `String#strip`, as Ruby 1.9 defines them.
 */
module Values {

  /** A value in a caller's hash: nil, a boolean, a number, text or a record reference. */
  datatype Value =
    | Nil
    | Flag(b: bool)
    | Int(i: int)
    | Num(x: real)
    | Text(s: string)
    | Record(recordType: string, id: int)

  /** Ruby truthiness: only nil and false are false. */
  predicate Truthy(v: Value) {
    !(v.Nil? || v == Flag(false))
  }

  /** The characters C's isspace accepts, which String#strip removes in Ruby 1.9. */
  predicate IsSpace(c: char) {
    c == ' ' || ('\t' <= c <= '\r')
  }

  /** The characters of the regular-expression class \s in Ruby 1.9 (no vertical tab), used by String#blank?. */
  predicate IsBlankChar(c: char) {
    c == ' ' || c == '\t' || c == '\n' || c == '\r' || c == '\U{000C}'
  }

  /** ActiveSupport's blank?: nil, false, and text without a non-blank character. */
  predicate Blank(v: Value) {
    match v
    case Nil => true
    case Flag(b) => !b
    case Text(s) => forall i :: 0 <= i < |s| ==> IsBlankChar(s[i])
    case _ => false
  }

  /** How many white-space characters `s` starts with. */
  function LeadingSpaces(s: string): (n: nat)
    ensures n <= |s|
    ensures forall i :: 0 <= i < n ==> IsSpace(s[i])
    ensures n == |s| || !IsSpace(s[n])
  {
    if |s| > 0 && IsSpace(s[0]) then
      var m := LeadingSpaces(s[1..]);
      assert forall i :: 1 <= i <= m ==> s[i] == s[1..][i - 1];
      m + 1
    else 0
  }

  /** Whether Ruby 1.9's String#rstrip removes `c` at the end of a string: white space or NUL, in any mix. */
  predicate TrailingStrippable(c: char) {
    IsSpace(c) || c == '\0'
  }

  /** How many strippable characters `s` ends with. */
  function TrailingSpaces(s: string): (n: nat)
    ensures n <= |s|
    ensures forall i :: |s| - n <= i < |s| ==> TrailingStrippable(s[i])
    ensures n == |s| || !TrailingStrippable(s[|s| - n - 1])
  {
    if |s| > 0 && TrailingStrippable(s[|s| - 1]) then
      var m := TrailingSpaces(s[..|s| - 1]);
      assert forall i :: |s| - 1 - m <= i < |s| - 1 ==> s[i] == s[..|s| - 1][i];
      m + 1
    else 0
  }

  /** `s` without its leading white space. */
  function StripLeading(s: string): string {
    s[LeadingSpaces(s)..]
  }

  /** `s` without its trailing white space and NUL characters. */
  function StripTrailing(s: string): string {
    s[..|s| - TrailingSpaces(s)]
  }

  /** String#strip: leading white space, then trailing white space and NUL characters, removed. */
  function Strip(s: string): string {
    StripTrailing(StripLeading(s))
  }

  /** The stripped text is the piece of the input that starts after the leading white space. */
  lemma StripIsPiece(s: string)
    ensures var r, a := Strip(s), LeadingSpaces(s); a + |r| <= |s| && r == s[a..a + |r|]
  {
    var a := LeadingSpaces(s);
    var l := s[a..];
    var n := |l| - TrailingSpaces(l);
    var r := l[..n];
    assert r == Strip(s);
    var piece := s[a..a + n];
    assert |r| == n == |piece|;
    forall k | 0 <= k < n
      ensures r[k] == piece[k]
    {
      assert r[k] == l[k] == s[a + k];
    }
  }

  /** The stripped text has nothing strippable at either end. */
  lemma StripShape(s: string)
    ensures var r := Strip(s); r == [] || (!IsSpace(r[0]) && !IsSpace(r[|r| - 1]) && r[|r| - 1] != '\0')
  {
    var a := LeadingSpaces(s);
    var l := s[a..];
    var b := TrailingSpaces(l);
    var r := l[..|l| - b];
    if r != [] {
      assert a < |s| && b < |l|;
      assert r[0] == s[a] && !IsSpace(s[a]);
      assert r[|r| - 1] == l[|l| - b - 1] && !TrailingStrippable(l[|l| - b - 1]);
    }
  }

  /** Stripping twice is stripping once. */
  lemma {:induction false} StripIdempotent(s: string)
    ensures Strip(Strip(s)) == Strip(s)
  {
    var r := Strip(s);
    StripShape(s);
    StripNothingToRemove(r);
  }

  /** Text with nothing strippable at either end is its own strip. */
  lemma StripNothingToRemove(r: string)
    requires r == [] || (!IsSpace(r[0]) && !IsSpace(r[|r| - 1]) && r[|r| - 1] != '\0')
    ensures Strip(r) == r
  {
    assert LeadingSpaces(r) == 0;
    assert r[0..] == r;
    assert TrailingSpaces(r) == 0;
  }
}
