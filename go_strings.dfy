/**
 * The few functions of Go's `strings` and `unicode` packages that the core
 * uses, on strings seen as sequences of Unicode code points.
 */
module GoStrings {

  /** Go's `unicode.IsSpace`: the ASCII white space characters, NEL, NBSP and
      the other characters of Unicode's White_Space property. */
  predicate IsSpace(c: char) {
    || c == '\t' || c == '\n' || c == '\U{0B}' || c == '\U{0C}' || c == '\r' || c == ' '
    || c == '\U{85}' || c == '\U{A0}' || c == '\U{1680}'
    || ('\U{2000}' <= c <= '\U{200A}')
    || c == '\U{2028}' || c == '\U{2029}' || c == '\U{202F}' || c == '\U{205F}' || c == '\U{3000}'
  }

  /** In the Latin-1 range the white space characters are exactly the eight
      Go tests one by one; above it they lie between U+1680 and U+3000. */
  lemma IsSpaceLatin1(c: char)
    ensures c < '\U{100}' ==> (IsSpace(c) <==> c in "\t\n\U{0B}\U{0C}\r \U{85}\U{A0}")
    ensures '\U{100}' <= c ==> IsSpace(c) ==> '\U{1680}' <= c <= '\U{3000}'
  {
  }

  /** Every character of `s` is white space. */
  predicate AllSpace(s: string) {
    forall k | 0 <= k < |s| :: IsSpace(s[k])
  }

  /** `s` neither starts nor ends with white space. */
  predicate Trimmed(s: string) {
    s == [] || (!IsSpace(s[0]) && !IsSpace(s[|s| - 1]))
  }

  /** `r` is the part `s[i..j]` of `s`, and only white space lies outside it. */
  predicate SpaceCut(s: string, r: string, i: int, j: int) {
    0 <= i <= j <= |s| && r == s[i..j] && AllSpace(s[..i]) && AllSpace(s[j..])
  }

  /** The number of white space characters `s` starts with. */
  function LeadingSpaces(s: string): (k: nat)
    ensures k <= |s|
    ensures forall m | 0 <= m < k :: IsSpace(s[m])
    ensures k < |s| ==> !IsSpace(s[k])
    decreases |s|
  {
    if s == [] || !IsSpace(s[0]) then 0
    else
      var k := LeadingSpaces(s[1..]);
      assert forall m | 1 <= m < k + 1 :: s[m] == s[1..][m - 1];
      k + 1
  }

  /** The number of white space characters `s` ends with. */
  function TrailingSpaces(s: string): (k: nat)
    ensures k <= |s|
    ensures forall m | |s| - k <= m < |s| :: IsSpace(s[m])
    ensures k < |s| ==> !IsSpace(s[|s| - k - 1])
    decreases |s|
  {
    if s == [] || !IsSpace(s[|s| - 1]) then 0
    else
      var k := TrailingSpaces(s[..|s| - 1]);
      assert forall m | |s| - k - 1 <= m < |s| - 1 :: s[m] == s[..|s| - 1][m];
      k + 1
  }

  /** `strings.TrimLeftFunc(s, unicode.IsSpace)`. */
  function TrimLeft(s: string): string {
    s[LeadingSpaces(s)..]
  }

  /** `strings.TrimRightFunc(s, unicode.IsSpace)`. */
  function TrimRight(s: string): string {
    s[..|s| - TrailingSpaces(s)]
  }

  /** `strings.TrimSpace`: drops the leading and trailing white space and
      nothing else; a string that is already trimmed is returned as it is. */
  function TrimSpace(s: string): (r: string)
    ensures Trimmed(r)
    ensures exists i, j :: SpaceCut(s, r, i, j)
    ensures Trimmed(s) ==> r == s
  {
    var i := LeadingSpaces(s);
    var l := s[i..];
    var t := TrailingSpaces(l);
    var j := i + (|l| - t);
    assert l[..|l| - t] == s[i..j];
    assert forall m | 0 <= m < |s[..i]| :: s[..i][m] == s[m];
    assert forall m | 0 <= m < |s[j..]| :: s[j..][m] == l[|l| - t + m];
    assert SpaceCut(s, s[i..j], i, j);
    TrimRight(TrimLeft(s))
  }

  /** `strings.Index(s, string(c))`: the position of the first `c` in `s`,
      or -1 when `s` has none. */
  function IndexOf(s: string, c: char): (r: int)
    ensures -1 <= r < |s|
    ensures r == -1 <==> c !in s
    ensures 0 <= r ==> s[r] == c && c !in s[..r]
    decreases |s|
  {
    if s == [] then -1
    else if s[0] == c then 0
    else
      var k := IndexOf(s[1..], c);
      if k < 0 then -1 else k + 1
  }

  /** White space in front of a string that does not start with white space
      is exactly what `TrimLeft` counts. */
  lemma {:induction false} LeadingSpacesBefore(w: string, v: string)
    requires AllSpace(w) && (v == [] || !IsSpace(v[0]))
    ensures LeadingSpaces(w + v) == |w|
    decreases |w|
  {
    if w == [] {
      assert w + v == v;
    } else {
      assert (w + v)[0] == w[0];
      assert (w + v)[1..] == w[1..] + v;
      LeadingSpacesBefore(w[1..], v);
    }
  }

  /** Trimming a trimmed string behind white space gives the string back. */
  lemma TrimSpaceAfterSpace(w: string, v: string)
    requires AllSpace(w) && Trimmed(v)
    ensures TrimSpace(w + v) == v
  {
    LeadingSpacesBefore(w, v);
    assert (w + v)[|w|..] == v;
  }
}
