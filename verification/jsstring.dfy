/** The JavaScript string behaviour the scraper relies on: the white-space set
    shared by `String.prototype.trim` and the regular-expression class `\s`,
    `trim`, `replace(/\n/g, " ")`, `includes`, and the character comparison a
    regular expression with the `i` flag (and without `u`) performs.
    Strings are sequences of Unicode characters; every character the scraper
    compares against lies in the Basic Multilingual Plane. */
module JsString {

  /** ECMAScript WhiteSpace and LineTerminator: what `trim` strips and `\s` matches. */
  predicate IsSpace(c: char) {
    || c == '\t' || c == '\n' || c == '\U{B}' || c == '\U{C}' || c == '\r' || c == ' '
    || c == '\U{A0}' || c == '\U{1680}' || ('\U{2000}' <= c <= '\U{200A}')
    || c == '\U{2028}' || c == '\U{2029}' || c == '\U{202F}' || c == '\U{205F}'
    || c == '\U{3000}' || c == '\U{FEFF}'
  }

  /** ECMAScript LineTerminator: the characters a regular-expression `.` does not match. */
  predicate IsLineTerminator(c: char) {
    c == '\n' || c == '\r' || c == '\U{2028}' || c == '\U{2029}'
  }

  predicate AllSpace(s: string) {
    forall k | 0 <= k < |s| :: IsSpace(s[k])
  }

  /** White space followed by white space is white space. */
  lemma SpaceThenSpaces(s: string, n: nat)
    requires 0 < n <= |s| && IsSpace(s[0]) && AllSpace(s[1..][..n - 1])
    ensures AllSpace(s[..n])
  {
    forall k | 0 <= k < n
      ensures IsSpace(s[..n][k])
    {
      if k > 0 {
        assert s[..n][k] == s[1..][..n - 1][k - 1];
      }
    }
  }

  /** The length of the white-space run that starts `s`. */
  function LeadingSpace(s: string): (n: nat)
    ensures n <= |s| && AllSpace(s[..n])
    ensures n == |s| || !IsSpace(s[n])
  {
    if |s| > 0 && IsSpace(s[0]) then
      var m := LeadingSpace(s[1..]);
      SpaceThenSpaces(s, m + 1);
      m + 1
    else 0
  }

  /** `s.trimStart()`: the longest suffix that does not start with white space. */
  function TrimStart(s: string): (r: string)
    ensures |r| <= |s| && r == s[|s| - |r|..]
    ensures AllSpace(s[..|s| - |r|])
    ensures r == [] || !IsSpace(r[0])
  {
    s[LeadingSpace(s)..]
  }

  /** White space followed by white space is white space, from the end. */
  lemma SpacesThenSpace(s: string, n: nat)
    requires 0 < n <= |s| && IsSpace(s[|s| - 1]) && AllSpace(s[..|s| - 1][|s| - n..])
    ensures AllSpace(s[|s| - n..])
  {
    var t := s[|s| - n..];
    forall k | 0 <= k < n
      ensures IsSpace(t[k])
    {
      if k < n - 1 {
        assert t[k] == s[..|s| - 1][|s| - n..][k];
      }
    }
  }

  /** The length of the white-space run that ends `s`. */
  function TrailingSpace(s: string): (n: nat)
    ensures n <= |s| && AllSpace(s[|s| - n..])
    ensures n == |s| || !IsSpace(s[|s| - n - 1])
  {
    if |s| > 0 && IsSpace(s[|s| - 1]) then
      var m := TrailingSpace(s[..|s| - 1]);
      SpacesThenSpace(s, m + 1);
      m + 1
    else 0
  }

  /** `s.trimEnd()`: the longest prefix that does not end with white space. */
  function TrimEnd(s: string): (r: string)
    ensures |r| <= |s| && r == s[..|r|]
    ensures AllSpace(s[|r|..])
    ensures r == [] || !IsSpace(r[|r| - 1])
  {
    s[..|s| - TrailingSpace(s)]
  }

  /** `r` is `s` with its white space removed at both ends and nowhere else:
      a slice of `s` with only white space before and after it, which neither
      starts nor ends with white space. */
  predicate IsTrimOf(r: string, s: string) {
    && (r == [] || (!IsSpace(r[0]) && !IsSpace(r[|r| - 1])))
    && exists a | 0 <= a <= |s| - |r| :: r == s[a..a + |r|] && AllSpace(s[..a]) && AllSpace(s[a + |r|..])
  }

  /** `s.trim()`. */
  function Trim(s: string): (r: string)
    ensures IsTrimOf(r, s)
    ensures r == [] <==> AllSpace(s)
    ensures |r| <= |s|
  {
    TrimBothEnds(s, TrimStart(s), TrimEnd(TrimStart(s)));
    TrimEnd(TrimStart(s))
  }

  /** Trimming the start and then the end gives the trimmed form. */
  lemma TrimBothEnds(s: string, t: string, r: string)
    requires t == TrimStart(s) && r == TrimEnd(t)
    ensures IsTrimOf(r, s)
    ensures r == [] <==> AllSpace(s)
  {
    var a := |s| - |t|;
    assert s[a..a + |r|] == r && s[a + |r|..] == t[|r|..];
    if r == [] {
      SpacesJoin(s, a);
    } else {
      assert s[a] == r[0];
    }
  }

  /** A string has exactly one trimmed form: `IsTrimOf` pins the text down. */
  lemma TrimUnique(r: string, s: string)
    requires IsTrimOf(r, s)
    ensures r == Trim(s)
  {
    var a :| 0 <= a <= |s| - |r| && r == s[a..a + |r|] && AllSpace(s[..a]) && AllSpace(s[a + |r|..]);
    TrimAt(r, s, a);
  }

  lemma TrimAt(r: string, s: string, a: nat)
    requires r == [] || (!IsSpace(r[0]) && !IsSpace(r[|r| - 1]))
    requires a <= |s| - |r| && r == s[a..a + |r|] && AllSpace(s[..a]) && AllSpace(s[a + |r|..])
    ensures r == Trim(s)
  {
    if r == [] {
      SpacesJoin(s, a);
    } else {
      var t := s[a..];
      assert s[a] == r[0];
      StartsAt(s, a);
      assert t[|r|..] == s[a + |r|..];
      assert t[|r| - 1] == r[|r| - 1];
      EndsAt(t, |r|);
      assert t[..|r|] == r;
    }
  }

  /** `trimStart` stops at the first character that is not white space. */
  lemma {:induction false} StartsAt(s: string, a: nat)
    requires a <= |s| && AllSpace(s[..a]) && (a == |s| || !IsSpace(s[a]))
    ensures TrimStart(s) == s[a..]
  {
    if a > 0 {
      assert s[..a][0] == s[0];
      assert s[1..][..a - 1] == s[..a][1..];
      StartsAt(s[1..], a - 1);
    }
  }

  /** `trimEnd` stops after the last character that is not white space. */
  lemma {:induction false} EndsAt(s: string, n: nat)
    requires n <= |s| && AllSpace(s[n..]) && (n == 0 || !IsSpace(s[n - 1]))
    ensures TrimEnd(s) == s[..n]
    decreases |s|
  {
    if n < |s| {
      assert s[n..][|s| - 1 - n] == s[|s| - 1];
      assert forall k | 0 <= k < |s| - 1 - n :: s[..|s| - 1][n..][k] == s[n..][k];
      EndsAt(s[..|s| - 1], n);
    } else {
      assert s[..n] == s;
    }
  }

  /** White space followed by white space is white space. */
  lemma SpacesJoin(s: string, i: nat)
    requires i <= |s| && AllSpace(s[..i]) && AllSpace(s[i..])
    ensures AllSpace(s)
  {
    assert forall k | 0 <= k < i :: s[k] == s[..i][k];
    assert forall k | i <= k < |s| :: s[k] == s[i..][k - i];
  }

  /** Trimming a trimmed string changes nothing. */
  lemma TrimIdempotent(s: string)
    ensures Trim(Trim(s)) == Trim(s)
  {
    var t := Trim(s);
    assert TrimStart(t) == t;
    assert TrimEnd(t) == t;
  }

  /** `s.replace(/\n/g, " ")`: every line feed becomes one space, nothing else moves. */
  function ReplaceNewlines(s: string): (r: string)
    ensures |r| == |s|
    ensures forall k | 0 <= k < |s| :: r[k] == (if s[k] == '\n' then ' ' else s[k])
  {
    if s == [] then [] else [if s[0] == '\n' then ' ' else s[0]] + ReplaceNewlines(s[1..])
  }

  /** `sub` occurs in `s` starting at index `i`. */
  predicate OccursAt(s: string, sub: string, i: int) {
    0 <= i <= |s| - |sub| && s[i..i + |sub|] == sub
  }

  /** `s.includes(sub)`: `sub` occurs in `s` at some index. */
  predicate Includes(s: string, sub: string) {
    exists i | 0 <= i <= |s| - |sub| :: OccursAt(s, sub, i)
  }

  /** Whether subject character `c` matches lower-case pattern character `p`
      under the `i` flag without `u`: the comparison upper-cases both sides and
      never folds a non-ASCII character onto an ASCII one, so of the pattern
      characters used here only ASCII letters and `ü` have a second form. */
  predicate FoldsTo(c: char, p: char) {
    || c == p
    || ('a' <= p <= 'z' && c as int == p as int - 32)
    || (p == '\U{FC}' && c == '\U{DC}')
  }

  /** The case-insensitive literal `lit` (written in lower case) matches `s` at index `i`. */
  predicate MatchesAt(s: string, i: int, lit: string) {
    0 <= i && i + |lit| <= |s| && forall k | 0 <= k < |lit| :: FoldsTo(s[i + k], lit[k])
  }

  /** A case form of `lit` inside a longer text matches there. */
  lemma MatchesInside(s: string, i: nat, w: string, lit: string)
    requires i + |w| <= |s| && s[i..i + |w|] == w && |w| == |lit| && MatchesAt(w, 0, lit)
    ensures MatchesAt(s, i, lit)
  {
    forall k | 0 <= k < |lit| ensures FoldsTo(s[i + k], lit[k]) {
      assert s[i + k] == w[0 + k];
    }
  }
}
