/**
 The JavaScript string primitives the client relies on: the `\s` / `trim`
 whitespace set, stripping a character class from both ends, ASCII
 `toLowerCase`, `includes`, and `split('\n')[0]`.
 */
module Text {

  /** JavaScript's WhiteSpace and LineTerminator code points: the set `\s` and `trim` use. */
  predicate IsSpace(c: char) {
    || c == '\t' || c == '\n' || c == '\U{000B}' || c == '\U{000C}' || c == '\r' || c == ' '
    || c == '\U{00A0}' || c == '\U{1680}' || ('\U{2000}' <= c <= '\U{200A}')
    || c == '\U{2028}' || c == '\U{2029}' || c == '\U{202F}' || c == '\U{205F}'
    || c == '\U{3000}' || c == '\U{FEFF}'
  }

  predicate IsUpper(c: char) {
    'A' <= c <= 'Z'
  }

  /** `toLowerCase` on one character, restricted to the ASCII letters. */
  function LowerChar(c: char): (r: char)
    ensures !IsUpper(r)
    ensures IsSpace(r) <==> IsSpace(c)
    ensures !IsUpper(c) ==> r == c
  {
    if IsUpper(c) then (c as int + 32) as char else c
  }

  /** `toLowerCase` on a string: same length, each character lowered in place. */
  function Lower(s: string): (r: string)
    ensures |r| == |s|
    ensures forall i :: 0 <= i < |s| ==> r[i] == LowerChar(s[i])
  {
    seq(|s|, i requires 0 <= i < |s| => LowerChar(s[i]))
  }

  lemma LowerIdempotent(s: string)
    ensures Lower(Lower(s)) == Lower(s)
  {
  }

  /** A string with no upper-case letter is its own lower-case form. */
  lemma LowerClean(s: string)
    requires forall i :: 0 <= i < |s| ==> !IsUpper(s[i])
    ensures Lower(s) == s
  {
  }

  lemma LowerAppend(a: string, b: string)
    ensures Lower(a + b) == Lower(a) + Lower(b)
  {
    assert forall i :: 0 <= i < |a + b| ==> Lower(a + b)[i] == (Lower(a) + Lower(b))[i];
  }

  /** Every character of `s` at an index in `[lo, hi)` is in the class `p`. */
  predicate AllIn(s: string, lo: int, hi: int, p: char -> bool) {
    forall i :: lo <= i < hi && 0 <= i < |s| ==> p(s[i])
  }

  /** The length of the longest prefix of `s` whose characters are all in `p`. */
  function LeadingCount(s: string, p: char -> bool): (n: nat)
    ensures n <= |s|
    ensures AllIn(s, 0, n, p)
    ensures n == |s| || !p(s[n])
  {
    if s == [] || !p(s[0]) then 0
    else 1 + LeadingCount(s[1..], p)
  }

  /** The length of the longest suffix of `s` whose characters are all in `p`. */
  function TrailingCount(s: string, p: char -> bool): (n: nat)
    ensures n <= |s|
    ensures AllIn(s, |s| - n, |s|, p)
    ensures n == |s| || !p(s[|s| - n - 1])
  {
    if s == [] || !p(s[|s| - 1]) then 0
    else 1 + TrailingCount(s[..|s| - 1], p)
  }

  /** `r` is `s` with a run of `p` characters removed at each end. */
  ghost predicate StrippedFrom(r: string, s: string, p: char -> bool) {
    exists i :: StrippedAt(r, s, p, i)
  }

  /** `r` sits at offset `i` of `s`, with only `p` characters before and after it. */
  predicate StrippedAt(r: string, s: string, p: char -> bool, i: int) {
    0 <= i <= |s| - |r| && s[i..i + |r|] == r && AllIn(s, 0, i, p) && AllIn(s, i + |r|, |s|, p)
  }

  /** Neither end of `r` is in `p`. */
  predicate CleanEdges(r: string, p: char -> bool) {
    r == [] || (!p(r[0]) && !p(r[|r| - 1]))
  }

  /**
   Removes the maximal run of `p` characters from the start and then from the
   end: the result is the infix of `s` between those runs, untouched inside.
   */
  function Strip(s: string, p: char -> bool): (r: string)
    ensures StrippedFrom(r, s, p)
    ensures CleanEdges(r, p)
  {
    var a := LeadingCount(s, p);
    var b := TrailingCount(s[a..], p);
    StripWitness(s, p, a, b);
    s[a..|s| - b]
  }

  lemma {:induction false} StripWitness(s: string, p: char -> bool, a: nat, b: nat)
    requires a == LeadingCount(s, p) && b == TrailingCount(s[a..], p)
    ensures StrippedAt(s[a..|s| - b], s, p, a)
    ensures CleanEdges(s[a..|s| - b], p)
  {
    StripInfix(s, p, a, b);
    StripEdges(s, p, a, b);
  }

  lemma {:induction false} StripInfix(s: string, p: char -> bool, a: nat, b: nat)
    requires a == LeadingCount(s, p) && b == TrailingCount(s[a..], p)
    ensures StrippedAt(s[a..|s| - b], s, p, a)
  {
    var t := s[a..];
    forall k | |s| - b <= k < |s|
      ensures p(s[k])
    {
      assert s[k] == t[k - a];
    }
  }

  lemma {:induction false} StripEdges(s: string, p: char -> bool, a: nat, b: nat)
    requires a == LeadingCount(s, p) && b == TrailingCount(s[a..], p)
    ensures CleanEdges(s[a..|s| - b], p)
  {
    var t := s[a..];
    var r := s[a..|s| - b];
    if r != [] {
      assert r[0] == t[0];
      assert r[|r| - 1] == t[|t| - b - 1];
    }
  }

  /** Stripping leaves nothing exactly when every character is in the class. */
  lemma StripEmpty(s: string, p: char -> bool)
    ensures Strip(s, p) == [] <==> AllIn(s, 0, |s|, p)
  {
    if Strip(s, p) == [] {
      var i :| StrippedAt([], s, p, i);
      forall k | 0 <= k < |s|
        ensures p(s[k])
      {
        if k < i { assert AllIn(s, 0, i, p); } else { assert AllIn(s, i, |s|, p); }
      }
    }
    if AllIn(s, 0, |s|, p) {
      assert LeadingCount(s, p) == |s|;
    }
  }

  /** JavaScript `trim`. */
  function Trim(s: string): (r: string)
    ensures StrippedFrom(r, s, IsSpace)
    ensures CleanEdges(r, IsSpace)
  {
    Strip(s, IsSpace)
  }

  /** A string whose ends are already clean is left alone by stripping. */
  lemma StripClean(s: string, p: char -> bool)
    requires CleanEdges(s, p)
    ensures Strip(s, p) == s
  {
    if s != [] {
      assert LeadingCount(s, p) == 0;
      assert s[0..] == s;
      assert TrailingCount(s, p) == 0;
    }
  }

  /** Stripping twice is stripping once. */
  lemma StripIdempotent(s: string, p: char -> bool)
    ensures Strip(Strip(s, p), p) == Strip(s, p)
  {
    StripClean(Strip(s, p), p);
  }

  /** JavaScript `s.includes(w)`. */
  predicate Contains(s: string, w: string) {
    exists k | 0 <= k <= |s| - |w| :: OccursAt(s, w, k)
  }

  /** `w` occurs in `s` starting at offset `k`. */
  predicate OccursAt(s: string, w: string, k: int) {
    0 <= k <= |s| - |w| && s[k..k + |w|] == w
  }

  /**
   A word with no character of the class `p` occurs in `s` exactly when it
   occurs in `s` stripped of `p` at both ends.
   */
  lemma ContainsStripped(s: string, w: string, p: char -> bool)
    requires w != [] && forall i :: 0 <= i < |w| ==> !p(w[i])
    ensures Contains(Strip(s, p), w) <==> Contains(s, w)
  {
    var r := Strip(s, p);
    var i :| StrippedAt(r, s, p, i);
    if Contains(r, w) {
      var k :| 0 <= k <= |r| - |w| && OccursAt(r, w, k);
      OccursInInfix(s, r, w, p, i, k);
    }
    if Contains(s, w) {
      var k :| 0 <= k <= |s| - |w| && OccursAt(s, w, k);
      OccursInsideMargins(s, r, w, p, i, k);
    }
  }

  /** An occurrence inside the kept infix is an occurrence in the whole string. */
  lemma OccursInInfix(s: string, r: string, w: string, p: char -> bool, i: int, k: int)
    requires StrippedAt(r, s, p, i) && OccursAt(r, w, k)
    ensures OccursAt(s, w, i + k)
  {
    forall j | 0 <= j < |w|
      ensures s[i + k + j] == w[j]
    {
      assert r[k + j] == w[j];
      assert s[i..i + |r|][k + j] == s[i + k + j];
    }
    assert s[i + k..i + k + |w|] == w;
  }

  /**
   An occurrence of a word free of `p` cannot overlap the stripped margins, so
   it is an occurrence in the kept infix.
   */
  lemma OccursInsideMargins(s: string, r: string, w: string, p: char -> bool, i: int, k: int)
    requires w != [] && forall j :: 0 <= j < |w| ==> !p(w[j])
    requires StrippedAt(r, s, p, i) && OccursAt(s, w, k)
    ensures OccursAt(r, w, k - i)
  {
    assert s[k..k + |w|][0] == s[k];
    assert k >= i;
    assert s[k..k + |w|][|w| - 1] == s[k + |w| - 1];
    assert k + |w| <= i + |r|;
    forall j | 0 <= j < |w|
      ensures r[k - i + j] == w[j]
    {
      assert s[k..k + |w|][j] == s[k + j];
      assert s[i..i + |r|][k - i + j] == s[k + j];
    }
    assert r[k - i..k - i + |w|] == w;
  }

  /** JavaScript `s.split('\n')[0]`: the text before the first line feed. */
  function FirstLine(s: string): (r: string)
    ensures '\n' !in r
    ensures r <= s
    ensures r == s || s[|r|] == '\n'
  {
    if s == [] then []
    else if s[0] == '\n' then []
    else [s[0]] + FirstLine(s[1..])
  }
}
