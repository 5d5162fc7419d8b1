/**
 * The PHP string functions the client relies on: `trim` with a character
 * list, `strpos(...) === 0`, `implode` and `str_replace`.
 * The model measures a string by its characters where PHP's `strlen` counts
 * bytes; the two agree on single-byte text.
 */
module Text {

  /** `strpos($s, $p) === 0`. */
  predicate StartsWith(s: string, p: string) {
    |p| <= |s| && s[..|p|] == p
  }

  /** How many copies of `c` `s` starts with. */
  function LeadingCount(s: string, c: char): (n: nat)
    ensures n <= |s| && forall k :: 0 <= k < n ==> s[k] == c
    ensures n < |s| ==> s[n] != c
  {
    if s != [] && s[0] == c then
      var n := LeadingCount(s[1..], c);
      assert forall k :: 1 <= k < n + 1 ==> s[k] == s[1..][k - 1];
      n + 1
    else 0
  }

  /** How many copies of `c` `s` ends with. */
  function TrailingCount(s: string, c: char): (n: nat)
    ensures n <= |s| && forall k :: |s| - n <= k < |s| ==> s[k] == c
    ensures n < |s| ==> s[|s| - 1 - n] != c
  {
    if s != [] && s[|s| - 1] == c then
      var n := TrailingCount(s[..|s| - 1], c);
      assert forall k :: |s| - 1 - n <= k < |s| - 1 ==> s[k] == s[..|s| - 1][k];
      n + 1
    else 0
  }

  /** `ltrim($s, c)`: the longest suffix that does not start with `c`, all cut characters being `c`. */
  function TrimLeft(s: string, c: char): (r: string)
    ensures |r| <= |s| && r == s[|s| - |r|..]
    ensures forall k :: 0 <= k < |s| - |r| ==> s[k] == c
    ensures r != [] ==> r[0] != c
  {
    s[LeadingCount(s, c)..]
  }

  /** `rtrim($s, c)`: the longest prefix that does not end in `c`, all cut characters being `c`. */
  function TrimRight(s: string, c: char): (r: string)
    ensures |r| <= |s| && r == s[..|r|]
    ensures forall k :: |r| <= k < |s| ==> s[k] == c
    ensures r != [] ==> r[|r| - 1] != c
  {
    s[..|s| - TrailingCount(s, c)]
  }

  /** `trim($s, c)`. */
  function Trim(s: string, c: char): string {
    TrimRight(TrimLeft(s, c), c)
  }

  /**
   * What `trim` leaves: a slice of the input with `c` at neither end, everything
   * cut off on either side being `c`.
   */
  lemma {:induction false} TrimShape(s: string, c: char)
    ensures var r, i := Trim(s, c), |s| - |TrimLeft(s, c)|;
      (r != [] ==> r[0] != c && r[|r| - 1] != c) &&
      0 <= i <= i + |r| <= |s| && r == s[i..i + |r|] &&
      (forall k :: 0 <= k < i ==> s[k] == c) &&
      (forall k :: i + |r| <= k < |s| ==> s[k] == c)
  {
    CutBothEnds(s, TrimLeft(s, c), TrimRight(TrimLeft(s, c), c), c);
  }

  /** A prefix `r` of a suffix `l` of `s`, with only `c` cut off each time, is a slice of `s` with only `c` around it. */
  lemma {:induction false} CutBothEnds(s: string, l: string, r: string, c: char)
    requires |l| <= |s| && l == s[|s| - |l|..] && forall k :: 0 <= k < |s| - |l| ==> s[k] == c
    requires l != [] ==> l[0] != c
    requires |r| <= |l| && r == l[..|r|] && forall k :: |r| <= k < |l| ==> l[k] == c
    requires r != [] ==> r[|r| - 1] != c
    ensures var i := |s| - |l|;
      (r != [] ==> r[0] != c && r[|r| - 1] != c) &&
      0 <= i <= i + |r| <= |s| && r == s[i..i + |r|] &&
      (forall k :: 0 <= k < i ==> s[k] == c) &&
      (forall k :: i + |r| <= k < |s| ==> s[k] == c)
  {
    var i := |s| - |l|;
    assert r == s[i..i + |r|];
    if r != [] {
      assert l[0] == r[0];
    }
    forall k | i + |r| <= k < |s| ensures s[k] == c {
      assert s[k] == l[k - i];
    }
  }

  /** `trim` of the empty string is empty. */
  lemma TrimEmpty(c: char)
    ensures Trim([], c) == []
  {
  }

  /** A string with `c` at neither end is left alone by `trim`. */
  lemma TrimKeeps(s: string, c: char)
    requires s != [] ==> s[0] != c && s[|s| - 1] != c
    ensures Trim(s, c) == s
  {
  }

  /** Trimming twice is trimming once. */
  lemma {:induction false} TrimIdempotent(s: string, c: char)
    ensures Trim(Trim(s, c), c) == Trim(s, c)
  {
    TrimShape(s, c);
    TrimKeeps(Trim(s, c), c);
  }

  /** ASCII lower case, as PHP compares method names. */
  function Lower(s: string): (r: string)
    ensures |r| == |s|
    ensures forall i :: 0 <= i < |s| ==> r[i] == if 'A' <= s[i] <= 'Z' then (s[i] - 'A' + 'a') as char else s[i]
  {
    if s == [] then []
    else [if 'A' <= s[0] <= 'Z' then (s[0] - 'A' + 'a') as char else s[0]] + Lower(s[1..])
  }

  /** `implode($sep, $parts)`. */
  function Join(parts: seq<string>, sep: string): string {
    if parts == [] then ""
    else if |parts| == 1 then parts[0]
    else parts[0] + sep + Join(parts[1..], sep)
  }

  predicate OccursAt(s: string, p: string, i: int) {
    0 <= i && i + |p| <= |s| && s[i..i + |p|] == p
  }

  /**
   * `str_replace($p, $r, $s)`: every occurrence of `p`, scanned left to right
   * without overlap, becomes `r`; an empty search string changes nothing.
   */
  function ReplaceAll(s: string, p: string, r: string): string
    decreases |s|
  {
    if p == [] || |s| < |p| then s
    else if s[..|p|] == p then r + ReplaceAll(s[|p|..], p, r)
    else [s[0]] + ReplaceAll(s[1..], p, r)
  }

  /** Without an occurrence of the search string, `str_replace` is the identity. */
  lemma {:induction false} ReplaceAllNoMatch(s: string, p: string, r: string)
    requires forall i :: !OccursAt(s, p, i)
    ensures ReplaceAll(s, p, r) == s
    decreases |s|
  {
    if p != [] && |s| >= |p| {
      assert !OccursAt(s, p, 0);
      assert s[0..|p|] == s[..|p|];
      forall i ensures !OccursAt(s[1..], p, i) {
        if OccursAt(s[1..], p, i) {
          assert s[1..][i..i + |p|] == s[i + 1..i + 1 + |p|];
          assert OccursAt(s, p, i + 1);
        }
      }
      ReplaceAllNoMatch(s[1..], p, r);
    }
  }

  /** A prefix in which no occurrence starts is copied through unchanged. */
  lemma {:induction false} ReplaceAllSkip(a: string, b: string, p: string, r: string)
    requires p != []
    requires forall i :: 0 <= i < |a| ==> !OccursAt(a + b, p, i)
    ensures ReplaceAll(a + b, p, r) == a + ReplaceAll(b, p, r)
    decreases |a|
  {
    var s := a + b;
    if a == [] {
      assert s == b;
    } else if |s| < |p| {
      assert ReplaceAll(b, p, r) == b;
    } else {
      assert !OccursAt(s, p, 0);
      assert s[0..|p|] == s[..|p|];
      assert s[1..] == a[1..] + b;
      forall i | 0 <= i < |a[1..]| ensures !OccursAt(a[1..] + b, p, i) {
        if OccursAt(a[1..] + b, p, i) {
          assert s[i + 1..i + 1 + |p|] == (a[1..] + b)[i..i + |p|];
          assert OccursAt(s, p, i + 1);
        }
      }
      ReplaceAllSkip(a[1..], b, p, r);
      assert [a[0]] + a[1..] == a;
    }
  }

  /** An occurrence at the front is replaced and the scan resumes after it. */
  lemma {:induction false} ReplaceAllHead(b: string, p: string, r: string)
    requires p != []
    ensures ReplaceAll(p + b, p, r) == r + ReplaceAll(b, p, r)
  {
    var s := p + b;
    assert s[..|p|] == p;
    assert s[|p|..] == b;
  }

  /** When the only occurrence of the search string is the one after `a`, just that one is replaced. */
  lemma {:induction false} ReplaceOnlyAt(a: string, p: string, t: string, r: string)
    requires p != []
    requires forall i :: OccursAt(a + p + t, p, i) ==> i == |a|
    ensures ReplaceAll(a + p + t, p, r) == a + r + t
  {
    var s := a + p + t;
    assert s == a + (p + t);
    ReplaceAllSkip(a, p + t, p, r);
    ReplaceAllHead(t, p, r);
    forall i | 0 <= i && i + |p| <= |t| ensures !OccursAt(t, p, i) {
      assert s[|a| + |p| + i..|a| + |p| + i + |p|] == t[i..i + |p|];
      assert !OccursAt(s, p, |a| + |p| + i);
    }
    ReplaceAllNoMatch(t, p, r);
    assert a + (r + t) == a + r + t;
  }

  /** A prefix without the search string's first character is copied through by the replacement. */
  lemma {:induction false} ReplaceAllSkipFree(a: string, b: string, p: string, r: string)
    requires p != [] && p[0] !in a
    ensures ReplaceAll(a + b, p, r) == a + ReplaceAll(b, p, r)
  {
    forall i | 0 <= i < |a| ensures !OccursAt(a + b, p, i) {
      if i + |p| <= |a + b| {
        assert (a + b)[i..i + |p|][0] == a[i];
      }
    }
    ReplaceAllSkip(a, b, p, r);
  }

  /** Text free of the search string's first character, then an occurrence: that one is replaced. */
  lemma {:induction false} ReplaceFreeThenMatch(a: string, p: string, t: string, r: string)
    requires p != [] && p[0] !in a
    ensures ReplaceAll(a + p + t, p, r) == a + r + ReplaceAll(t, p, r)
  {
    assert a + p + t == a + (p + t);
    ReplaceAllSkipFree(a, p + t, p, r);
    ReplaceAllHead(t, p, r);
  }

  /** Two occurrences separated by text free of the search string's first character are both replaced. */
  lemma {:induction false} ReplaceTwice(x: string, y: string, z: string, p: string, r: string)
    requires p != [] && p[0] !in x && p[0] !in y && p[0] !in z
    ensures ReplaceAll(x + p + y + p + z, p, r) == x + r + y + r + z
  {
    var t := y + p + z;
    assert x + p + y + p + z == x + p + t;
    ReplaceFreeThenMatch(x, p, t, r);
    ReplaceFreeThenMatch(y, p, z, r);
    ReplaceAllFree(z, p, r);
    assert x + r + (y + r + z) == x + r + y + r + z;
  }

  /** Text free of the search string's first character is left alone. */
  lemma {:induction false} ReplaceAllFree(z: string, p: string, r: string)
    requires p != [] && p[0] !in z
    ensures ReplaceAll(z, p, r) == z
  {
    ReplaceAllSkipFree(z, "", p, r);
    assert z + "" == z;
  }
}
