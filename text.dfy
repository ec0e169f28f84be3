/**
 * String helpers shared by the window-title builders: ASCII lower-casing
 * (the part of `String.prototype.toLowerCase` these titles exercise) and
 * `String.prototype.replace` with a global literal pattern.
 */
module Text {

  /** Lower-case of one character; only ASCII upper-case letters change. */
  function LowerChar(c: char): (r: char)
    ensures 'A' <= c <= 'Z' ==> 'a' <= r <= 'z'
    ensures !('A' <= c <= 'Z') ==> r == c
    ensures r != ' ' <== c != ' '
  {
    if 'A' <= c <= 'Z' then (c as int + 32) as char else c
  }

  /** `toLowerCase`, character by character. */
  function Lower(s: string): (r: string)
    ensures |r| == |s|
    ensures forall k :: 0 <= k < |s| ==> r[k] == LowerChar(s[k])
  {
    seq(|s|, k requires 0 <= k < |s| => LowerChar(s[k]))
  }

  /** Lower-casing checked character by character, for concrete names. */
  lemma LowerIs(s: string, t: string)
    requires |s| == |t|
    requires forall k :: 0 <= k < |s| ==> LowerChar(s[k]) == t[k]
    ensures Lower(s) == t
  {
  }

  /**
   * `s.replace(/pat/g, rep)` for a literal pattern: scan left to right,
   * replace each non-overlapping occurrence, resume after it.
   */
  function ReplaceAll(s: string, pat: string, rep: string): string
    requires pat != []
    decreases |s|
  {
    if |s| < |pat| then s
    else if s[..|pat|] == pat then rep + ReplaceAll(s[|pat|..], pat, rep)
    else [s[0]] + ReplaceAll(s[1..], pat, rep)
  }

  /** Replacing one character by another keeps every other character in place. */
  lemma {:induction false} ReplaceCharAt(s: string, a: char, b: char)
    ensures |ReplaceAll(s, [a], [b])| == |s|
    ensures forall k :: 0 <= k < |s| ==>
      ReplaceAll(s, [a], [b])[k] == (if s[k] == a then b else s[k])
  {
    if s != [] {
      ReplaceCharAt(s[1..], a, b);
      var tail := ReplaceAll(s[1..], [a], [b]);
      assert s[..1] == [s[0]];
      assert ReplaceAll(s, [a], [b]) == [if s[0] == a then b else s[0]] + tail;
    }
  }

  /** One-character replacement checked character by character, for concrete names. */
  lemma ReplaceCharIs(s: string, a: char, b: char, t: string)
    requires |s| == |t|
    requires forall k :: 0 <= k < |s| ==> t[k] == (if s[k] == a then b else s[k])
    ensures ReplaceAll(s, [a], [b]) == t
  {
    ReplaceCharAt(s, a, b);
  }

  /** After replacing every occurrence of a one-character pattern, none is left
      unless the replacement brings it back. */
  lemma {:induction false} ReplaceAllRemoves(s: string, a: char, rep: string)
    requires a !in rep
    ensures a !in ReplaceAll(s, [a], rep)
  {
    if s != [] {
      ReplaceAllRemoves(s[1..], a, rep);
      assert s[..1] == [s[0]];
    }
  }

  /** A prefix that cannot start an occurrence is copied unchanged. */
  lemma {:induction false} ReplaceAllSkips(w: string, t: string, pat: string, rep: string)
    requires pat != [] && pat[0] !in w
    ensures ReplaceAll(w + t, pat, rep) == w + ReplaceAll(t, pat, rep)
  {
    if w != [] {
      var s := w + t;
      assert w[0] in w;
      assert s[0] == w[0] && s[1..] == w[1..] + t;
      ReplaceAllSkips(w[1..], t, pat, rep);
      if |s| >= |pat| {
        assert s[..|pat|][0] == w[0];
        assert s[..|pat|] != pat;
      }
      var r := ReplaceAll(t, pat, rep);
      assert ReplaceAll(s, pat, rep) == [w[0]] + ReplaceAll(s[1..], pat, rep);
      assert ReplaceAll(s, pat, rep) == [w[0]] + (w[1..] + r);
      assert [w[0]] + (w[1..] + r) == ([w[0]] + w[1..]) + r;
      assert w == [w[0]] + w[1..];
    } else {
      assert w + t == t;
    }
  }

  /** A pattern occurrence at the front is replaced. */
  lemma ReplaceAllHit(t: string, pat: string, rep: string)
    requires pat != []
    ensures ReplaceAll(pat + t, pat, rep) == rep + ReplaceAll(t, pat, rep)
  {
    var s := pat + t;
    assert s[..|pat|] == pat;
    assert s[|pat|..] == t;
  }

  /** An occurrence right after a word that cannot start one is the first
      to be replaced; scanning resumes after it. */
  lemma ReplaceAfterWord(a: string, b: string, pat: string, rep: string)
    requires pat != [] && pat[0] !in a
    ensures ReplaceAll(a + pat + b, pat, rep) == a + rep + ReplaceAll(b, pat, rep)
  {
    assert a + pat + b == a + (pat + b);
    ReplaceAllSkips(a, pat + b, pat, rep);
    ReplaceAllHit(b, pat, rep);
  }

  /** A string missing some character of the pattern has no occurrence to replace. */
  lemma {:induction false} ReplaceAllMiss(s: string, pat: string, rep: string, c: char)
    requires pat != [] && c in pat && c !in s
    ensures ReplaceAll(s, pat, rep) == s
    decreases |s|
  {
    if |s| >= |pat| {
      assert c !in s[..|pat|];
      assert s[..|pat|] != pat;
      ReplaceAllMiss(s[1..], pat, rep, c);
      assert s == [s[0]] + s[1..];
    }
  }
}
