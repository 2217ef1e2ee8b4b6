/**
 * The string operations the disassembler relies on: JavaScript's `String.prototype.replace`
 * with a string pattern (only the first occurrence is replaced), the comment padding of
 * `commentLine_`, and `Array.prototype.join('\n')` together with the splitting that undoes it.
 */
module Text {
  import opened Wrappers

  /** `pat` occurs in `s` starting at index `k`. */
  predicate OccursAt(s: string, pat: string, k: nat) {
    k + |pat| <= |s| && MatchesFrom(s, pat, k, 0)
  }

  /** The characters of `pat` from index `j` on agree with those of `s` from `k + j` on. */
  predicate MatchesFrom(s: string, pat: string, k: nat, j: nat)
    decreases |pat| - j
  {
    j >= |pat| || (k + j < |s| && s[k + j] == pat[j] && MatchesFrom(s, pat, k, j + 1))
  }

  /** `k` is the leftmost position at which `pat` occurs in `s`. */
  predicate FirstOccurrence(s: string, pat: string, k: nat) {
    OccursAt(s, pat, k) && forall j: nat :: j < k ==> !OccursAt(s, pat, j)
  }

  /** The leftmost occurrence of `pat` in `s` at or after `i` (`String.prototype.indexOf`). */
  function IndexOf(s: string, pat: string, i: nat): (r: Option<nat>)
    ensures r.Some? ==> i <= r.value && OccursAt(s, pat, r.value)
    ensures r.Some? ==> forall j: nat :: i <= j < r.value ==> !OccursAt(s, pat, j)
    ensures r.None? ==> forall j: nat :: i <= j ==> !OccursAt(s, pat, j)
    decreases |s| - i
  {
    if i + |pat| > |s| then None
    else if OccursAt(s, pat, i) then Some(i)
    else IndexOf(s, pat, i + 1)
  }

  /**
   * `s.replace(pat, rep)`: the leftmost occurrence of `pat` is replaced by `rep`; a string
   * without an occurrence is returned unchanged.
   */
  function ReplaceFirst(s: string, pat: string, rep: string): (r: string)
    ensures forall k: nat :: FirstOccurrence(s, pat, k) ==> r == s[..k] + rep + s[k + |pat|..]
    ensures (forall k: nat :: !OccursAt(s, pat, k)) ==> r == s
    ensures forall i :: 0 <= i < |r| ==> r[i] in s || r[i] in rep
  {
    match IndexOf(s, pat, 0)
    case None => s
    case Some(k) =>
      var r := s[..k] + rep + s[k + |pat|..];
      assert forall i :: 0 <= i < |r| ==> r[i] in s || r[i] in rep by {
        forall i | 0 <= i < |r|
          ensures r[i] in s || r[i] in rep
        {
          if i < k {
            assert r[i] == s[i];
          } else if i < k + |rep| {
            assert r[i] == rep[i - k];
          } else {
            assert r[i] == s[i - |rep| + |pat|];
          }
        }
      }
      r
  }

  /** An occurrence of `pat` before which its first character never appears is the leftmost one. */
  lemma FirstOccurrenceAt(s: string, pat: string, k: nat)
    requires |pat| >= 1 && OccursAt(s, pat, k)
    requires forall j :: 0 <= j < k ==> s[j] != pat[0]
    ensures FirstOccurrence(s, pat, k)
  {
  }


  /** `pat` placed after `pre` matches there from its `j`-th character on. */
  lemma {:induction false} MatchesAfter(pre: string, pat: string, post: string, j: nat)
    requires j <= |pat|
    ensures MatchesFrom(pre + pat + post, pat, |pre|, j)
    decreases |pat| - j
  {
    if j < |pat| {
      MatchesAfter(pre, pat, post, j + 1);
      assert (pre + pat + post)[|pre| + j] == pat[j];
    }
  }

  /** When `pre` does not contain the first character of `pat`, the replacement lands right after `pre`. */
  lemma ReplaceAfter(pre: string, pat: string, post: string, rep: string)
    requires |pat| >= 1 && pat[0] !in pre
    ensures ReplaceFirst(pre + pat + post, pat, rep) == pre + rep + post
  {
    var s := pre + pat + post;
    MatchesAfter(pre, pat, post, 0);
    assert forall j :: 0 <= j < |pre| ==> s[j] == pre[j];
    FirstOccurrenceAt(s, pat, |pre|);
    assert s[..|pre|] == pre && s[|pre| + |pat|..] == post;
  }

  /** `n` copies of `c`: the zeros of a padded numeral, the spaces before a comment. */
  function Repeat(c: char, n: nat): (r: string)
    ensures |r| == n && forall i :: 0 <= i < n ==> r[i] == c
  {
    seq(n, _ => c)
  }

  /** The column at which `commentLine_` starts a comment. */
  const COMMENT_START := 20


  /**
   * ``${line}${' '.repeat(20).substr(0, 20 - line.length)}; ${comment}``: the line is padded
   * with spaces to column 20, but never cut, and followed by "; " and the comment.
   */
  function WithComment(line: string, comment: string): (r: string)
    ensures |line| <= COMMENT_START ==>
      && |r| == COMMENT_START + 2 + |comment|
      && r[..|line|] == line
      && (forall i :: |line| <= i < COMMENT_START ==> r[i] == ' ')
      && r[COMMENT_START..] == "; " + comment
    ensures |line| > COMMENT_START ==> r == line + "; " + comment
  {
    var pad := if |line| < COMMENT_START then COMMENT_START - |line| else 0;
    var r := line + Repeat(' ', pad) + "; " + comment;
    assert |line| <= COMMENT_START ==> r[..|line|] == line && r[COMMENT_START..] == "; " + comment;
    r
  }

  /** `lines.join('\n')`. */
  function JoinLines(lines: seq<string>): string
  {
    if |lines| == 0 then ""
    else if |lines| == 1 then lines[0]
    else lines[0] + "\n" + JoinLines(lines[1..])
  }

  /** The index of the first newline of `s`. */
  function NewlineIndex(s: string): (k: nat)
    requires '\n' in s
    ensures k < |s| && s[k] == '\n' && '\n' !in s[..k]
  {
    if s[0] == '\n' then 0
    else
      var k := NewlineIndex(s[1..]) + 1;
      assert s[..k] == [s[0]] + s[1..][..k - 1];
      k
  }

  /** `s.split('\n')`: the pieces between newlines, at least one. */
  function SplitLines(s: string): (r: seq<string>)
    ensures |r| >= 1
    decreases |s|
  {
    if '\n' !in s then [s]
    else
      var k := NewlineIndex(s);
      [s[..k]] + SplitLines(s[k + 1..])
  }

  /** The first newline of `line + "\n" + rest` is the one after `line`. */
  lemma NewlineAfter(line: string, rest: string)
    requires '\n' !in line
    ensures NewlineIndex(line + "\n" + rest) == |line|
  {
    var s := line + "\n" + rest;
    var k := NewlineIndex(s);
    assert s[|line|] == '\n';
  }

  /** Splitting peels off everything before the first newline as the first piece. */
  lemma SplitAfter(line: string, rest: string)
    requires '\n' !in line
    ensures SplitLines(line + "\n" + rest) == [line] + SplitLines(rest)
  {
    var s := line + "\n" + rest;
    assert s[|line|] == '\n';
    NewlineAfter(line, rest);
    assert s[..|line|] == line;
    assert s[|line| + 1..] == rest;
  }

  /** Splitting undoes joining as long as no line holds a newline itself. */
  lemma {:induction false} SplitJoin(lines: seq<string>)
    requires |lines| >= 1
    requires forall i :: 0 <= i < |lines| ==> '\n' !in lines[i]
    ensures SplitLines(JoinLines(lines)) == lines
    decreases |lines|
  {
    if |lines| > 1 {
      SplitAfter(lines[0], JoinLines(lines[1..]));
      SplitJoin(lines[1..]);
      assert [lines[0]] + lines[1..] == lines;
    }
  }
}
