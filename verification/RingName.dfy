/** Ring key names: the pattern `^([\w_-]+)-\d{14}$` and the name it captures. */
module RingName {
  const REVISION_DIGITS := 14

  predicate IsDigit(c: char) {
    '0' <= c <= '9'
  }

  /** The character class `[\w_-]`. */
  predicate IsNameChar(c: char) {
    IsDigit(c) || 'a' <= c <= 'z' || 'A' <= c <= 'Z' || c == '_' || c == '-'
  }

  predicate IsName(s: string) {
    s != "" && forall i :: 0 <= i < |s| ==> IsNameChar(s[i])
  }

  predicate IsRevision(s: string) {
    |s| == REVISION_DIGITS && forall i :: 0 <= i < |s| ==> IsDigit(s[i])
  }

  /** How a ring key with this name and revision is spelt. */
  function Render(name: string, revision: string): string {
    name + "-" + revision
  }

  // ---------- The matcher ----------

  /** The greedy part: the longest prefix of `s` inside the character class. */
  function LongestRun(s: string): (n: nat)
    ensures n <= |s|
    ensures forall i :: 0 <= i < n ==> IsNameChar(s[i])
    ensures n < |s| ==> !IsNameChar(s[n])
  {
    if s == "" || !IsNameChar(s[0]) then 0 else 1 + LongestRun(s[1..])
  }

  /** The rest of the pattern, `-\d{14}$`, against what the group left over. */
  predicate TailMatches(t: string) {
    |t| == 1 + REVISION_DIGITS && t[0] == '-' && IsRevision(t[1..])
  }

  /** Gives characters back one at a time until the tail matches; `0` when it never does. */
  function Backtrack(s: string, n: nat): (k: nat)
    requires n <= |s|
    ensures k <= n
    ensures k > 0 ==> TailMatches(s[k..])
    ensures k == 0 ==> forall j :: 0 < j <= n ==> !TailMatches(s[j..])
  {
    if n == 0 then 0
    else if TailMatches(s[n..]) then n
    else Backtrack(s, n - 1)
  }

  /** What `FindStringSubmatch` returns: nothing, or the match and its group. */
  function FindStringSubmatch(s: string): seq<string> {
    var k := Backtrack(s, LongestRun(s));
    if k == 0 then [] else [s, s[..k]]
  }

  // ---------- What it accepts ----------

  /** The matcher accepts exactly the rendered ring keys, and captures the name. */
  lemma MatchesExactly(s: string)
    ensures |FindStringSubmatch(s)| != 0 <==> exists name, revision :: IsName(name) && IsRevision(revision) && s == Render(name, revision)
    ensures |FindStringSubmatch(s)| != 0 ==>
              var m := FindStringSubmatch(s);
              && |m| == 2
              && m[0] == s
              && IsName(m[1])
              && exists revision :: IsRevision(revision) && s == Render(m[1], revision)
  {
    var k := Backtrack(s, LongestRun(s));
    if k > 0 {
      var name, revision := s[..k], s[k..][1..];
      assert s == Render(name, revision);
      assert IsName(name) && IsRevision(revision);
    }
    if name, revision :| IsName(name) && IsRevision(revision) && s == Render(name, revision) {
      RenderedMatches(name, revision);
    }
  }

  /** Extraction undoes rendering. */
  lemma RenderedMatches(name: string, revision: string)
    requires IsName(name) && IsRevision(revision)
    ensures FindStringSubmatch(Render(name, revision)) == [Render(name, revision), name]
  {
    var s := Render(name, revision);
    var run := LongestRun(s);
    assert s[|name|..] == "-" + revision;
    assert TailMatches(s[|name|..]) by { assert ("-" + revision)[1..] == revision; }
    forall i | 0 <= i < |s| ensures IsNameChar(s[i]) {
      if i > |name| { assert s[i] == revision[i - |name| - 1]; }
    }
    assert run == |s|;
    var k := Backtrack(s, run);
    assert k > 0;
    assert |s[k..]| == 1 + REVISION_DIGITS;
    assert s[..k] == name;
  }

  /** The split into name and revision is unique. */
  lemma SplitUnique(name1: string, revision1: string, name2: string, revision2: string)
    requires IsRevision(revision1) && IsRevision(revision2)
    requires Render(name1, revision1) == Render(name2, revision2)
    ensures name1 == name2 && revision1 == revision2
  {
    var s := Render(name1, revision1);
    assert |name1| == |name2| == |s| - 1 - REVISION_DIGITS;
    assert s[..|name1|] == name1;
    assert Render(name2, revision2)[..|name2|] == name2;
    assert s[|name1| + 1..] == revision1;
    assert Render(name2, revision2)[|name2| + 1..] == revision2;
  }

  /** What the pattern accepts, position by position. */
  lemma AcceptsExactly(s: string)
    ensures |FindStringSubmatch(s)| == 2 <==>
              && |s| >= 16 && s[|s| - 15] == '-'
              && (forall i :: |s| - 14 <= i < |s| ==> '0' <= s[i] <= '9')
              && (forall i :: 0 <= i < |s| - 15 ==>
                    'a' <= s[i] <= 'z' || 'A' <= s[i] <= 'Z' || '0' <= s[i] <= '9' || s[i] == '_' || s[i] == '-')
    ensures |FindStringSubmatch(s)| == 2 ==> FindStringSubmatch(s)[1] == s[..|s| - 15]
  {
    MatchesExactly(s);
    if |FindStringSubmatch(s)| == 2 {
      var name := FindStringSubmatch(s)[1];
      var revision :| IsRevision(revision) && s == Render(name, revision);
      assert forall i :: |s| - 14 <= i < |s| ==> s[i] == revision[i - (|s| - 14)];
      assert s[..|s| - 15] == name;
    }
    if && |s| >= 16 && s[|s| - 15] == '-' && (forall i :: |s| - 14 <= i < |s| ==> IsDigit(s[i]))
       && (forall i :: 0 <= i < |s| - 15 ==> IsNameChar(s[i])) {
      var name, revision := s[..|s| - 15], s[|s| - 14..];
      assert s == Render(name, revision);
      RenderedMatches(name, revision);
    }
  }

  lemma AcceptedHasNoSlash(s: string)
    requires |FindStringSubmatch(s)| != 0
    ensures '/' !in s
  {
    MatchesExactly(s);
    var name, revision :| IsName(name) && IsRevision(revision) && s == Render(name, revision);
    forall i | 0 <= i < |s| ensures s[i] != '/' {
      if i > |name| { assert s[i] == revision[i - |name| - 1]; }
    }
  }

  /** An accepted Secret name is long and ends in a digit, so it is none of the fixed volume names. */
  lemma AcceptedEndsInDigit(s: string)
    requires |FindStringSubmatch(s)| != 0
    ensures |s| > 1 + REVISION_DIGITS && IsDigit(s[|s| - 1])
  {
    MatchesExactly(s);
    var name, revision :| IsName(name) && IsRevision(revision) && s == Render(name, revision);
    assert s[|s| - 1] == revision[|revision| - 1];
  }
}
