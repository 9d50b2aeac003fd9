/** The phrase matcher every table-driven tool compiles: `re.compile(r'\b' + re.escape(p) + r'\b',
    re.IGNORECASE)`, with Python's `findall` and `sub` semantics (leftmost match first, matches
    never overlap, scanning resumes after each match).

    The scan works on suffixes: `pw` says whether the character just before the suffix is a
    word character, which is all `\b` needs to know about what precedes it. */
module Matcher {
  import opened TextPrimitives
  import opened WordRuns

  /** s starts with p, up to case. */
  predicate LowerPrefix(s: string, p: string) {
    |p| <= |s| && forall k :: 0 <= k < |p| ==> Lower(s[k]) == Lower(p[k])
  }

  /** The pattern for p matches at the start of s, given whether the character before s is a
      word character. */
  predicate MatchHere(pw: bool, s: string, p: string) {
    && p != []
    && LowerPrefix(s, p)
    && pw != IsWordChar(s[0])
    && IsWordChar(s[|p| - 1]) != (|p| < |s| && IsWordChar(s[|p|]))
  }

  /** Whether the character before position i of s is a word character (pw before s[0]). */
  function WordBefore(pw: bool, s: string, i: nat): bool
    requires i <= |s|
  {
    if i == 0 then pw else IsWordChar(s[i - 1])
  }

  /** The pattern for p matches s at position i. */
  predicate MatchAt(s: string, p: string, i: nat) {
    i <= |s| && MatchHere(WordBefore(false, s, i), s[i..], p)
  }

  /** `len(pattern.findall(s))`, scanning the suffix s. */
  function CountTail(pw: bool, s: string, p: string): nat
    requires p != []
    decreases |s|
  {
    if |p| > |s| then 0
    else if MatchHere(pw, s, p) then 1 + CountTail(IsWordChar(s[|p| - 1]), s[|p|..], p)
    else CountTail(IsWordChar(s[0]), s[1..], p)
  }

  /** `pattern.findall(s)`, scanning the suffix s: the matched texts, in order. */
  function FindAllTail(pw: bool, s: string, p: string): (ts: seq<string>)
    requires p != []
    ensures |ts| == CountTail(pw, s, p)
    ensures forall k :: 0 <= k < |ts| ==> LowerEq(ts[k], p)
    decreases |s|
  {
    if |p| > |s| then []
    else if MatchHere(pw, s, p) then [s[..|p|]] + FindAllTail(IsWordChar(s[|p| - 1]), s[|p|..], p)
    else FindAllTail(IsWordChar(s[0]), s[1..], p)
  }

  /** `pattern.sub(r, s)`, scanning the suffix s. */
  function ReplaceTail(pw: bool, s: string, p: string, r: string): string
    requires p != []
    decreases |s|
  {
    if |p| > |s| then s
    else if MatchHere(pw, s, p) then r + ReplaceTail(IsWordChar(s[|p| - 1]), s[|p|..], p, r)
    else [s[0]] + ReplaceTail(IsWordChar(s[0]), s[1..], p, r)
  }

  function Count(s: string, p: string): nat
    requires p != []
  {
    CountTail(false, s, p)
  }

  function FindAll(s: string, p: string): seq<string>
    requires p != []
  {
    FindAllTail(false, s, p)
  }

  function Replace(s: string, p: string, r: string): string
    requires p != []
  {
    ReplaceTail(false, s, p, r)
  }

  // ---------------------------------------------------------------------------------------
  // findall finds every phrase that occurs

  /** The pattern matches the suffix s at position i. */
  predicate MatchIn(pw: bool, s: string, p: string, i: nat) {
    i <= |s| && MatchHere(WordBefore(pw, s, i), s[i..], p)
  }

  /** Moving the scan one character on keeps the matches that lie further on. */
  lemma MatchInTail(pw: bool, s: string, p: string, i: nat)
    requires 0 < i <= |s|
    ensures MatchIn(pw, s, p, i) == MatchIn(IsWordChar(s[0]), s[1..], p, i - 1)
  {
    assert s[1..][i - 1..] == s[i..];
    if i > 1 {
      assert s[1..][i - 2] == s[i - 1];
    }
  }

  /** The scan is complete: wherever the pattern matches, findall reports at least one match. */
  lemma {:induction false} MatchCounted(pw: bool, s: string, p: string, i: nat)
    requires p != [] && MatchIn(pw, s, p, i)
    ensures CountTail(pw, s, p) > 0
    decreases |s|
  {
    if !MatchHere(pw, s, p) {
      assert i != 0;
      MatchInTail(pw, s, p, i);
      MatchCounted(IsWordChar(s[0]), s[1..], p, i - 1);
      assert |p| <= |s|;
      assert CountTail(pw, s, p) == CountTail(IsWordChar(s[0]), s[1..], p);
    }
  }

  /** Every match findall reports is a real match. */
  lemma {:induction false} CountedMatch(pw: bool, s: string, p: string) returns (i: nat)
    requires p != [] && CountTail(pw, s, p) > 0
    ensures MatchIn(pw, s, p, i)
    decreases |s|
  {
    if MatchHere(pw, s, p) {
      i := 0;
    } else {
      var i' := CountedMatch(IsWordChar(s[0]), s[1..], p);
      i := i' + 1;
      MatchInTail(pw, s, p, i);
    }
  }

  /** A phrase is counted exactly when it matches somewhere. */
  lemma CountPositiveIffMatch(s: string, p: string)
    requires p != []
    ensures Count(s, p) > 0 <==> exists i: nat :: MatchAt(s, p, i)
  {
    if i: nat :| MatchAt(s, p, i) {
      MatchCounted(false, s, p, i);
    }
    if Count(s, p) > 0 {
      var i := CountedMatch(false, s, p);
      assert MatchAt(s, p, i);
    }
  }

  // ---------------------------------------------------------------------------------------
  // sub agrees with findall

  /** Every reported match, and nothing else, is rewritten: the length changes by |r| - |p|
      per match. */
  lemma {:induction false} ReplaceTailLength(pw: bool, s: string, p: string, r: string)
    requires p != []
    ensures |ReplaceTail(pw, s, p, r)| == |s| + CountTail(pw, s, p) * (|r| - |p|)
    decreases |s|
  {
    if |p| > |s| {
    } else if MatchHere(pw, s, p) {
      ReplaceTailLength(IsWordChar(s[|p| - 1]), s[|p|..], p, r);
      MulSucc(CountTail(IsWordChar(s[|p| - 1]), s[|p|..], p), |r| - |p|);
    } else {
      ReplaceTailLength(IsWordChar(s[0]), s[1..], p, r);
    }
  }

  lemma MulSucc(n: nat, d: int)
    ensures (n + 1) * d == n * d + d
  {
  }

  lemma ReplaceLength(s: string, p: string, r: string)
    requires p != []
    ensures |Replace(s, p, r)| == |s| + Count(s, p) * (|r| - |p|)
  {
    ReplaceTailLength(false, s, p, r);
  }

  /** Text in which findall finds nothing is left as it is. */
  lemma {:induction false} ReplaceTailNoMatch(pw: bool, s: string, p: string, r: string)
    requires p != [] && CountTail(pw, s, p) == 0
    ensures ReplaceTail(pw, s, p, r) == s
    decreases |s|
  {
    if |p| <= |s| {
      ReplaceTailNoMatch(IsWordChar(s[0]), s[1..], p, r);
      assert s == [s[0]] + s[1..];
    }
  }

  lemma ReplaceNoMatch(s: string, p: string, r: string)
    requires p != [] && Count(s, p) == 0
    ensures Replace(s, p, r) == s
  {
    ReplaceTailNoMatch(false, s, p, r);
  }

  // ---------------------------------------------------------------------------------------
  // Whole-word phrases and word runs

  /** A match of an all-word-character phrase is a maximal run of word characters. */
  lemma MatchIsRun(s: string, p: string, i: nat)
    requires AllWordChars(p) && MatchAt(s, p, i)
    ensures IsMaximalRun(s, i, i + |p|)
  {
    var u := s[i..];
    var t := s[i..i + |p|];
    forall m | 0 <= m < |p| ensures IsWordChar(t[m]) {
      assert t[m] == u[m];
      LowerKeepsClass(u[m]);
      LowerKeepsClass(p[m]);
    }
    assert IsWordChar(u[|p| - 1]);
    if i + |p| < |s| {
      assert u[|p|] == s[i + |p|];
    }
  }

  /** A maximal run that equals the phrase up to case is a match. */
  lemma RunIsMatch(s: string, t: string, p: string, i: nat)
    requires RunAt(s, t, i) && LowerEq(t, p) && p != []
    ensures MatchAt(s, p, i)
  {
    var u := s[i..];
    assert forall k :: 0 <= k < |t| ==> u[k] == t[k];
    assert u[|t| - 1] == t[|t| - 1];
    if i + |t| < |s| {
      assert u[|t|] == s[i + |t|];
    }
  }

  /** A phrase of word characters cannot match where a non-word character stands. */
  lemma NoMatchAtNonWord(pw: bool, s: string, w: string)
    requires AllWordChars(w) && s != [] && !IsWordChar(s[0])
    ensures !MatchHere(pw, s, w)
  {
    if MatchHere(pw, s, w) {
      assert Lower(s[0]) == Lower(w[0]);
      LowerKeepsClass(s[0]);
      LowerKeepsClass(w[0]);
    }
  }

  /** Every run of x was a run of s, and none of them equals w up to case. */
  predicate KeepsOtherWords(x: string, s: string, w: string) {
    forall t :: t in Words(x) ==> t in Words(s) && !LowerEq(t, w)
  }

  /** Deleting every match of an all-word-character phrase removes exactly the runs equal to
      it: no run of the result equals the phrase, and every run of the result was a run of s. */
  lemma {:induction false} DeleteKeepsOtherWords(s: string, w: string)
    requires w != [] && AllWordChars(w)
    ensures KeepsOtherWords(Replace(s, w, ""), s, w)
    decreases |s|
  {
    if s == [] {
    } else if !IsWordChar(s[0]) {
      DeleteKeepsOtherWords(s[1..], w);
      DeleteNonWordHead(s, w);
    } else {
      var k := RunEnd(s, 0, IsWordChar);
      var rest := if k < |s| then s[k + 1..] else [];
      DeleteKeepsOtherWords(rest, w);
      DeleteWordHead(s, w, k);
    }
  }

  lemma DeleteNonWordHead(s: string, w: string)
    requires w != [] && AllWordChars(w) && s != [] && !IsWordChar(s[0])
    requires KeepsOtherWords(Replace(s[1..], w, ""), s[1..], w)
    ensures KeepsOtherWords(Replace(s, w, ""), s, w)
  {
    NoMatchAtNonWord(false, s, w);
    if |w| > |s| {
      assert Replace(s, w, "") == s;
      assert s == [s[0]] + s[1..];
      WordsConsNonWord(s[0], s[1..]);
      ReplaceTailNoMatchShort(false, s[1..], w, "");
    } else {
      assert Replace(s, w, "") == [s[0]] + Replace(s[1..], w, "");
      WordsConsNonWord(s[0], Replace(s[1..], w, ""));
      assert s == [s[0]] + s[1..];
      WordsConsNonWord(s[0], s[1..]);
    }
  }

  lemma ReplaceTailNoMatchShort(pw: bool, s: string, p: string, r: string)
    requires p != [] && |p| > |s|
    ensures ReplaceTail(pw, s, p, r) == s
  {
  }

  /** Inside a run of word characters (the run continuing from before s) nothing matches. */
  lemma {:induction false} ReplaceInsideRun(s: string, w: string, k: nat)
    requires w != [] && k <= |s| && (k == |s| || !IsWordChar(s[k]))
    requires forall m :: 0 <= m < k ==> IsWordChar(s[m])
    ensures ReplaceTail(true, s, w, "") == s[..k] + ReplaceTail(true, s[k..], w, "")
    decreases k
  {
    if k == 0 {
      assert s[..0] == [] && s[0..] == s;
    } else if |w| > |s| {
      ReplaceTailNoMatchShort(true, s, w, "");
      ReplaceTailNoMatchShort(true, s[k..], w, "");
      assert s == s[..k] + s[k..];
    } else {
      ReplaceInsideRun(s[1..], w, k - 1);
      InsideRunStep(s, w, k);
    }
  }

  lemma InsideRunStep(s: string, w: string, k: nat)
    requires w != [] && 0 < k <= |s| && |w| <= |s| && IsWordChar(s[0])
    requires ReplaceTail(true, s[1..], w, "")
          == s[1..][..k - 1] + ReplaceTail(true, s[1..][k - 1..], w, "")
    ensures ReplaceTail(true, s, w, "") == s[..k] + ReplaceTail(true, s[k..], w, "")
  {
    ReplaceTailStep(true, s, w, "");
    ConsSplit(s, k);
    AppendAssoc([s[0]], s[1..][..k - 1], ReplaceTail(true, s[k..], w, ""));
  }

  /** One step of the scan where the pattern does not match. */
  lemma ReplaceTailStep(pw: bool, s: string, p: string, r: string)
    requires p != [] && |p| <= |s| && !MatchHere(pw, s, p)
    ensures ReplaceTail(pw, s, p, r) == [s[0]] + ReplaceTail(IsWordChar(s[0]), s[1..], p, r)
  {
  }

  lemma ConsSplit(s: string, k: nat)
    requires 0 < k <= |s|
    ensures s[..k] == [s[0]] + s[1..][..k - 1]
    ensures s[1..][k - 1..] == s[k..]
  {
  }

  lemma AppendAssoc(a: string, b: string, c: string)
    ensures a + (b + c) == (a + b) + c
  {
  }

  /** At the start of a run of word characters ending at k, the phrase matches exactly when the
      whole run equals it up to case. */
  lemma MatchAtRunStart(s: string, w: string, k: nat)
    requires w != [] && AllWordChars(w) && s != [] && IsWordChar(s[0])
    requires k == RunEnd(s, 0, IsWordChar)
    ensures MatchHere(false, s, w) <==> |w| == k && LowerEq(s[..k], w)
  {
    assert s[0..] == s;
    if MatchHere(false, s, w) {
      MatchIsRun(s, w, 0);
      RunEndUnique(s, 0, IsWordChar, |w|);
    }
    if |w| == k && LowerEq(s[..k], w) {
      assert forall m :: 0 <= m < k ==> s[..k][m] == s[m];
    }
  }

  /** What follows a run of word characters ending at k < |s|, once rewritten. */
  lemma DeleteAfterRun(s: string, w: string, k: nat)
    requires w != [] && AllWordChars(w) && k < |s| && !IsWordChar(s[k])
    ensures var x := ReplaceTail(true, s[k..], w, "");
      && x != [] && !IsWordChar(x[0])
      && Words(x) == Words(Replace(s[k + 1..], w, ""))
  {
    var u := s[k..];
    NoMatchAtNonWord(true, u, w);
    assert u[1..] == s[k + 1..];
    if |w| > |u| {
      assert ReplaceTail(true, u, w, "") == u;
      ReplaceTailNoMatchShort(false, s[k + 1..], w, "");
      assert u == [s[k]] + s[k + 1..];
    } else {
      assert ReplaceTail(true, u, w, "") == [s[k]] + Replace(s[k + 1..], w, "");
    }
    WordsConsNonWord(s[k], Replace(s[k + 1..], w, ""));
  }

  /** The runs of a string that starts with a run of word characters ending at k. */
  lemma WordsAfterRun(s: string, k: nat)
    requires s != [] && IsWordChar(s[0]) && k == RunEnd(s, 0, IsWordChar)
    ensures Words(s) == [s[..k]] + Words(if k < |s| then s[k + 1..] else [])
  {
    if k < |s| {
      assert s[k..] == [s[k]] + s[k + 1..];
      WordsConsNonWord(s[k], s[k + 1..]);
    }
  }

  /** Rewriting a string that starts with a run of word characters ending at k. */
  lemma DeleteRunHead(s: string, w: string, k: nat)
    requires w != [] && AllWordChars(w) && s != [] && IsWordChar(s[0])
    requires k == RunEnd(s, 0, IsWordChar)
    ensures var x := ReplaceTail(true, s[k..], w, "");
      Replace(s, w, "") == (if MatchHere(false, s, w) then x else s[..k] + x)
  {
    if MatchHere(false, s, w) {
      MatchAtRunStart(s, w, k);
      assert Replace(s, w, "") == ReplaceTail(IsWordChar(s[|w| - 1]), s[|w|..], w, "");
    } else if |w| > |s| {
      ReplaceTailNoMatchShort(false, s, w, "");
      ReplaceTailNoMatchShort(true, s[k..], w, "");
      assert s == s[..k] + s[k..];
    } else {
      ReplaceInsideRun(s[1..], w, k - 1);
      RunHeadStep(s, w, k);
    }
  }

  lemma RunHeadStep(s: string, w: string, k: nat)
    requires w != [] && 0 < k <= |s| && |w| <= |s| && IsWordChar(s[0]) && !MatchHere(false, s, w)
    requires ReplaceTail(true, s[1..], w, "")
          == s[1..][..k - 1] + ReplaceTail(true, s[1..][k - 1..], w, "")
    ensures Replace(s, w, "") == s[..k] + ReplaceTail(true, s[k..], w, "")
  {
    ReplaceTailStep(false, s, w, "");
    ConsSplit(s, k);
    AppendAssoc([s[0]], s[1..][..k - 1], ReplaceTail(true, s[k..], w, ""));
  }

  lemma DeleteWordHead(s: string, w: string, k: nat)
    requires w != [] && AllWordChars(w) && s != [] && IsWordChar(s[0])
    requires k == RunEnd(s, 0, IsWordChar)
    requires KeepsOtherWords(Replace(if k < |s| then s[k + 1..] else [], w, ""),
                             if k < |s| then s[k + 1..] else [], w)
    ensures KeepsOtherWords(Replace(s, w, ""), s, w)
  {
    var x := ReplaceTail(true, s[k..], w, "");
    DeleteRunHead(s, w, k);
    MatchAtRunStart(s, w, k);
    WordsAfterRun(s, k);
    if k < |s| {
      DeleteAfterRun(s, w, k);
    } else {
      assert s[k..] == [];
    }
    if !MatchHere(false, s, w) {
      WordsConcat(s[..k], x);
      WordsOfRun(s[..k]);
    }
  }
}
