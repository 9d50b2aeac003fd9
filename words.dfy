/** The maximal runs of word characters of a string. A whole-word match of an all-word-character
    phrase is exactly one of these runs, so "no filler word is left" is a statement about them,
    and the whitespace repairs are shown here to leave them alone. */
module WordRuns {
  import opened TextPrimitives

  /** The maximal runs of word characters of s, in order. */
  function Words(s: string): (ws: seq<string>)
    ensures forall k :: 0 <= k < |ws| ==> ws[k] != [] && AllWordChars(ws[k])
    decreases |s|
  {
    if s == [] then []
    else if !IsWordChar(s[0]) then Words(s[1..])
    else
      var k := RunEnd(s, 0, IsWordChar);
      [s[..k]] + Words(s[k..])
  }

  /** s[i..e] is a maximal run of word characters of s. */
  predicate IsMaximalRun(s: string, i: nat, e: nat) {
    && i < e <= |s|
    && (i == 0 || !IsWordChar(s[i - 1]))
    && AllWordChars(s[i..e])
    && (e == |s| || !IsWordChar(s[e]))
  }

  lemma WordsConsNonWord(c: char, x: string)
    requires !IsWordChar(c)
    ensures Words([c] + x) == Words(x)
  {
    assert ([c] + x)[1..] == x;
  }

  /** A word character in front of x starts a new run, or extends the first run of x. */
  lemma WordsConsWord(c: char, x: string)
    requires IsWordChar(c)
    ensures x == [] || !IsWordChar(x[0]) ==> Words([c] + x) == [[c]] + Words(x)
    ensures x != [] && IsWordChar(x[0]) ==>
      |Words(x)| > 0 && Words([c] + x) == [[c] + Words(x)[0]] + Words(x)[1..]
  {
    if x == [] || !IsWordChar(x[0]) {
      WordsConsWordAlone(c, x);
    } else {
      WordsConsWordJoined(c, x);
    }
  }

  lemma WordsConsWordAlone(c: char, x: string)
    requires IsWordChar(c) && (x == [] || !IsWordChar(x[0]))
    ensures Words([c] + x) == [[c]] + Words(x)
  {
    var s := [c] + x;
    RunEndUnique(s, 0, IsWordChar, 1);
    assert s[..1] == [c] && s[1..] == x;
  }

  lemma WordsConsWordJoined(c: char, x: string)
    requires IsWordChar(c) && x != [] && IsWordChar(x[0])
    ensures |Words(x)| > 0 && Words([c] + x) == [[c] + Words(x)[0]] + Words(x)[1..]
  {
    var s := [c] + x;
    var k := RunEnd(x, 0, IsWordChar);
    forall j | 0 <= j < k + 1 ensures IsWordChar(s[j]) {
      if j > 0 {
        assert s[j] == x[j - 1];
      }
    }
    assert k + 1 < |s| ==> s[k + 1] == x[k];
    RunEndUnique(s, 0, IsWordChar, k + 1);
    assert s[..k + 1] == [c] + x[..k];
    assert s[k + 1..] == x[k..];
  }

  lemma {:induction false} WordsOfNonWord(s: string)
    requires NoWordChar(s)
    ensures Words(s) == []
    decreases |s|
  {
    if s != [] {
      assert NoWordChar(s[1..]);
      WordsOfNonWord(s[1..]);
    }
  }

  lemma WordsOfRun(s: string)
    requires s != [] && AllWordChars(s)
    ensures Words(s) == [s]
  {
    RunEndUnique(s, 0, IsWordChar, |s|);
    assert s[..|s|] == s;
    assert s[|s|..] == [];
  }

  /** Words distributes over a concatenation whose seam is not inside a run. */
  lemma {:induction false} WordsConcat(a: string, b: string)
    requires a == [] || b == [] || !IsWordChar(a[|a| - 1]) || !IsWordChar(b[0])
    ensures Words(a + b) == Words(a) + Words(b)
    decreases |a|
  {
    if a == [] {
      assert a + b == b;
    } else {
      var c, a' := a[0], a[1..];
      assert a == [c] + a';
      assert a + b == [c] + (a' + b);
      if a' != [] {
        assert a'[|a'| - 1] == a[|a| - 1];
      }
      WordsConcat(a', b);
      if !IsWordChar(c) {
        WordsConsNonWord(c, a' + b);
        WordsConsNonWord(c, a');
      } else {
        WordsConcatWordHead(c, a', b);
      }
    }
  }

  lemma WordsConcatWordHead(c: char, a: string, b: string)
    requires IsWordChar(c)
    requires Words(a + b) == Words(a) + Words(b)
    requires a == [] ==> b == [] || !IsWordChar(b[0])
    ensures Words([c] + (a + b)) == Words([c] + a) + Words(b)
  {
    if a == [] {
      assert a + b == b;
      WordsConsWord(c, b);
      WordsConsWord(c, a);
    } else {
      assert (a + b)[0] == a[0];
      WordsConsWord(c, a + b);
      WordsConsWord(c, a);
      if IsWordChar(a[0]) {
        var wa, wab := Words(a), Words(a + b);
        assert wab[0] == wa[0];
        assert wab[1..] == wa[1..] + Words(b);
      }
    }
  }

  /** Every maximal run of word characters is one of the Words. */
  lemma MaximalRunInWords(s: string, i: nat, e: nat)
    requires IsMaximalRun(s, i, e)
    ensures s[i..e] in Words(s)
  {
    var pre, run, post := s[..i], s[i..e], s[e..];
    assert s == pre + (run + post);
    WordsOfRun(run);
    WordsConcat(run, post);
    if pre != [] {
      assert pre[|pre| - 1] == s[i - 1];
    }
    WordsConcat(pre, run + post);
  }

  /** t occurs in s at i as a maximal run of word characters. */
  predicate RunAt(s: string, t: string, i: nat) {
    i + |t| <= |s| && s[i..i + |t|] == t && IsMaximalRun(s, i, i + |t|)
  }

  /** Every one of the Words is a maximal run of word characters at some position. */
  lemma {:induction false} WordsAreRuns(s: string, t: string)
    requires t in Words(s)
    ensures exists i: nat :: RunAt(s, t, i)
    decreases |s|
  {
    if !IsWordChar(s[0]) {
      WordsAreRuns(s[1..], t);
      var i': nat :| RunAt(s[1..], t, i');
      RunShift(s, t, 1, i');
    } else {
      var k := RunEnd(s, 0, IsWordChar);
      if t == s[..k] {
        FirstRun(s, k);
      } else {
        assert t in Words(s[k..]);
        WordsAreRuns(s[k..], t);
        var i': nat :| RunAt(s[k..], t, i');
        if i' == 0 {
          RunStartsWithWordChar(s[k..], t, 0);
        }
        RunShift(s, t, k, i');
      }
    }
  }

  lemma RunStartsWithWordChar(s: string, t: string, i: nat)
    requires RunAt(s, t, i)
    ensures IsWordChar(s[i])
  {
    assert s[i..i + |t|][0] == s[i];
  }

  lemma FirstRun(s: string, k: nat)
    requires s != [] && IsWordChar(s[0]) && k == RunEnd(s, 0, IsWordChar)
    ensures RunAt(s, s[..k], 0)
  {
    assert s[0..0 + |s[..k]|] == s[..k];
  }

  /** A run of a suffix is a run of the whole string, provided it does not continue a run
      that ends just before the suffix. */
  lemma RunShift(s: string, t: string, n: nat, i: nat)
    requires 0 < n <= |s| && RunAt(s[n..], t, i)
    requires i > 0 || !IsWordChar(s[n - 1])
    ensures RunAt(s, t, i + n)
  {
    var u := s[n..];
    assert u[i..i + |t|] == s[i + n..i + n + |t|];
    if i > 0 {
      assert u[i - 1] == s[i + n - 1];
    }
    if i + n + |t| < |s| {
      assert u[i + |t|] == s[i + n + |t|];
    }
  }

  // ---------------------------------------------------------------------------------------
  // The whitespace repairs keep the runs

  lemma {:induction false} WordsCollapseSpaces(s: string)
    ensures Words(CollapseSpaces(s)) == Words(s)
    decreases |s|
  {
    if s == [] {
    } else if IsSpace(s[0]) {
      var k := RunEnd(s, 0, IsSpace);
      WordsCollapseSpaces(s[k..]);
      WordsCollapseSpaceCase(s, k);
    } else {
      WordsCollapseSpaces(s[1..]);
      WordsDropHeadCase(s, CollapseSpaces(s[1..]));
    }
  }

  lemma WordsCollapseSpaceCase(s: string, k: nat)
    requires 0 < k <= |s| && AllSpace(s[..k])
    requires Words(CollapseSpaces(s[k..])) == Words(s[k..])
    ensures Words([' '] + CollapseSpaces(s[k..])) == Words(s)
  {
    WordsConsNonWord(' ', CollapseSpaces(s[k..]));
    SplitAt(s, k);
    WordsConcat(s[..k], s[k..]);
    WordsOfNonWord(s[..k]);
  }

  lemma {:induction false} WordsDropSpaceBeforePunct(s: string)
    ensures Words(DropSpaceBeforePunct(s)) == Words(s)
    decreases |s|
  {
    if s == [] {
    } else if IsSpace(s[0]) {
      var k := RunEnd(s, 0, IsSpace);
      if k < |s| && IsClosingPunct(s[k]) {
        WordsDropSpaceBeforePunct(s[k + 1..]);
        WordsDropPunctCase(s, k);
      } else {
        WordsDropSpaceBeforePunct(s[k..]);
        WordsDropKeptCase(s, k);
      }
    } else {
      WordsDropSpaceBeforePunct(s[1..]);
      WordsDropHeadCase(s, DropSpaceBeforePunct(s[1..]));
    }
  }

  lemma WordsDropPunctCase(s: string, k: nat)
    requires 0 < k < |s| && AllSpace(s[..k]) && IsClosingPunct(s[k])
    requires Words(DropSpaceBeforePunct(s[k + 1..])) == Words(s[k + 1..])
    ensures Words([s[k]] + DropSpaceBeforePunct(s[k + 1..])) == Words(s)
  {
    WordsConsNonWord(s[k], DropSpaceBeforePunct(s[k + 1..]));
    assert s == s[..k + 1] + s[k + 1..];
    WordsConcat(s[..k + 1], s[k + 1..]);
    assert NoWordChar(s[..k + 1]) by {
      var p := s[..k + 1];
      forall j | 0 <= j < k + 1 ensures !IsWordChar(p[j]) {
        if j < k {
          assert p[j] == s[..k][j];
        }
      }
    }
    WordsOfNonWord(s[..k + 1]);
  }

  lemma WordsDropKeptCase(s: string, k: nat)
    requires 0 < k <= |s| && AllSpace(s[..k])
    requires Words(DropSpaceBeforePunct(s[k..])) == Words(s[k..])
    ensures Words(s[..k] + DropSpaceBeforePunct(s[k..])) == Words(s)
  {
    assert NoWordChar(s[..k]);
    WordsOfNonWord(s[..k]);
    WordsConcat(s[..k], DropSpaceBeforePunct(s[k..]));
    assert s == s[..k] + s[k..];
    WordsConcat(s[..k], s[k..]);
  }

  /** A character that is not whitespace, in front of a tail with the same runs. */
  lemma WordsDropHeadCase(s: string, x: string)
    requires s != [] && Words(x) == Words(s[1..])
    requires x != [] && IsWordChar(x[0]) <==> |s| > 1 && IsWordChar(s[1])
    ensures Words([s[0]] + x) == Words(s)
  {
    assert s == [s[0]] + s[1..];
    if IsWordChar(s[0]) {
      WordsConsWord(s[0], x);
      WordsConsWord(s[0], s[1..]);
    } else {
      WordsConsNonWord(s[0], x);
      WordsConsNonWord(s[0], s[1..]);
    }
  }

  lemma WordsStripLeft(s: string)
    ensures Words(StripLeft(s)) == Words(s)
  {
    var l := StripLeft(s);
    SplitAt(s, |s| - |l|);
    WordsOfNonWord(s[..|s| - |l|]);
    WordsConcat(s[..|s| - |l|], l);
  }

  lemma WordsStripRight(s: string)
    ensures Words(StripRight(s)) == Words(s)
  {
    var r := StripRight(s);
    SplitAt(s, |r|);
    WordsOfNonWord(s[|r|..]);
    WordsConcat(r, s[|r|..]);
  }

  lemma SplitAt(s: string, i: nat)
    requires i <= |s|
    ensures s == s[..i] + s[i..]
  {
  }

  lemma WordsStrip(s: string)
    ensures Words(Strip(s)) == Words(s)
  {
    WordsStripLeft(s);
    WordsStripRight(StripLeft(s));
  }

  lemma WordsRepairSpacing(s: string)
    ensures Words(RepairSpacing(s)) == Words(s)
  {
    WordsCollapseSpaces(s);
    WordsDropSpaceBeforePunct(CollapseSpaces(s));
    WordsStrip(DropSpaceBeforePunct(CollapseSpaces(s)));
  }
}
