/** The loop every table-driven tool runs: for each table entry in order, compile the entry's
    pattern, take `findall` on the ORIGINAL content, and, when it found something, record a
    hit and (for the cleaners) substitute the entry in the text cleaned so far. */
module Scan {
  import opened TextPrimitives
  import opened WordRuns
  import opened Matcher

  /** A table entry: the phrase to look for and what a cleaner puts in its place. */
  datatype Rule = Rule(phrase: string, replacement: string)

  /** An entry that `findall` found, with the matched texts. */
  datatype Hit = Hit(rule: Rule, matches: seq<string>) {
    function Count(): nat {
      |matches|
    }
  }

  predicate WellFormed(rules: seq<Rule>) {
    forall k :: 0 <= k < |rules| ==> rules[k].phrase != []
  }

  /** The rules of a plain phrase table: the replacement is the empty string, which is what
      the filler and hedging cleaners substitute (`pattern.sub('', ...)`); the analyzers never
      substitute. */
  function Plain(table: seq<string>): (rules: seq<Rule>)
    ensures |rules| == |table|
    ensures forall k :: 0 <= k < |table| ==> rules[k] == Rule(table[k], "")
  {
    seq(|table|, k requires 0 <= k < |table| => Rule(table[k], ""))
  }

  // ---------------------------------------------------------------------------------------
  // The hits

  /** The `found` list after the loop over rules: one hit per entry whose pattern matches,
      carrying every match, in table order. */
  function Hits(rules: seq<Rule>, content: string): (hs: seq<Hit>)
    requires WellFormed(rules)
    ensures |hs| <= |rules|
    ensures forall k :: 0 <= k < |hs| ==>
      hs[k].rule in rules && hs[k].matches == FindAll(content, hs[k].rule.phrase)
      && hs[k].matches != []
    decreases |rules|
  {
    if rules == [] then []
    else
      var init := Hits(rules[..|rules| - 1], content);
      var r := rules[|rules| - 1];
      var ms := FindAll(content, r.phrase);
      if ms != [] then init + [Hit(r, ms)] else init
  }

  /** Scanning a table in two parts gives the hits of each part, in order: the hits follow
      the table order, and each entry is counted on its own (overlapping entries both count). */
  lemma {:induction false} HitsAppend(r1: seq<Rule>, r2: seq<Rule>, content: string)
    requires WellFormed(r1) && WellFormed(r2)
    ensures WellFormed(r1 + r2)
    ensures Hits(r1 + r2, content) == Hits(r1, content) + Hits(r2, content)
    decreases |r2|
  {
    WellFormedAppend(r1, r2);
    if r2 == [] {
      assert r1 + r2 == r1;
    } else {
      var n := |r2| - 1;
      var init, x := r2[..n], r2[n];
      assert r2 == init + [x];
      assert r1 + r2 == (r1 + init) + [x];
      WellFormedAppend(r1, init);
      HitsAppend(r1, init, content);
      HitsSnoc(r1 + init, x, content);
      HitsSnoc(init, x, content);
      AppendAssoc(Hits(r1, content), Hits(init, content), Hits([x], content));
    }
  }

  lemma WellFormedAppend(r1: seq<Rule>, r2: seq<Rule>)
    requires WellFormed(r1) && WellFormed(r2)
    ensures WellFormed(r1 + r2)
  {
    var rs := r1 + r2;
    forall k | 0 <= k < |rs| ensures rs[k].phrase != [] {
      if k >= |r1| {
        assert rs[k] == r2[k - |r1|];
      }
    }
  }

  /** One more entry adds its own hits at the end. */
  lemma HitsSnoc(rules: seq<Rule>, x: Rule, content: string)
    requires WellFormed(rules) && x.phrase != []
    ensures WellFormed(rules + [x]) && WellFormed([x])
    ensures Hits(rules + [x], content) == Hits(rules, content) + Hits([x], content)
  {
    var rs := rules + [x];
    assert rs[..|rs| - 1] == rules;
    assert [x][..0] == [];
    assert forall k :: 0 <= k < |rs| ==> rs[k].phrase != [] by {
      forall k | 0 <= k < |rs| ensures rs[k].phrase != [] {
        if k < |rules| {
          assert rs[k] == rules[k];
        }
      }
    }
  }

  lemma AppendAssoc<T>(a: seq<T>, b: seq<T>, c: seq<T>)
    ensures (a + b) + c == a + (b + c)
  {
  }

  /** The hits of a single entry: one hit with all its matches if it matches, none otherwise. */
  lemma HitsOfOne(r: Rule, content: string)
    requires r.phrase != []
    ensures Hits([r], content) ==
      (if Count(content, r.phrase) > 0 then [Hit(r, FindAll(content, r.phrase))] else [])
  {
    assert [r][..0] == [];
  }

  /** Some hit is for rule r. */
  predicate HitFor(hs: seq<Hit>, r: Rule) {
    exists j :: 0 <= j < |hs| && hs[j].rule == r
  }

  /** An entry gets a hit exactly when its pattern matches somewhere in the content. */
  lemma HitsComplete(rules: seq<Rule>, content: string, k: nat)
    requires WellFormed(rules) && k < |rules|
    ensures HitFor(Hits(rules, content), rules[k]) <==> exists i: nat :: MatchAt(content, rules[k].phrase, i)
  {
    var r := rules[k];
    CountPositiveIffMatch(content, r.phrase);
    var h1 := HitsAround(rules, k, content);
    var hs := Hits(rules, content);
    if HitFor(hs, r) {
      var j :| 0 <= j < |hs| && hs[j].rule == r;
      assert hs[j].matches == FindAll(content, r.phrase);
    }
    if Count(content, r.phrase) > 0 {
      assert hs[|h1|].rule == r;
    }
  }

  /** The hits of a table are the hits before entry k, those of entry k, and those after. */
  lemma HitsAround(rules: seq<Rule>, k: nat, content: string) returns (h1: seq<Hit>)
    requires WellFormed(rules) && k < |rules|
    ensures var r := rules[k]; var hs := Hits(rules, content);
      Count(content, r.phrase) > 0 ==> |h1| < |hs| && hs[|h1|] == Hit(r, FindAll(content, r.phrase))
  {
    var r := rules[k];
    var pre, post := rules[..k], rules[k + 1..];
    assert rules == pre + [r] + post;
    assert WellFormed(pre) && WellFormed(post);
    HitsAppend(pre, [r], content);
    HitsAppend(pre + [r], post, content);
    HitsOfOne(r, content);
    h1 := Hits(pre, content);
    var hs := Hits(rules, content);
    assert hs == h1 + Hits([r], content) + Hits(post, content);
  }

  /** The sum of the hits' counts (`sum(c["count"] for c in found)`). */
  function TotalCount(hs: seq<Hit>): nat {
    if hs == [] then 0 else TotalCount(hs[..|hs| - 1]) + hs[|hs| - 1].Count()
  }

  /** Every hit counts at least once, so the total is at least the number of hits. */
  lemma {:induction false} TotalAtLeastHits(hs: seq<Hit>)
    requires forall k :: 0 <= k < |hs| ==> hs[k].matches != []
    ensures TotalCount(hs) >= |hs|
  {
    if hs != [] {
      TotalAtLeastHits(hs[..|hs| - 1]);
    }
  }

  /** The `found` loop of the phrase analyzers. */
  method FindHits(rules: seq<Rule>, content: string) returns (found: seq<Hit>)
    requires WellFormed(rules)
    ensures found == Hits(rules, content)
  {
    found := [];
    for i := 0 to |rules|
      invariant found == Hits(rules[..i], content)
    {
      assert rules[..i + 1][..i] == rules[..i];
      var matches := FindAll(content, rules[i].phrase);
      if matches != [] {
        found := found + [Hit(rules[i], matches)];
      }
    }
    assert rules[..|rules|] == rules;
  }

  // ---------------------------------------------------------------------------------------
  // Substitution

  /** The cleaned text after the loop over rules: each entry that matched the ORIGINAL content
      is substituted, in table order, in the text cleaned so far. */
  function Substituted(rules: seq<Rule>, content: string): string
    requires WellFormed(rules)
    decreases |rules|
  {
    if rules == [] then content
    else
      var prev := Substituted(rules[..|rules| - 1], content);
      var r := rules[|rules| - 1];
      if Count(content, r.phrase) > 0 then Replace(prev, r.phrase, r.replacement) else prev
  }

  /** The cleaner loop: substitute in table order while recording the hits. */
  method ApplyRules(rules: seq<Rule>, content: string) returns (cleaned: string, found: seq<Hit>)
    requires WellFormed(rules)
    ensures cleaned == Substituted(rules, content)
    ensures found == Hits(rules, content)
  {
    cleaned, found := content, [];
    for i := 0 to |rules|
      invariant cleaned == Substituted(rules[..i], content)
      invariant found == Hits(rules[..i], content)
    {
      assert rules[..i + 1][..i] == rules[..i];
      var matches := FindAll(content, rules[i].phrase);
      if matches != [] {
        found := found + [Hit(rules[i], matches)];
        cleaned := Replace(cleaned, rules[i].phrase, rules[i].replacement);
      }
    }
    assert rules[..|rules|] == rules;
  }

  /** Content in which no entry matches comes back unchanged. */
  lemma {:induction false} NoHitsUnchanged(rules: seq<Rule>, content: string)
    requires WellFormed(rules) && Hits(rules, content) == []
    ensures Substituted(rules, content) == content
    decreases |rules|
  {
    if rules != [] {
      var init := rules[..|rules| - 1];
      assert |Hits(init, content)| <= |Hits(rules, content)|;
      NoHitsUnchanged(init, content);
    }
  }

  /** No entry's replacement is longer than its phrase. */
  predicate Shortening(rules: seq<Rule>) {
    forall k :: 0 <= k < |rules| ==> |rules[k].replacement| <= |rules[k].phrase|
  }

  /** When no replacement is longer than its phrase, substitution never lengthens the text. */
  lemma {:induction false} SubstitutedNoLonger(rules: seq<Rule>, content: string)
    requires WellFormed(rules) && Shortening(rules)
    ensures |Substituted(rules, content)| <= |content|
    decreases |rules|
  {
    if rules != [] {
      var init, r := rules[..|rules| - 1], rules[|rules| - 1];
      SubstitutedNoLonger(init, content);
      var prev := Substituted(init, content);
      if Count(content, r.phrase) > 0 {
        ReplaceLength(prev, r.phrase, r.replacement);
        MulNonPositive(Count(prev, r.phrase), |r.replacement| - |r.phrase|);
      }
    }
  }

  lemma MulNonPositive(n: nat, d: int)
    requires d <= 0
    ensures n * d <= 0
  {
  }

  /** The entries are single words (all word characters) deleted by the cleaner. */
  predicate WordDeletions(rules: seq<Rule>) {
    forall k :: 0 <= k < |rules| ==>
      rules[k].phrase != [] && AllWordChars(rules[k].phrase) && rules[k].replacement == []
  }

  /** Deleting single words leaves only words of the original content, and none of them equals
      any entry up to case: an entry that matched was deleted everywhere, and an entry that did
      not match occurs nowhere as a whole word. */
  lemma {:induction false} DeletedWordsGone(rules: seq<Rule>, content: string, t: string)
    requires WordDeletions(rules)
    requires t in Words(Substituted(rules, content))
    ensures t in Words(content)
    ensures forall k :: 0 <= k < |rules| ==> !LowerEq(t, rules[k].phrase)
    decreases |rules|
  {
    if rules != [] {
      var init := rules[..|rules| - 1];
      var r := rules[|rules| - 1];
      var prev := Substituted(init, content);
      assert WordDeletions(init);
      if Count(content, r.phrase) > 0 {
        DeleteKeepsOtherWords(prev, r.phrase);
        DeletedWordsGone(init, content, t);
      } else {
        DeletedWordsGone(init, content, t);
        UnmatchedWordAbsent(content, t, r.phrase);
      }
      forall k | 0 <= k < |rules| ensures !LowerEq(t, rules[k].phrase) {
        if k < |init| {
          assert rules[k] == init[k];
        }
      }
    }
  }

  /** A word of the content equal to a phrase up to case is a match of the phrase. */
  lemma UnmatchedWordAbsent(content: string, t: string, w: string)
    requires w != [] && t in Words(content) && Count(content, w) == 0
    ensures !LowerEq(t, w)
  {
    if LowerEq(t, w) {
      WordsAreRuns(content, t);
      var i: nat :| RunAt(content, t, i);
      RunIsMatch(content, t, w, i);
      MatchCounted(false, content, w, i);
    }
  }
}
