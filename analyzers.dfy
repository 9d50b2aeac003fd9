/** The analyzers of `anti_slop/analyzers.py` other than readability and repetition: the
    table-driven AI-phrase and cliché counters, the passive-voice report and the run-on
    sentence finder, each with the data dict its `execute` returns. */
module Analyzers {
  import opened TextPrimitives
  import opened Base
  import opened Matcher
  import opened Scan
  import opened Readability
  import opened PassiveVoice

  const AiPhraseTable: seq<string> := [
    "delve into", "delve deeper", "delving into",
    "it's worth noting", "worth noting that",
    "in today's world", "in today's landscape", "in today's digital age",
    "navigate the complexities", "navigating the complexities",
    "at the end of the day",
    "it's important to note",
    "plays a crucial role",
    "robust solution", "robust framework",
    "holistic approach", "holistic view",
    "leverage", "leveraging",
    "synergy", "synergistic",
    "paradigm shift",
    "game changer", "game-changer",
    "disrupt", "disruptive",
    "cutting-edge", "cutting edge",
    "state-of-the-art", "state of the art",
    "best practices",
    "deep dive", "deep-dive",
    "unpack", "let's unpack",
    "double down",
    "circle back",
    "move the needle",
    "low-hanging fruit",
    "on the same page",
    "think outside the box",
    "push the envelope",
    "touch base"
  ]

  const ClicheTable: seq<string> := [
    "at the end of the day", "think outside the box", "game changer",
    "low-hanging fruit", "move the needle", "paradigm shift",
    "synergy", "win-win", "touch base", "circle back",
    "take it to the next level", "best of breed", "industry leading",
    "world class", "bleeding edge", "mission critical",
    "seamless integration", "turnkey solution", "value add",
    "best in class", "drill down", "bandwidth",
    "actionable insights", "core competency"
  ]

  /** Every table phrase is non-empty, so each compiles to a pattern that consumes text. */
  lemma AiPhrasesNonEmpty()
    ensures forall k :: 0 <= k < |AiPhraseTable| ==> AiPhraseTable[k] != []
  {
  }

  lemma ClichesNonEmpty()
    ensures forall k :: 0 <= k < |ClicheTable| ==> ClicheTable[k] != []
  {
  }

  function AiPhraseRules(): (rules: seq<Rule>)
    ensures WellFormed(rules) && |rules| == |AiPhraseTable|
  {
    AiPhrasesNonEmpty();
    Plain(AiPhraseTable)
  }

  function ClicheRules(): (rules: seq<Rule>)
    ensures WellFormed(rules) && |rules| == |ClicheTable|
  {
    ClichesNonEmpty();
    Plain(ClicheTable)
  }

  /** `{"<key>": phrase, "count": n}` for each hit. */
  function HitDicts(key: string, hits: seq<Hit>): (vs: seq<Value>)
    ensures |vs| == |hits|
  {
    seq(|hits|, k requires 0 <= k < |hits| =>
      VDict([(key, VStr(hits[k].rule.phrase)), ("count", VInt(hits[k].Count()))]))
  }

  // ---------------------------------------------------------------------------------------
  // AIPhrasesAnalyzer

  datatype AiPhrasesReport = AiPhrasesReport(phrasesDetected: nat, slopScore: nat, phrases: seq<Hit>) {
    function Data(): Dict {
      [("phrases_detected", VInt(phrasesDetected)), ("slop_score", VInt(slopScore)),
       ("phrases", VList(HitDicts("phrase", phrases)))]
    }
  }

  /** `min(10, n * 2)`. */
  function SlopScore(n: nat): (score: nat)
    ensures score <= 10
    ensures score == 2 * n || (score == 10 && 2 * n >= 10)
  {
    if n * 2 < 10 then n * 2 else 10
  }

  /** The report `AIPhrasesAnalyzer.execute(content)` returns: one entry per table phrase that
      occurs, in table order, and a score driven by how many distinct phrases occur. */
  function AiPhrasesOf(content: string): (r: AiPhrasesReport)
    ensures r.phrases == Hits(AiPhraseRules(), content)
    ensures r.phrasesDetected == |r.phrases| && r.slopScore == SlopScore(|r.phrases|)
  {
    var found := Hits(AiPhraseRules(), content);
    AiPhrasesReport(|found|, SlopScore(|found|), found)
  }

  /** `AIPhrasesAnalyzer.execute`: the loop over PHRASES, then the report. */
  method DetectAiPhrases(content: string) returns (r: AiPhrasesReport)
    ensures r == AiPhrasesOf(content)
    ensures forall k :: 0 <= k < |r.phrases| ==>
      r.phrases[k].Count() == Count(content, r.phrases[k].rule.phrase) >= 1
  {
    var found := FindHits(AiPhraseRules(), content);
    r := AiPhrasesReport(|found|, SlopScore(|found|), found);
  }

  /** A table phrase is reported exactly when its pattern matches somewhere in the content. */
  lemma AiPhraseReportedIffMatch(content: string, k: nat)
    requires k < |AiPhraseTable|
    ensures HitFor(AiPhrasesOf(content).phrases, Rule(AiPhraseTable[k], ""))
      <==> exists i: nat :: MatchAt(content, AiPhraseTable[k], i)
  {
    HitsComplete(AiPhraseRules(), content, k);
  }

  // ---------------------------------------------------------------------------------------
  // ClicheAnalyzer

  datatype ClichesReport = ClichesReport(clichesDetected: nat, totalInstances: nat, cliches: seq<Hit>) {
    function Data(): Dict {
      [("cliches_detected", VInt(clichesDetected)), ("total_instances", VInt(totalInstances)),
       ("cliches", VList(HitDicts("cliche", cliches)))]
    }
  }

  /** The report `ClicheAnalyzer.execute(content)` returns: the total counts every instance, so
      it is at least the number of distinct clichés found. */
  function ClichesOf(content: string): (r: ClichesReport)
    ensures r.cliches == Hits(ClicheRules(), content)
    ensures r.clichesDetected == |r.cliches| && r.totalInstances == TotalCount(r.cliches)
    ensures r.totalInstances >= r.clichesDetected
  {
    var found := Hits(ClicheRules(), content);
    TotalAtLeastHits(found);
    ClichesReport(|found|, TotalCount(found), found)
  }

  /** `ClicheAnalyzer.execute`: the loop over CLICHES, then the report. */
  method DetectCliches(content: string) returns (r: ClichesReport)
    ensures r == ClichesOf(content)
  {
    var found := FindHits(ClicheRules(), content);
    TotalAtLeastHits(found);
    r := ClichesReport(|found|, TotalCount(found), found);
  }

  /** A cliché is reported exactly when its pattern matches somewhere in the content. */
  lemma ClicheReportedIffMatch(content: string, k: nat)
    requires k < |ClicheTable|
    ensures HitFor(ClichesOf(content).cliches, Rule(ClicheTable[k], ""))
      <==> exists i: nat :: MatchAt(content, ClicheTable[k], i)
  {
    HitsComplete(ClicheRules(), content, k);
  }

  // ---------------------------------------------------------------------------------------
  // PassiveVoiceAnalyzer

  datatype PassiveReport = PassiveReport(
    totalSentences: nat, passiveSentences: nat, passivePercentage: int, phrasesFound: nat)
  {
    function Data(): Dict {
      [("total_sentences", VInt(totalSentences)), ("passive_sentences", VInt(passiveSentences)),
       ("passive_percentage", VInt(passivePercentage)), ("passive_phrases_found", VInt(phrasesFound))]
    }
  }

  /** `PassiveVoiceAnalyzer.execute(content)`: the passive sentences are among the sentences,
      so the percentage is 0 without sentences and within [0, 100] otherwise. */
  function PassiveOf(content: string): (r: PassiveReport)
    ensures r.totalSentences == |Sentences(content)|
    ensures r.passiveSentences == |PassiveSentences(Sentences(content))|
    ensures r.passiveSentences <= r.totalSentences
    ensures r.totalSentences == 0 ==> r.passivePercentage == 0
    ensures 0 <= r.passivePercentage <= 100
    ensures r.phrasesFound == CountPassive(content)
  {
    var sentences := Sentences(content);
    var passive := PassiveSentences(sentences);
    PercentageBounds(|passive|, |sentences|);
    PassiveReport(|sentences|, |passive|, Percentage(|passive|, |sentences|), CountPassive(content))
  }

  // ---------------------------------------------------------------------------------------
  // RunOnSentenceAnalyzer

  datatype RunOn = RunOn(sentence: string, wordCount: nat)

  /** `sentence[:100] + "..." if len(sentence) > 100 else sentence`. */
  function Shortened(s: string): (t: string)
    ensures |s| <= 100 ==> t == s
    ensures |s| > 100 ==> |t| == 103 && t[..100] == s[..100] && t[100..] == "..."
  {
    if |s| > 100 then s[..100] + "..." else s
  }

  /** The entry of a sentence: its shortened text and its word count. */
  function Entry(s: string): RunOn {
    RunOn(Shortened(s), |Tokens(s)|)
  }

  /** The entries for the sentences with more than maxWords words, in order. */
  function RunOns(sentences: seq<string>, maxWords: int): (rs: seq<RunOn>)
    ensures |rs| <= |sentences|
    ensures forall k :: 0 <= k < |rs| ==> rs[k].wordCount > maxWords
  {
    if sentences == [] then []
    else
      var rest := RunOns(sentences[1..], maxWords);
      var n := |Tokens(sentences[0])|;
      if n > maxWords then [RunOn(Shortened(sentences[0]), n)] + rest else rest
  }

  /** A sentence is flagged exactly when it has more than maxWords words, and its entry holds
      its shortened text and its word count. */
  lemma {:induction false} RunOnsExact(sentences: seq<string>, maxWords: int, k: nat)
    requires k < |sentences|
    ensures var s := sentences[k];
      RunOn(Shortened(s), |Tokens(s)|) in RunOns(sentences, maxWords) <==> |Tokens(s)| > maxWords
  {
    if k > 0 {
      RunOnsExact(sentences[1..], maxWords, k - 1);
    }
  }

  /** Positions into `xs[1..]` shifted by one are positions into xs, still increasing. */
  lemma ShiftPositions<T>(xs: seq<string>, f: string -> T, entries: seq<T>, tail: seq<nat>)
    returns (idx: seq<nat>)
    requires xs != [] && |tail| == |entries|
    requires forall k :: 0 <= k < |tail| ==> tail[k] < |xs| - 1 && entries[k] == f(xs[1..][tail[k]])
    requires forall k, j :: 0 <= k < j < |tail| ==> tail[k] < tail[j]
    ensures |idx| == |entries|
    ensures forall k :: 0 <= k < |idx| ==> 0 < idx[k] < |xs| && entries[k] == f(xs[idx[k]])
    ensures forall k, j :: 0 <= k < j < |idx| ==> idx[k] < idx[j]
  {
    idx := seq(|tail|, k requires 0 <= k < |tail| => tail[k] + 1);
    forall k | 0 <= k < |idx|
      ensures 0 < idx[k] < |xs| && entries[k] == f(xs[idx[k]])
    {
      assert xs[idx[k]] == xs[1..][tail[k]];
    }
  }

  /** Position 0 in front of increasing positive positions. */
  lemma PrependFirst<T>(xs: seq<string>, f: string -> T, entries: seq<T>, idx: seq<nat>)
    returns (idx': seq<nat>)
    requires xs != [] && |idx| == |entries|
    requires forall k :: 0 <= k < |idx| ==> 0 < idx[k] < |xs| && entries[k] == f(xs[idx[k]])
    requires forall k, j :: 0 <= k < j < |idx| ==> idx[k] < idx[j]
    ensures |idx'| == 1 + |entries|
    ensures forall k :: 0 <= k < |idx'| ==> idx'[k] < |xs| && ([f(xs[0])] + entries)[k] == f(xs[idx'[k]])
    ensures forall k, j :: 0 <= k < j < |idx'| ==> idx'[k] < idx'[j]
  {
    idx' := [0] + idx;
    forall k | 0 <= k < |idx'|
      ensures idx'[k] < |xs| && ([f(xs[0])] + entries)[k] == f(xs[idx'[k]])
    {
      if k > 0 {
        assert idx'[k] == idx[k - 1];
      }
    }
  }

  /** The entries come from the sentences in their order: entry k is that of the sentence at
      position idx[k], and the positions increase. */
  lemma {:induction false} RunOnsInOrder(sentences: seq<string>, maxWords: int) returns (idx: seq<nat>)
    ensures |idx| == |RunOns(sentences, maxWords)|
    ensures forall k :: 0 <= k < |idx| ==>
      idx[k] < |sentences| && RunOns(sentences, maxWords)[k] == Entry(sentences[idx[k]])
    ensures forall k, j :: 0 <= k < j < |idx| ==> idx[k] < idx[j]
    decreases |sentences|
  {
    if sentences == [] {
      idx := [];
    } else {
      var tail := RunOnsInOrder(sentences[1..], maxWords);
      var rest := RunOns(sentences[1..], maxWords);
      var shifted := ShiftPositions(sentences, Entry, rest, tail);
      if |Tokens(sentences[0])| > maxWords {
        assert RunOns(sentences, maxWords) == [Entry(sentences[0])] + rest;
        idx := PrependFirst(sentences, Entry, rest, shifted);
      } else {
        assert RunOns(sentences, maxWords) == rest;
        idx := shifted;
      }
    }
  }

  datatype RunOnReport = RunOnReport(
    totalSentences: nat, runOnSentences: nat, percentage: int, sentences: seq<RunOn>)
  {
    function Data(): Dict {
      [("total_sentences", VInt(totalSentences)), ("run_on_sentences", VInt(runOnSentences)),
       ("percentage", VInt(percentage)),
       ("sentences", VList(seq(|sentences|, k requires 0 <= k < |sentences| =>
          VDict([("sentence", VStr(sentences[k].sentence)), ("word_count", VInt(sentences[k].wordCount))]))))]
    }
  }

  /** `RunOnSentenceAnalyzer.execute(content, max_words)`. */
  function RunOnsOf(content: string, maxWords: int): (r: RunOnReport)
    ensures r.totalSentences == |Sentences(content)| && r.runOnSentences == |r.sentences|
    ensures r.sentences == RunOns(Sentences(content), maxWords)
    ensures r.runOnSentences <= r.totalSentences
    ensures r.totalSentences == 0 ==> r.percentage == 0
    ensures 0 <= r.percentage <= 100
  {
    var sentences := Sentences(content);
    var flagged := RunOns(sentences, maxWords);
    PercentageBounds(|flagged|, |sentences|);
    RunOnReport(|sentences|, |flagged|, Percentage(|flagged|, |sentences|), flagged)
  }
}
