/** The request handlers of `server.py` that do not call the chat-completion service. The
    server repeats the package's tables and most of its tool bodies; each handler here is
    modelled on its own text and then shown to agree with the package tool, or, where it
    differs, exactly how. */
module Server {
  import opened Wrappers
  import opened TextPrimitives
  import opened Base
  import opened Matcher
  import opened Scan
  import opened Analyzers
  import opened Cleaners
  import opened Readability

  // ---------------------------------------------------------------------------------------
  // remove_em_dashes

  /** The em dash, U+2014. */
  const EmDash: char := '\U{2014}'

  /** `s.replace(c, d)` for one character c: every c becomes d, nothing moves. */
  function ReplaceChar(s: string, c: char, d: char): (r: string)
    ensures |r| == |s|
    ensures forall i :: 0 <= i < |s| ==> r[i] == (if s[i] == c then d else s[i])
  {
    if s == [] then [] else [if s[0] == c then d else s[0]] + ReplaceChar(s[1..], c, d)
  }

  /** `s.count(c)` for one character c. */
  function CountChar(s: string, c: char): nat {
    if s == [] then 0 else (if s[0] == c then 1 else 0) + CountChar(s[1..], c)
  }

  /** `str.count` counts exactly the occurrences of the character. */
  lemma {:induction false} CountIsMultiplicity(s: string, c: char)
    ensures CountChar(s, c) == multiset(s)[c]
  {
    if s != [] {
      CountIsMultiplicity(s[1..], c);
      assert s == [s[0]] + s[1..];
    }
  }

  /** Replacing c by a different d leaves no c, turns every c into one more d, and keeps the
      number of every other character. */
  lemma {:induction false} ReplaceCharCounts(s: string, c: char, d: char, e: char)
    requires c != d
    ensures CountChar(ReplaceChar(s, c, d), e) ==
      if e == c then 0 else if e == d then CountChar(s, d) + CountChar(s, c) else CountChar(s, e)
  {
    if s != [] {
      ReplaceCharCounts(s[1..], c, d, e);
      assert ReplaceChar(s, c, d)[1..] == ReplaceChar(s[1..], c, d);
    }
  }

  /** The response of `remove_em_dashes`. */
  datatype EmDashReport = EmDashReport(original: string, cleaned: string, removed: nat) {
    function Data(): Dict {
      [("original_content", VStr(original)), ("cleaned_content", VStr(cleaned)),
       ("removals", VDict([("em_dashes_removed", VInt(removed))]))]
    }
  }

  /** `remove_em_dashes`: each em dash becomes a hyphen (it is replaced, not deleted), so the
      length is kept, every other character stays where it was, and the count reported is the
      number of em dashes in the input. */
  function RemoveEmDashes(content: string): (r: EmDashReport)
    ensures r.original == content
    ensures |r.cleaned| == |content| && EmDash !in r.cleaned
    ensures r.removed == multiset(content)[EmDash]
    ensures forall i :: 0 <= i < |content| && content[i] != EmDash ==> r.cleaned[i] == content[i]
    ensures forall i :: 0 <= i < |content| && content[i] == EmDash ==> r.cleaned[i] == '-'
  {
    CountIsMultiplicity(content, EmDash);
    var cleaned := ReplaceChar(content, EmDash, '-');
    assert forall i :: 0 <= i < |cleaned| ==> cleaned[i] != EmDash;
    EmDashReport(content, cleaned, CountChar(content, EmDash))
  }

  /** The hyphens of the cleaned text are the input's hyphens plus one per em dash removed,
      and no other character changes in number. */
  lemma EmDashesBecomeHyphens(content: string, e: char)
    ensures var r := RemoveEmDashes(content);
      && multiset(r.cleaned)['-'] == multiset(content)['-'] + r.removed
      && (e != EmDash && e != '-' ==> multiset(r.cleaned)[e] == multiset(content)[e])
  {
    var cleaned := RemoveEmDashes(content).cleaned;
    ReplaceCharCounts(content, EmDash, '-', e);
    ReplaceCharCounts(content, EmDash, '-', '-');
    CountIsMultiplicity(content, EmDash);
    CountIsMultiplicity(content, '-');
    CountIsMultiplicity(content, e);
    CountIsMultiplicity(cleaned, '-');
    CountIsMultiplicity(cleaned, e);
  }

  /** Text without em dashes comes back unchanged, with a count of zero. */
  lemma NoEmDashUnchanged(content: string)
    requires EmDash !in content
    ensures RemoveEmDashes(content).cleaned == content && RemoveEmDashes(content).removed == 0
  {
  }

  // ---------------------------------------------------------------------------------------
  // detect_ai_phrases

  /** The handler's own `ai_phrases` list. */
  const ServerAiPhrases: seq<string> := [
    "delve into", "delve deeper", "delving into",
    "it's worth noting", "worth noting that",
    "in today's world", "in today's landscape", "in today's digital age",
    "navigate the complexities", "navigating the complexities",
    "at the end of the day",
    "it's important to note",
    "plays a crucial role",
    "robust solution", "robust framework",
    "holistic approach", "holistic view",
    "leverage", "leveraging",
    "synergy", "synergistic",
    "paradigm shift",
    "game changer", "game-changer",
    "disrupt", "disruptive",
    "cutting-edge", "cutting edge",
    "state-of-the-art", "state of the art",
    "best practices",
    "deep dive", "deep-dive",
    "unpack", "let's unpack",
    "double down",
    "circle back",
    "move the needle",
    "low-hanging fruit",
    "on the same page",
    "think outside the box",
    "push the envelope",
    "touch base"
  ]

  /** The handler's list is the analyzer's `PHRASES`, entry for entry. */
  lemma ServerAiPhrasesArePackagePhrases()
    ensures ServerAiPhrases == AiPhraseTable
  {
  }

  function ServerAiPhraseRules(): (rules: seq<Rule>)
    ensures rules == AiPhraseRules() && WellFormed(rules)
  {
    ServerAiPhrasesArePackagePhrases();
    Plain(ServerAiPhrases)
  }

  /** The matched texts as a list of strings. */
  function Strings(ss: seq<string>): (vs: seq<Value>)
    ensures |vs| == |ss| && forall k :: 0 <= k < |ss| ==> vs[k] == VStr(ss[k])
  {
    seq(|ss|, k requires 0 <= k < |ss| => VStr(ss[k]))
  }

  /** `{"phrase": p, "count": n, "instances": matches}`. */
  function InstanceDict(h: Hit): Dict {
    [("phrase", VStr(h.rule.phrase)), ("count", VInt(h.Count())), ("instances", VList(Strings(h.matches)))]
  }

  /** The entries of `phrases`, one per hit. */
  function InstanceDicts(hits: seq<Hit>): (vs: seq<Value>)
    ensures |vs| == |hits| && forall k :: 0 <= k < |hits| ==> vs[k] == VDict(InstanceDict(hits[k]))
  {
    seq(|hits|, k requires 0 <= k < |hits| => VDict(InstanceDict(hits[k])))
  }

  /** An entry's `instances` list is as long as its `count`. */
  lemma InstanceDictFields(h: Hit)
    ensures Get(InstanceDict(h), "count") == Some(VInt(|h.matches|))
    ensures Get(InstanceDict(h), "instances") == Some(VList(Strings(h.matches)))
    ensures |Strings(h.matches)| == |h.matches|
  {
    var d := InstanceDict(h);
    assert d[1..][1..] == [d[2]];
  }

  /** The response of `detect_ai_phrases`. */
  datatype AiPhraseDetection = AiPhraseDetection(
    content: string, detected: nat, totalInstances: nat, phrases: seq<Hit>, slopScore: nat)
  {
    function Data(): Dict {
      [("content", VStr(content)), ("ai_phrases_detected", VInt(detected)),
       ("total_instances", VInt(totalInstances)), ("phrases", VList(InstanceDicts(phrases))),
       ("slop_score", VInt(slopScore))]
    }
  }

  /** `detect_ai_phrases`: one entry per listed phrase that occurs, in list order; the total
      counts every instance, so it is at least the number of phrases found; the score grows
      with the number of distinct phrases and stops at 10. */
  function AiPhrasesDetected(content: string): (r: AiPhraseDetection)
    ensures r.content == content && r.phrases == Hits(AiPhraseRules(), content)
    ensures r.detected == |r.phrases| <= |ServerAiPhrases|
    ensures r.totalInstances == TotalCount(r.phrases) >= r.detected
    ensures r.slopScore == SlopScore(r.detected) <= 10
  {
    var found := Hits(ServerAiPhraseRules(), content);
    TotalAtLeastHits(found);
    AiPhraseDetection(content, |found|, TotalCount(found), found, SlopScore(|found|))
  }

  /** The handler finds the same phrases as `AIPhrasesAnalyzer.execute` and scores them the
      same; it adds the matched texts and their total. */
  lemma AiPhrasesAgreeWithAnalyzer(content: string)
    ensures var s, p := AiPhrasesDetected(content), AiPhrasesOf(content);
      s.phrases == p.phrases && s.detected == p.phrasesDetected && s.slopScore == p.slopScore
  {
  }

  /** Each entry's `instances` list holds exactly `count` texts, each the entry's phrase up to
      case, and they are what `findall` returns on the content. */
  lemma InstancesMatchCount(content: string, k: nat)
    requires k < |AiPhrasesDetected(content).phrases|
    ensures var h := AiPhrasesDetected(content).phrases[k];
      && InstanceDicts(AiPhrasesDetected(content).phrases)[k] == VDict(InstanceDict(h))
      && Get(InstanceDict(h), "count") == Some(VInt(|h.matches|))
      && Get(InstanceDict(h), "instances") == Some(VList(Strings(h.matches)))
      && |h.matches| >= 1 && h.matches == FindAll(content, h.rule.phrase)
      && forall j :: 0 <= j < |h.matches| ==> LowerEq(h.matches[j], h.rule.phrase)
  {
    var h := AiPhrasesDetected(content).phrases[k];
    InstanceDictFields(h);
    var rules := AiPhraseRules();
    assert h.rule in rules;
    var i :| 0 <= i < |rules| && rules[i] == h.rule;
    assert h.rule.phrase != [];
  }

  /** The handler: the loop over `ai_phrases`, then the sum over the entries found. */
  method DetectAiPhrases(content: string) returns (r: AiPhraseDetection)
    ensures r == AiPhrasesDetected(content)
  {
    var found := FindHits(ServerAiPhraseRules(), content);
    var total := 0;
    for i := 0 to |found|
      invariant total == TotalCount(found[..i])
    {
      assert found[..i + 1][..i] == found[..i];
      total := total + found[i].Count();
    }
    assert found[..|found|] == found;
    r := AiPhraseDetection(content, |found|, total, found, SlopScore(|found|));
  }

  // ---------------------------------------------------------------------------------------
  // The cleaner handlers

  /** The handler's own `filler_words` list. */
  const ServerFillerWords: seq<string> := [
    "actually", "basically", "literally", "just", "very", "really", "quite", "rather",
    "somewhat", "perhaps", "maybe"
  ]

  /** The handler's own `hedge_phrases` list. */
  const ServerHedgePhrases: seq<string> := [
    "it seems", "it appears", "it might be", "it could be",
    "perhaps", "maybe", "possibly", "probably",
    "might", "could", "may", "would seem",
    "in some ways", "to some extent", "sort of", "kind of",
    "I think", "I believe", "I feel",
    "somewhat", "fairly", "relatively",
    "could potentially", "might possibly"
  ]

  /** The handler's own `redundancies` list. */
  const ServerRedundancies: seq<Rule> := [
    Rule("absolutely essential", "essential"),
    Rule("absolutely necessary", "necessary"),
    Rule("added bonus", "bonus"),
    Rule("advance planning", "planning"),
    Rule("already existing", "existing"),
    Rule("basic fundamentals", "fundamentals"),
    Rule("close proximity", "proximity"),
    Rule("completely eliminate", "eliminate"),
    Rule("end result", "result"),
    Rule("final outcome", "outcome"),
    Rule("free gift", "gift"),
    Rule("future plans", "plans"),
    Rule("past history", "history"),
    Rule("personal opinion", "opinion"),
    Rule("true fact", "fact"),
    Rule("unexpected surprise", "surprise")
  ]

  /** The three lists are the cleaners' tables, entry for entry. */
  lemma ServerTablesArePackageTables()
    ensures ServerFillerWords == FillerWords
    ensures ServerHedgePhrases == HedgePhrases
    ensures ServerRedundancies == Redundancies
  {
  }

  /** `remove_filler_words`: the response is the data `FillerWordsCleaner.execute` returns. */
  method RemoveFillerWords(content: string) returns (d: Dict)
    ensures d == DeletionData(DeletionsOf(FillerRules(), content), "filler_words_removed")
  {
    ServerTablesArePackageTables();
    assert Plain(ServerFillerWords) == FillerRules();
    var r := RemoveDeletions(Plain(ServerFillerWords), content);
    d := DeletionData(r, "filler_words_removed");
  }

  /** `remove_hedging`: the response is the data `HedgingCleaner.execute` returns. */
  method RemoveHedging(content: string) returns (d: Dict)
    ensures d == DeletionData(DeletionsOf(HedgeRules(), content), "hedging_removed")
  {
    ServerTablesArePackageTables();
    assert Plain(ServerHedgePhrases) == HedgeRules();
    var r := RemoveDeletions(Plain(ServerHedgePhrases), content);
    d := DeletionData(r, "hedging_removed");
  }

  /** `remove_redundancies`: the response is the data `RedundancyCleaner.execute` returns. */
  method RemoveRedundancies(content: string) returns (d: Dict)
    ensures d == RedundancyData(RedundancyOf(content))
  {
    ServerTablesArePackageTables();
    var r := Cleaners.RemoveRedundancies(content);
    d := RedundancyData(r);
  }

  /** `remove_emojis`: the cleaner's two texts, then its two findings nested under
      `removals`. */
  method RemoveEmojis(content: string) returns (d: Dict)
    ensures |d| == 3 && d[0] == ("original_content", VStr(content))
    ensures d[1] == ("cleaned_content", VStr(EmojiOf(content).cleaned))
    ensures d[2] == ("removals", VDict([("emojis_removed", VInt(|ClassRuns(content, IsEmoji)|)),
                                       ("emojis_found", VList(Strings(ClassRuns(content, IsEmoji))))]))
  {
    var r := Cleaners.RemoveEmojis(content);
    d := [("original_content", VStr(r.original)), ("cleaned_content", VStr(r.cleaned)),
          ("removals", VDict([("emojis_removed", VInt(|r.emojisFound|)),
                              ("emojis_found", VList(Strings(r.emojisFound)))]))];
  }

  /** The nested findings are the cleaner's `emojis_removed` and `emojis_found`, unchanged. */
  lemma EmojiFindingsAsCleaner(r: EmojiReport)
    ensures r.Data()[2..] == [("emojis_removed", VInt(|r.emojisFound|)),
                              ("emojis_found", VList(Strings(r.emojisFound)))]
  {
    assert r.Data()[3].1 == VList(Strings(r.emojisFound));
  }

  // ---------------------------------------------------------------------------------------
  // calculate_readability

  /** `max(0, min(100, n))` on an int. */
  function ClampInt(n: int): (m: int)
    ensures 0 <= m <= 100
    ensures 0 <= n <= 100 ==> m == n
  {
    if n < 0 then 0 else if n > 100 then 100 else n
  }

  /** `max(0, round(g, 1))`: the rounded float when it is above zero, the int 0 otherwise. */
  function NonNegativeTenths(g: real): (v: Value)
    ensures v == VInt(0) || (v.VTenths? && v.tenths > 0)
  {
    var t := RoundHalfEven(g * 10.0);
    if t > 0 then VTenths(t) else VInt(0)
  }

  /** `calculate_readability`: the package's counts, but the ease is rounded before it is
      clamped, the grade is rounded before it is floored at zero, and the label is taken on
      the unclamped score. */
  function ReadabilityOf(content: string): (st: Stats)
    ensures 0 <= st.ease <= 100
    ensures st.grade == VInt(0) || (st.grade.VTenths? && st.grade.tenths > 0)
  {
    var sentences := |Sentences(content)|;
    var tokens := Tokens(content);
    var words := |tokens|;
    var syllables := SyllableTotal(tokens);
    var asl := Ratio(words, sentences);
    var aspw := Ratio(syllables, words);
    var flesch := Flesch(asl.Real(), aspw.Real());
    Stats(sentences, words, syllables, Round1(asl), Round1(aspw),
          ClampInt(RoundHalfEven(flesch)), NonNegativeTenths(Grade(asl.Real(), aspw.Real())),
          Difficulty(flesch))
  }

  /** The handler's response: the content, then the `stats` and `readability` dicts. */
  function ReadabilityResponse(content: string): Dict {
    [("content", VStr(content))] + ReadabilityOf(content).Data()
  }

  /** Rounding then clamping to [0, 100] gives the same whole number as clamping then
      rounding. */
  lemma RoundThenClamp(x: real)
    ensures ClampInt(RoundHalfEven(x)) == RoundHalfEven(Clamp(x).Real())
  {
    if x <= 0.0 {
      RoundMonotone(x, 0.0);
      assert RoundHalfEven(0.0) == 0;
    } else if x >= 100.0 {
      RoundMonotone(100.0, x);
      assert RoundHalfEven(100.0) == 100;
    }
  }

  /** Flooring at zero after rounding and rounding after flooring agree, except that a grade
      just above zero that rounds to 0.0 comes out as the float 0.0 in the package and as the
      int 0 in the server. */
  lemma GradeAgrees(g: real)
    ensures var s, p := NonNegativeTenths(g), Round1(AtLeastZero(g));
      s == p || (s == VInt(0) && p == VTenths(0))
  {
    if g > 0.0 {
      RoundMonotone(0.0, g * 10.0);
      assert RoundHalfEven(0.0) == 0;
    }
  }

  /** The handler reports the same counts, averages, reading ease and label as
      `ReadabilityAnalyzer.execute`, and the same grade up to `0` against `0.0`. The label
      agrees because every threshold lies inside [0, 100]. */
  lemma ReadabilityAgreesWithAnalyzer(content: string)
    ensures var s, p := ReadabilityOf(content), Analyze(content);
      && s.sentences == p.sentences && s.words == p.words && s.syllables == p.syllables
      && s.avgSentenceLength == p.avgSentenceLength
      && s.avgSyllablesPerWord == p.avgSyllablesPerWord
      && s.ease == p.ease && s.difficulty == p.difficulty
      && (s.grade == p.grade || (s.grade == VInt(0) && p.grade == VTenths(0)))
  {
    var tokens := Tokens(content);
    var asl := Ratio(|tokens|, |Sentences(content)|);
    var aspw := Ratio(SyllableTotal(tokens), |tokens|);
    var flesch := Flesch(asl.Real(), aspw.Real());
    RoundThenClamp(flesch);
    DifficultyIgnoresClamp(flesch);
    GradeAgrees(Grade(asl.Real(), aspw.Real()));
  }
}
