/** The rewriting tools of `anti_slop/cleaners.py` other than the whitespace normaliser: the
    filler-word, hedging and redundancy cleaners, which thread the cleaned text through a loop
    of substitutions while counting matches in the ORIGINAL text, and the emoji cleaner. */
module Cleaners {
  import opened TextPrimitives
  import opened WordRuns
  import opened Matcher
  import opened Scan
  import opened Base

  const FillerWords: seq<string> := [
    "actually", "basically", "literally", "just", "very",
    "really", "quite", "rather", "somewhat", "perhaps", "maybe"
  ]

  const HedgePhrases: seq<string> := [
    "it seems", "it appears", "it might be", "it could be",
    "perhaps", "maybe", "possibly", "probably",
    "might", "could", "may", "would seem",
    "in some ways", "to some extent", "sort of", "kind of",
    "I think", "I believe", "I feel",
    "somewhat", "fairly", "relatively",
    "could potentially", "might possibly"
  ]

  const Redundancies: seq<Rule> := [
    Rule("absolutely essential", "essential"),
    Rule("absolutely necessary", "necessary"),
    Rule("added bonus", "bonus"),
    Rule("advance planning", "planning"),
    Rule("already existing", "existing"),
    Rule("basic fundamentals", "fundamentals"),
    Rule("close proximity", "proximity"),
    Rule("completely eliminate", "eliminate"),
    Rule("end result", "result"),
    Rule("final outcome", "outcome"),
    Rule("free gift", "gift"),
    Rule("future plans", "plans"),
    Rule("past history", "history"),
    Rule("personal opinion", "opinion"),
    Rule("true fact", "fact"),
    Rule("unexpected surprise", "surprise")
  ]

  // ---------------------------------------------------------------------------------------
  // The tables are well formed

  /** Every filler word is a non-empty run of word characters, so `\b` + word + `\b` matches
      exactly the whole words equal to it up to case. */
  lemma FillerWordsAreWords()
    ensures WordDeletions(Plain(FillerWords))
  {
  }

  lemma HedgePhrasesNonEmpty()
    ensures WellFormed(Plain(HedgePhrases))
  {
  }

  /** Every redundant phrase is non-empty and longer than its replacement. */
  lemma RedundanciesShorten()
    ensures WellFormed(Redundancies) && Shortening(Redundancies)
  {
  }

  function FillerRules(): (rules: seq<Rule>)
    ensures WordDeletions(rules) && WellFormed(rules) && |rules| == |FillerWords|
  {
    FillerWordsAreWords();
    Plain(FillerWords)
  }

  function HedgeRules(): (rules: seq<Rule>)
    ensures WellFormed(rules) && |rules| == |HedgePhrases|
  {
    HedgePhrasesNonEmpty();
    Plain(HedgePhrases)
  }

  // ---------------------------------------------------------------------------------------
  // The report every cleaner returns

  /** The text before and after, how much was removed, and the table entries that matched
      with their matches in the original text. */
  datatype Cleaned = Cleaned(original: string, cleaned: string, removed: nat, found: seq<Hit>)

  /** `{phrase: count}` for each hit, in table order (the `breakdown` dict). */
  function Breakdown(found: seq<Hit>): (d: Dict)
    ensures |d| == |found|
  {
    seq(|found|, k requires 0 <= k < |found| => (found[k].rule.phrase, VInt(found[k].Count())))
  }

  /** The deletions, each matched entry with its count, shown in original order. */
  function DeletionData(r: Cleaned, removedKey: string): Dict {
    [("original_content", VStr(r.original)), ("cleaned_content", VStr(r.cleaned)),
     (removedKey, VInt(r.removed)), ("breakdown", VDict(Breakdown(r.found)))]
  }

  // ---------------------------------------------------------------------------------------
  // FillerWordsCleaner and HedgingCleaner

  /** Deleting every matched entry of a deletion table, then repairing the spacing. */
  function DeletionsOf(rules: seq<Rule>, content: string): (r: Cleaned)
    requires WellFormed(rules)
    ensures r.original == content && r.found == Hits(rules, content)
    ensures r.removed == TotalCount(r.found) >= |r.found|
    ensures SingleSpaced(r.cleaned) && NoSpaceBeforePunct(r.cleaned) && Trimmed(r.cleaned)
  {
    var found := Hits(rules, content);
    TotalAtLeastHits(found);
    Cleaned(content, RepairSpacing(Substituted(rules, content)), TotalCount(found), found)
  }

  /** The loop of the two deleting cleaners, then the two `re.sub` calls and the strip. */
  method RemoveDeletions(rules: seq<Rule>, content: string) returns (r: Cleaned)
    requires WellFormed(rules)
    ensures r == DeletionsOf(rules, content)
  {
    var cleaned, found := ApplyRules(rules, content);
    cleaned := CollapseSpaces(cleaned);
    cleaned := Strip(DropSpaceBeforePunct(cleaned));
    TotalAtLeastHits(found);
    r := Cleaned(content, cleaned, TotalCount(found), found);
  }

  /** `FillerWordsCleaner.execute`. */
  method RemoveFillerWords(content: string) returns (r: Cleaned)
    ensures r == DeletionsOf(FillerRules(), content)
  {
    r := RemoveDeletions(FillerRules(), content);
  }

  /** `HedgingCleaner.execute`. */
  method RemoveHedging(content: string) returns (r: Cleaned)
    ensures r == DeletionsOf(HedgeRules(), content)
  {
    r := RemoveDeletions(HedgeRules(), content);
  }

  /** Deletion never lengthens the text. */
  lemma DeletionsNoLonger(rules: seq<Rule>, content: string)
    requires WellFormed(rules) && forall k :: 0 <= k < |rules| ==> rules[k].replacement == []
    ensures |DeletionsOf(rules, content).cleaned| <= |content|
  {
    SubstitutedNoLonger(rules, content);
  }

  /** When no entry matches, only the spacing is repaired. */
  lemma DeletionsNoHits(rules: seq<Rule>, content: string)
    requires WellFormed(rules) && Hits(rules, content) == []
    ensures DeletionsOf(rules, content).cleaned == RepairSpacing(content)
    ensures DeletionsOf(rules, content).removed == 0
  {
    NoHitsUnchanged(rules, content);
  }

  /** No filler word is left in the cleaned text: no case-insensitive whole-word match of any
      entry occurs anywhere in it. */
  lemma FillerWordsGone(content: string, k: nat, i: nat)
    requires k < |FillerWords|
    ensures !MatchAt(DeletionsOf(FillerRules(), content).cleaned, FillerWords[k], i)
  {
    DeletedWordAbsent(FillerRules(), content, k, i);
  }

  /** After deleting the words of a table of single words and repairing the spacing, no entry
      matches anywhere. */
  lemma DeletedWordAbsent(rules: seq<Rule>, content: string, k: nat, i: nat)
    requires WordDeletions(rules) && k < |rules|
    ensures !MatchAt(RepairSpacing(Substituted(rules, content)), rules[k].phrase, i)
  {
    var w := rules[k].phrase;
    var sub := Substituted(rules, content);
    if MatchAt(RepairSpacing(sub), w, i) {
      var t := MatchedWord(RepairSpacing(sub), w, i);
      WordsRepairSpacing(sub);
      assert t in Words(sub);
      DeletedWordsGone(rules, content, t);
    }
  }

  /** A match of a single word is a word of the text, equal to it up to case. */
  lemma MatchedWord(s: string, w: string, i: nat) returns (t: string)
    requires AllWordChars(w) && MatchAt(s, w, i)
    ensures t in Words(s) && LowerEq(t, w)
  {
    MatchIsRun(s, w, i);
    MaximalRunInWords(s, i, i + |w|);
    t := s[i..i + |w|];
  }

  /** The words left after removing filler words are words of the original text. */
  lemma FillerKeepsOtherWords(content: string, t: string)
    requires t in Words(DeletionsOf(FillerRules(), content).cleaned)
    ensures t in Words(content)
  {
    var sub := Substituted(FillerRules(), content);
    WordsRepairSpacing(sub);
    DeletedWordsGone(FillerRules(), content, t);
  }

  // ---------------------------------------------------------------------------------------
  // RedundancyCleaner

  /** The `changes` list: each matched entry with its replacement and count. */
  function ChangesData(found: seq<Hit>): (vs: seq<Value>)
    ensures |vs| == |found|
  {
    seq(|found|, k requires 0 <= k < |found| =>
      VDict([("phrase", VStr(found[k].rule.phrase)), ("replacement", VStr(found[k].rule.replacement)),
             ("count", VInt(found[k].Count()))]))
  }

  function RedundancyData(r: Cleaned): Dict {
    [("original_content", VStr(r.original)), ("cleaned_content", VStr(r.cleaned)),
     ("redundancies_removed", VInt(r.removed)), ("changes", VList(ChangesData(r.found)))]
  }

  /** `RedundancyCleaner.execute(content)`: each matched entry is replaced, no spacing repair
      follows, and `redundancies_removed` counts entries rather than matches; the result is
      never longer than the input. */
  function RedundancyOf(content: string): (r: Cleaned)
    ensures WellFormed(Redundancies)
    ensures r.original == content && r.found == Hits(Redundancies, content)
    ensures r.removed == |r.found| <= |Redundancies|
    ensures r.cleaned == Substituted(Redundancies, content) && |r.cleaned| <= |content|
  {
    RedundanciesShorten();
    SubstitutedNoLonger(Redundancies, content);
    var found := Hits(Redundancies, content);
    Cleaned(content, Substituted(Redundancies, content), |found|, found)
  }

  /** `RedundancyCleaner.execute`: the substitution loop. */
  method RemoveRedundancies(content: string) returns (r: Cleaned)
    ensures r == RedundancyOf(content)
  {
    RedundanciesShorten();
    var cleaned, found := ApplyRules(Redundancies, content);
    r := Cleaned(content, cleaned, |found|, found);
  }

  /** Text without any redundant phrase comes back exactly as it was. */
  lemma RedundancyNoHits(content: string)
    requires WellFormed(Redundancies) && Hits(Redundancies, content) == []
    ensures RedundancyOf(content).cleaned == content && RedundancyOf(content).removed == 0
  {
    NoHitsUnchanged(Redundancies, content);
  }

  // ---------------------------------------------------------------------------------------
  // EmojiCleaner

  /** The character class of `EMOJI_PATTERN`: twelve code-point ranges. */
  predicate IsEmoji(c: char) {
    || ('\U{1F600}' <= c <= '\U{1F64F}')
    || ('\U{1F300}' <= c <= '\U{1F5FF}')
    || ('\U{1F680}' <= c <= '\U{1F6FF}')
    || ('\U{1F700}' <= c <= '\U{1F77F}')
    || ('\U{1F780}' <= c <= '\U{1F7FF}')
    || ('\U{1F800}' <= c <= '\U{1F8FF}')
    || ('\U{1F900}' <= c <= '\U{1F9FF}')
    || ('\U{1FA00}' <= c <= '\U{1FA6F}')
    || ('\U{1FA70}' <= c <= '\U{1FAFF}')
    || ('\U{2600}' <= c <= '\U{26FF}')
    || ('\U{2700}' <= c <= '\U{27BF}')
    || ('\U{1F1E0}' <= c <= '\U{1F1FF}')
  }

  /** The facts below hold for any character class; `EMOJI_PATTERN` is `[class]+`. */
  predicate NoneIn(s: string, inClass: char -> bool) {
    forall j :: 0 <= j < |s| ==> !inClass(s[j])
  }

  /** `re.compile('[class]+').findall(s)`: the maximal runs of the class, in order. */
  function ClassRuns(s: string, inClass: char -> bool): (rs: seq<string>)
    ensures forall k :: 0 <= k < |rs| ==> rs[k] != [] && inClass(rs[k][0])
    decreases |s|
  {
    if s == [] then []
    else if inClass(s[0]) then
      var e := RunEnd(s, 0, inClass);
      [s[..e]] + ClassRuns(s[e..], inClass)
    else ClassRuns(s[1..], inClass)
  }

  /** run is the maximal run of the class that starts at position i of s: it cannot be
      extended on either side. */
  predicate ClassRunAt(s: string, inClass: char -> bool, run: string, i: nat) {
    && run != [] && i + |run| <= |s| && s[i..i + |run|] == run
    && (forall j :: i <= j < i + |run| ==> inClass(s[j]))
    && (i == 0 || !inClass(s[i - 1]))
    && (i + |run| == |s| || !inClass(s[i + |run|]))
  }

  /** Each item `findall` reports is a whole maximal run of the text, not a single character. */
  lemma {:induction false} ClassRunsMaximal(s: string, inClass: char -> bool, k: nat) returns (i: nat)
    requires k < |ClassRuns(s, inClass)|
    ensures ClassRunAt(s, inClass, ClassRuns(s, inClass)[k], i)
    decreases |s|
  {
    if inClass(s[0]) {
      var e := RunEnd(s, 0, inClass);
      if k == 0 {
        i := 0;
        assert s[0..e] == s[..e];
      } else {
        var j := ClassRunsMaximal(s[e..], inClass, k - 1);
        i := e + j;
        LaterClassRun(s, inClass, e, k, j);
      }
    } else {
      var j := ClassRunsMaximal(s[1..], inClass, k);
      i := j + 1;
      ClassRunShift(s, inClass, 1, ClassRuns(s, inClass)[k], j);
    }
  }

  /** The runs after the first one lie in the text after the first run. */
  lemma LaterClassRun(s: string, inClass: char -> bool, e: nat, k: nat, j: nat)
    requires s != [] && inClass(s[0]) && e == RunEnd(s, 0, inClass)
    requires 0 < k < |ClassRuns(s, inClass)| && k - 1 < |ClassRuns(s[e..], inClass)|
    requires ClassRunAt(s[e..], inClass, ClassRuns(s[e..], inClass)[k - 1], j)
    ensures ClassRunAt(s, inClass, ClassRuns(s, inClass)[k], e + j)
  {
    var rest := ClassRuns(s[e..], inClass);
    assert ClassRuns(s, inClass)[k] == rest[k - 1];
    ClassRunShift(s, inClass, e, rest[k - 1], j);
  }

  /** A maximal run of a suffix is a maximal run of the whole text when it does not touch a
      class character just before the suffix. */
  lemma ClassRunShift(s: string, inClass: char -> bool, d: nat, run: string, j: nat)
    requires d <= |s| && ClassRunAt(s[d..], inClass, run, j)
    requires j == 0 ==> d == 0 || !inClass(s[d - 1])
    ensures ClassRunAt(s, inClass, run, d + j)
  {
    var t := s[d..];
    assert forall m :: 0 <= m < |t| ==> t[m] == s[d + m];
    if j > 0 {
      assert s[d + j - 1] == t[j - 1];
    }
    assert s[d + j..d + j + |run|] == t[j..j + |run|];
  }

  /** `re.compile('[class]+').sub('', s)`: every character of the class deleted. */
  function DropClass(s: string, inClass: char -> bool): (r: string)
    ensures NoneIn(r, inClass) && |r| <= |s|
  {
    if s == [] then []
    else
      var rest := DropClass(s[1..], inClass);
      if inClass(s[0]) then rest else [s[0]] + rest
  }

  /** The characters of the class in s, in order. */
  function ClassChars(s: string, inClass: char -> bool): string {
    if s == [] then []
    else if inClass(s[0]) then [s[0]] + ClassChars(s[1..], inClass)
    else ClassChars(s[1..], inClass)
  }

  function Concat(rs: seq<string>): string {
    if rs == [] then [] else rs[0] + Concat(rs[1..])
  }

  /** The runs `findall` reports are together exactly the characters `sub` deletes, and the two
      parts account for every character of the text. */
  lemma {:induction false} ClassRunsPartition(s: string, inClass: char -> bool)
    ensures Concat(ClassRuns(s, inClass)) == ClassChars(s, inClass)
    ensures |ClassChars(s, inClass)| + |DropClass(s, inClass)| == |s|
    decreases |s|
  {
    if s != [] {
      ClassRunsPartition(s[1..], inClass);
      if inClass(s[0]) {
        var e := RunEnd(s, 0, inClass);
        ClassRunsPartition(s[e..], inClass);
        ClassCharsOfRun(s, inClass, e);
        assert ClassRuns(s, inClass) == [s[..e]] + ClassRuns(s[e..], inClass);
        assert Concat(ClassRuns(s, inClass)) == s[..e] + Concat(ClassRuns(s[e..], inClass));
      }
    }
  }

  /** The class characters of a text that starts with a run of e class characters. */
  lemma {:induction false} ClassCharsOfRun(s: string, inClass: char -> bool, e: nat)
    requires e <= |s| && forall j :: 0 <= j < e ==> inClass(s[j])
    ensures ClassChars(s, inClass) == s[..e] + ClassChars(s[e..], inClass)
    decreases e
  {
    if e > 0 {
      ClassCharsOfRun(s[1..], inClass, e - 1);
      assert s[1..][e - 1..] == s[e..];
      assert s[..e] == [s[0]] + s[1..][..e - 1];
    }
  }

  /** Collapsing whitespace introduces no character but ' ', so none of a class without ' '. */
  lemma {:induction false} CollapseKeepsNoneIn(s: string, inClass: char -> bool)
    requires NoneIn(s, inClass) && !inClass(' ')
    ensures NoneIn(CollapseSpaces(s), inClass)
    decreases |s|
  {
    if s != [] {
      var k := if IsSpace(s[0]) then RunEnd(s, 0, IsSpace) else 1;
      var rest := s[k..];
      assert forall j :: 0 <= j < |rest| ==> rest[j] == s[k + j];
      CollapseKeepsNoneIn(rest, inClass);
      var c := if IsSpace(s[0]) then ' ' else s[0];
      assert CollapseSpaces(s) == [c] + CollapseSpaces(rest);
    }
  }

  /** Collapsing and stripping text without class characters leaves it without them. */
  lemma CollapseStripNoneIn(s: string, inClass: char -> bool)
    requires NoneIn(s, inClass) && !inClass(' ')
    ensures NoneIn(Strip(CollapseSpaces(s)), inClass)
  {
    var collapsed := CollapseSpaces(s);
    CollapseKeepsNoneIn(s, inClass);
    var i := StripIsSlice(collapsed);
    var cleaned := Strip(collapsed);
    forall j | 0 <= j < |cleaned| ensures !inClass(cleaned[j]) {
      assert cleaned[j] == collapsed[i + j];
    }
  }

  datatype EmojiReport = EmojiReport(original: string, cleaned: string, emojisFound: seq<string>) {
    function Data(): Dict {
      [("original_content", VStr(original)), ("cleaned_content", VStr(cleaned)),
       ("emojis_removed", VInt(|emojisFound|)),
       ("emojis_found", VList(seq(|emojisFound|, k requires 0 <= k < |emojisFound| => VStr(emojisFound[k]))))]
    }
  }

  /** `EmojiCleaner.execute(content)`: the cleaned text holds no emoji, single spaces only,
      and no whitespace at either end. */
  function EmojiOf(content: string): (r: EmojiReport)
    ensures r.original == content && r.emojisFound == ClassRuns(content, IsEmoji)
    ensures NoneIn(r.cleaned, IsEmoji) && SingleSpaced(r.cleaned) && Trimmed(r.cleaned)
  {
    var collapsed := CollapseSpaces(DropClass(content, IsEmoji));
    StripKeepsSingleSpaced(collapsed);
    CollapseStripNoneIn(DropClass(content, IsEmoji), IsEmoji);
    EmojiReport(content, Strip(collapsed), ClassRuns(content, IsEmoji))
  }

  /** `EmojiCleaner.execute`: findall, sub, collapse, strip. */
  method RemoveEmojis(content: string) returns (r: EmojiReport)
    ensures r == EmojiOf(content)
  {
    var emojis := ClassRuns(content, IsEmoji);
    var cleaned := DropClass(content, IsEmoji);
    cleaned := CollapseSpaces(cleaned);
    cleaned := Strip(cleaned);
    r := EmojiReport(content, cleaned, emojis);
  }
}
