/** `ReadabilityAnalyzer`: the syllable heuristic `count_syllables`, the difficulty label
    `get_difficulty`, and the Flesch reading-ease and grade-level statistics of `execute`.
    Python floats are modelled as exact reals (see README, "Left out"); Python keeps track of
    whether a number is an `int` or a `float`, which decides how it prints, and so does `Num`. */
module Readability {
  import opened TextPrimitives
  import opened Base

  // ---------------------------------------------------------------------------------------
  // Python's round()

  /** `round(x)`: the nearest integer, ties to the even one. */
  function RoundHalfEven(x: real): (n: int)
    ensures x - 1.0 / 2.0 <= n as real <= x + 1.0 / 2.0
    ensures n as real == x - 1.0 / 2.0 || n as real == x + 1.0 / 2.0 ==> n % 2 == 0
  {
    var f := x.Floor;
    var frac := x - f as real;
    if frac < 1.0 / 2.0 then f
    else if frac > 1.0 / 2.0 then f + 1
    else if f % 2 == 0 then f
    else f + 1
  }

  /** Rounding never leaves an interval with integer ends. */
  lemma RoundWithin(x: real, lo: int, hi: int)
    requires lo as real <= x <= hi as real
    ensures lo <= RoundHalfEven(x) <= hi
  {
  }

  /** Rounding is monotone. */
  lemma RoundMonotone(x: real, y: real)
    requires x <= y
    ensures RoundHalfEven(x) <= RoundHalfEven(y)
  {
    var fx, fy := x.Floor, y.Floor;
    assert fx <= fy;
  }

  /** `round((part / whole) * 100) if whole else 0`. */
  function Percentage(part: nat, whole: nat): int {
    if whole == 0 then 0 else RoundHalfEven(part as real / whole as real * 100.0)
  }

  /** A part of a whole is between 0 and 100 percent of it. */
  lemma PercentageBounds(part: nat, whole: nat)
    requires part <= whole
    ensures 0 <= Percentage(part, whole) <= 100
  {
    if whole > 0 {
      var q := part as real / whole as real;
      assert q * whole as real == part as real;
      assert q <= 1.0;
      RoundWithin(q * 100.0, 0, 100);
    }
  }

  /** A Python number: an `int` or a `float`. */
  datatype Num = IntNum(i: int) | FloatNum(r: real) {
    function Real(): real {
      match this
      case IntNum(i) => i as real
      case FloatNum(r) => r
    }
  }

  /** `round(n, 1)`: an int stays the same int; a float becomes a float with one decimal. */
  function Round1(n: Num): (v: Value)
    ensures v.VInt? || v.VTenths?
  {
    match n
    case IntNum(i) => VInt(i)
    case FloatNum(r) => VTenths(RoundHalfEven(r * 10.0))
  }

  /** `max(0, min(100, x))`: Python returns the first of equal arguments, so a clamped score
      is the int 0 or 100 and an unclamped one keeps its type. */
  function Clamp(x: real): (n: Num)
    ensures 0.0 <= n.Real() <= 100.0
    ensures 0.0 <= x <= 100.0 ==> n.Real() == x
  {
    if x < 100.0 then (if x > 0.0 then FloatNum(x) else IntNum(0)) else IntNum(100)
  }

  // ---------------------------------------------------------------------------------------
  // count_syllables

  predicate IsLowerLetter(c: char) {
    'a' <= c <= 'z'
  }

  /** `[aeiouy]`. */
  predicate IsVowel(c: char) {
    c == 'a' || c == 'e' || c == 'i' || c == 'o' || c == 'u' || c == 'y'
  }

  /** `[^laeiouy]`. */
  predicate NotLOrVowel(c: char) {
    c != 'l' && !IsVowel(c)
  }

  /** `re.sub(r'[^a-z]', '', word.lower())`. */
  function Letters(word: string): (w: string)
    ensures |w| <= |word|
    ensures forall i :: 0 <= i < |w| ==> IsLowerLetter(w[i])
  {
    if word == [] then []
    else
      var c := Lower(word[0]);
      (if IsLowerLetter(c) then [c] else []) + Letters(word[1..])
  }

  /** `re.sub(r'(?:[^laeiouy]es|ed|[^laeiouy]e)$', '', w)`: the leftmost match that ends the
      word, so a consonant before "es" or "e" goes with it. */
  function DropSuffix(w: string): (r: string)
    requires |w| >= 3
    ensures |w| - 3 <= |r| <= |w| && r == w[..|r|]
  {
    var n := |w|;
    if w[n - 2..] == "es" && NotLOrVowel(w[n - 3]) then w[..n - 3]
    else if w[n - 2..] == "ed" then w[..n - 2]
    else if w[n - 1] == 'e' && NotLOrVowel(w[n - 2]) then w[..n - 2]
    else w
  }

  /** `re.sub(r'^y', '', w)`. */
  function DropLeadingY(w: string): (r: string)
    ensures r == w || (w != [] && w[0] == 'y' && r == w[1..])
  {
    if w != [] && w[0] == 'y' then w[1..] else w
  }

  /** `len(re.findall(r'[aeiouy]{1,2}', w))`: greedy chunks of one or two vowels. */
  function VowelChunks(w: string): nat
    decreases |w|
  {
    if w == [] then 0
    else if !IsVowel(w[0]) then VowelChunks(w[1..])
    else if |w| >= 2 && IsVowel(w[1]) then 1 + VowelChunks(w[2..])
    else 1 + VowelChunks(w[1..])
  }

  /** `count_syllables(word)`. */
  function CountSyllables(word: string): (n: nat)
    ensures n >= 1
    ensures |Letters(word)| <= 3 ==> n == 1
  {
    var w := Letters(word);
    if |w| <= 3 then 1
    else
      var chunks := VowelChunks(DropLeadingY(DropSuffix(w)));
      if chunks == 0 then 1 else chunks
  }

  /** A reference count: each maximal run of k vowels contributes ceil(k / 2). */
  function RunHalves(w: string): nat
    decreases |w|
  {
    if w == [] then 0
    else if !IsVowel(w[0]) then RunHalves(w[1..])
    else
      var k := RunEnd(w, 0, IsVowel);
      (k + 1) / 2 + RunHalves(w[k..])
  }

  /** A leading run of k vowels yields ceil(k / 2) chunks. */
  lemma {:induction false} ChunksOfRun(w: string, k: nat)
    requires k <= |w| && forall j :: 0 <= j < k ==> IsVowel(w[j])
    requires k == |w| || !IsVowel(w[k])
    ensures VowelChunks(w) == (k + 1) / 2 + VowelChunks(w[k..])
    decreases k
  {
    if k == 0 {
      assert w[k..] == w;
    } else if k == 1 {
    } else {
      ChunksOfRun(w[2..], k - 2);
      assert w[2..][k - 2..] == w[k..];
    }
  }

  /** The greedy chunk count equals the reference count: a run of three vowels counts twice. */
  lemma {:induction false} ChunksAreRunHalves(w: string)
    ensures VowelChunks(w) == RunHalves(w)
    decreases |w|
  {
    if w != [] {
      if !IsVowel(w[0]) {
        ChunksAreRunHalves(w[1..]);
      } else {
        var k := RunEnd(w, 0, IsVowel);
        ChunksOfRun(w, k);
        ChunksAreRunHalves(w[k..]);
      }
    }
  }

  /** The syllables of the tokens, summed. */
  function SyllableTotal(words: seq<string>): (n: nat)
    ensures n >= |words|
  {
    if words == [] then 0 else CountSyllables(words[0]) + SyllableTotal(words[1..])
  }

  // ---------------------------------------------------------------------------------------
  // get_difficulty

  /** `get_difficulty(score)`. */
  function Difficulty(score: real): string {
    if score >= 90.0 then "Very Easy"
    else if score >= 80.0 then "Easy"
    else if score >= 70.0 then "Fairly Easy"
    else if score >= 60.0 then "Standard"
    else if score >= 50.0 then "Fairly Difficult"
    else if score >= 30.0 then "Difficult"
    else "Very Difficult"
  }

  /** The labels from hardest to easiest, and the thresholds that separate them. */
  const Labels: seq<string> :=
    ["Very Difficult", "Difficult", "Fairly Difficult", "Standard", "Fairly Easy", "Easy", "Very Easy"]
  const Thresholds: seq<real> := [30.0, 50.0, 60.0, 70.0, 80.0, 90.0]

  /** How many thresholds the score reaches. */
  function Level(score: real, ts: seq<real>): (n: nat)
    ensures n <= |ts|
  {
    if ts == [] then 0 else (if ts[0] <= score then 1 else 0) + Level(score, ts[1..])
  }

  /** The label is the one for the number of thresholds the score reaches. */
  lemma DifficultyByLevel(score: real)
    ensures Difficulty(score) == Labels[Level(score, Thresholds)]
  {
    var ts := Thresholds;
    assert ts[6..] == [];
    var l5 := Level(score, ts[5..]);
    assert ts[5..][1..] == ts[6..];
    assert l5 == if 90.0 <= score then 1 else 0;
    var l4 := Level(score, ts[4..]);
    assert ts[4..][1..] == ts[5..];
    assert l4 == (if 80.0 <= score then 1 else 0) + l5;
    var l3 := Level(score, ts[3..]);
    assert ts[3..][1..] == ts[4..];
    assert l3 == (if 70.0 <= score then 1 else 0) + l4;
    var l2 := Level(score, ts[2..]);
    assert ts[2..][1..] == ts[3..];
    assert l2 == (if 60.0 <= score then 1 else 0) + l3;
    var l1 := Level(score, ts[1..]);
    assert ts[1..][1..] == ts[2..];
    assert l1 == (if 50.0 <= score then 1 else 0) + l2;
    assert Level(score, ts) == (if 30.0 <= score then 1 else 0) + l1;
  }

  /** A higher score never gets a harder label. */
  lemma {:induction false} LevelMonotone(a: real, b: real, ts: seq<real>)
    requires a <= b
    ensures Level(a, ts) <= Level(b, ts)
  {
    if ts != [] {
      LevelMonotone(a, b, ts[1..]);
    }
  }

  /** Every threshold lies in [30, 90], so clamping the score to [0, 100] keeps its label. */
  lemma DifficultyIgnoresClamp(score: real)
    ensures Difficulty(Clamp(score).Real()) == Difficulty(score)
  {
  }

  // ---------------------------------------------------------------------------------------
  // execute

  datatype Stats = Stats(
    sentences: nat, words: nat, syllables: nat,
    avgSentenceLength: Value, avgSyllablesPerWord: Value,
    ease: int, grade: Value, difficulty: string)
  {
    /** The `stats` and `readability` dicts of the result. */
    function Data(): Dict {
      [("stats", VDict([("sentences", VInt(sentences)), ("words", VInt(words)), ("syllables", VInt(syllables)),
                        ("avg_sentence_length", avgSentenceLength), ("avg_syllables_per_word", avgSyllablesPerWord)])),
       ("readability", VDict([("flesch_reading_ease", VInt(ease)), ("grade_level", grade),
                              ("difficulty", VStr(difficulty))]))]
    }
  }

  /** `a / b if b > 0 else 0`: a float, or the int 0. */
  function Ratio(a: nat, b: nat): (n: Num)
    ensures b == 0 ==> n == IntNum(0)
    ensures b > 0 ==> n == FloatNum(a as real / b as real)
  {
    if b > 0 then FloatNum(a as real / b as real) else IntNum(0)
  }

  /** `206.835 - 1.015 * avg_sentence_length - 84.6 * avg_syllables_per_word`. */
  function Flesch(asl: real, aspw: real): real {
    206835.0 / 1000.0 - 1015.0 / 1000.0 * asl - 846.0 / 10.0 * aspw
  }

  /** `0.39 * avg_sentence_length + 11.8 * avg_syllables_per_word - 15.59`. */
  function Grade(asl: real, aspw: real): real {
    39.0 / 100.0 * asl + 118.0 / 10.0 * aspw - 1559.0 / 100.0
  }

  /** `max(0, g)`: the float g when positive, the int 0 otherwise. */
  function AtLeastZero(g: real): (n: Num)
    ensures n.Real() >= 0.0
  {
    if g > 0.0 then FloatNum(g) else IntNum(0)
  }

  /** `ReadabilityAnalyzer.execute(content)`. */
  function Analyze(content: string): Stats {
    var sentences := |Sentences(content)|;
    var tokens := Tokens(content);
    var words := |tokens|;
    var syllables := SyllableTotal(tokens);
    var asl := Ratio(words, sentences);
    var aspw := Ratio(syllables, words);
    var score := Clamp(Flesch(asl.Real(), aspw.Real()));
    var grade := AtLeastZero(Grade(asl.Real(), aspw.Real()));
    Stats(sentences, words, syllables, Round1(asl), Round1(aspw),
          RoundHalfEven(score.Real()), Round1(grade), Difficulty(score.Real()))
  }

  /** The reading ease is a whole number in [0, 100], the grade level is not negative, every
      word has at least one syllable, and the label is the one of the unclamped score. */
  lemma AnalyzeBounds(content: string)
    ensures var st := Analyze(content);
      && 0 <= st.ease <= 100
      && (st.grade == VInt(0) || (st.grade.VTenths? && st.grade.tenths >= 0))
      && st.words == |Tokens(content)| && st.syllables >= st.words
      && st.difficulty == Difficulty(Flesch(Ratio(st.words, st.sentences).Real(),
                                            Ratio(st.syllables, st.words).Real()))
  {
    var tokens := Tokens(content);
    var asl := Ratio(|tokens|, |Sentences(content)|);
    var aspw := Ratio(SyllableTotal(tokens), |tokens|);
    var score := Clamp(Flesch(asl.Real(), aspw.Real()));
    RoundWithin(score.Real(), 0, 100);
    var g := AtLeastZero(Grade(asl.Real(), aspw.Real()));
    if g.FloatNum? {
      RoundMonotone(0.0, g.r * 10.0);
    }
    DifficultyIgnoresClamp(Flesch(asl.Real(), aspw.Real()));
  }

  /** Text with no words has no sentences either: its statistics are all zero, and its score
      206.835 is clamped to an ease of 100, "Very Easy". */
  lemma AnalyzeBlank(content: string)
    requires AllSpace(content)
    ensures var st := Analyze(content);
      && st.sentences == 0 && st.words == 0 && st.syllables == 0
      && st.avgSentenceLength == VInt(0) && st.avgSyllablesPerWord == VInt(0)
      && st.ease == 100 && st.difficulty == "Very Easy" && st.grade == VInt(0)
  {
    BlankHasNoSentences(content);
    assert Tokens(content) == [];
    assert Ratio(0, 0) == IntNum(0);
    assert Flesch(0.0, 0.0) == 206835.0 / 1000.0;
    assert Clamp(206835.0 / 1000.0) == IntNum(100);
    assert RoundHalfEven(100.0) == 100;
    assert Grade(0.0, 0.0) < 0.0;
  }

  lemma BlankHasNoSentences(content: string)
    requires AllSpace(content)
    ensures Sentences(content) == []
  {
    RunEndUnique(content, 0, IsNotTerminator, |content|);
    assert Pieces(content) == [content];
  }
}
