/** `TextFormatter` and `JSONFormatter`: how a `ToolResult` is shown to a client. The text
    formatter picks a layout by the first of a fixed list of keys the data holds and reads
    the fields that layout needs; a field that is missing or of the wrong kind raises, which
    here is a `Failure` carrying the exception's name. */
module Formatters {
  import opened Wrappers
  import opened TextPrimitives
  import opened Base

  const KeyError := "KeyError"
  const TypeError := "TypeError"
  const AttributeError := "AttributeError"

  // ---------------------------------------------------------------------------------------
  // Reading values the way Python does

  /** `v[key]`: a dict yields the entry or raises KeyError; any other value raises TypeError. */
  function Index(v: Value, key: string): (r: Result<Value>)
    ensures r.Success? <==> v.VDict? && HasKey(v.entries, key)
    ensures r.Success? ==> Get(v.entries, key) == Some(r.value)
    ensures r.Failure? ==> r.error == (if v.VDict? then KeyError else TypeError)
  {
    match v
    case VDict(entries) => (match Get(entries, key) case Some(x) => Success(x) case None => Failure(KeyError))
    case _ => Failure(TypeError)
  }

  /** `data[key]`. */
  function Field(data: Dict, key: string): Result<Value> {
    Index(VDict(data), key)
  }

  /** `data.get(key, default)`. */
  function GetOr(data: Dict, key: string, default: Value): Value {
    match Get(data, key)
    case Some(x) => x
    case None => default
  }

  /** `for x in v`: a list yields its items, a dict its keys, a string its characters;
      anything else is not iterable. */
  function Items(v: Value): (r: Result<seq<Value>>)
    ensures r.Success? <==> v.VList? || v.VDict? || v.VStr?
    ensures v.VList? ==> r == Success(v.items)
  {
    match v
    case VList(items) => Success(items)
    case VDict(entries) => Success(seq(|entries|, k requires 0 <= k < |entries| => VStr(entries[k].0)))
    case VStr(s) => Success(seq(|s|, k requires 0 <= k < |s| => VStr([s[k]])))
    case _ => Failure(TypeError)
  }

  /** `v[:5]`: the first five items of a list or characters of a string; a dict cannot be
      sliced. */
  function FirstFive(v: Value): (r: Result<seq<Value>>)
    ensures r.Success? <==> v.VList? || v.VStr?
    ensures v.VList? ==> r == Success(v.items[..Min(5, |v.items|)])
  {
    match v
    case VList(items) => Success(items[..Min(5, |items|)])
    case VStr(s) =>
      var n := Min(5, |s|);
      Success(seq(n, k requires 0 <= k < n => VStr([s[k]])))
    case _ => Failure(TypeError)
  }

  function Min(a: nat, b: nat): nat {
    if a < b then a else b
  }

  /** `v.items()`: only a dict has them. */
  function Pairs(v: Value): (r: Result<seq<(string, Value)>>)
    ensures r.Success? <==> v.VDict?
  {
    match v
    case VDict(entries) => Success(entries)
    case _ => Failure(AttributeError)
  }

  /** One line per item, as a generator expression inside `"\n".join(...)` produces them;
      the first item whose line raises makes the whole join raise. */
  function MapLines(items: seq<Value>, line: Value -> Result<string>): (r: Result<seq<string>>)
    ensures r.Success? <==> forall k :: 0 <= k < |items| ==> line(items[k]).Success?
    ensures r.Success? ==> |r.value| == |items|
    ensures r.Success? ==> forall k :: 0 <= k < |items| ==> line(items[k]) == Success(r.value[k])
  {
    if items == [] then Success([])
    else
      var first :- line(items[0]);
      var rest :- MapLines(items[1..], line);
      assert forall k :: 1 <= k < |items| ==> items[k] == items[1..][k - 1];
      Success([first] + rest)
  }

  /** One line per `(key, value)` pair of `.items()`. */
  function MapPairs(pairs: seq<(string, Value)>, line: (string, Value) -> string): (ls: seq<string>)
    ensures |ls| == |pairs|
    ensures forall k :: 0 <= k < |pairs| ==> ls[k] == line(pairs[k].0, pairs[k].1)
  {
    seq(|pairs|, k requires 0 <= k < |pairs| => line(pairs[k].0, pairs[k].1))
  }

  /** Whether `v` is a number Python can compare with an int (`bool` is an `int` there). */
  predicate Numeric(v: Value) {
    v.VInt? || v.VTenths? || v.VBool?
  }

  /** The number a numeric value stands for. */
  function AsReal(v: Value): real
    requires Numeric(v)
  {
    match v
    case VInt(i) => i as real
    case VTenths(t) => t as real / 10.0
    case VBool(b) => if b then 1.0 else 0.0
  }

  /** `v > bound` for an int bound: numbers compare, anything else raises TypeError. */
  function Exceeds(v: Value, bound: int): (r: Result<bool>)
    ensures r.Success? <==> Numeric(v)
    ensures r.Success? ==> (r.value <==> AsReal(v) > bound as real)
  {
    match v
    case VInt(i) => Success(i > bound)
    case VTenths(t) => Success(t > 10 * bound)
    case VBool(b) => Success((if b then 1 else 0) > bound)
    case _ => Failure(TypeError)
  }

  // ---------------------------------------------------------------------------------------
  // TextFormatter.format

  /** The keys `format` tests, in the order it tests them. */
  const DispatchKeys: seq<string> := [
    "cleaned_content", "normalized_content", "phrases_detected", "cliches_detected",
    "passive_percentage", "readability", "repeated_phrases", "run_on_sentences", "score",
    "improved_content"
  ]

  /** The position of the first key the data holds, or |keys| when it holds none. */
  function FirstPresent(keys: seq<string>, data: Dict): (i: nat)
    ensures i <= |keys|
    ensures i < |keys| ==> HasKey(data, keys[i])
    ensures forall j :: 0 <= j < i ==> !HasKey(data, keys[j])
  {
    if keys == [] then 0
    else if Get(data, keys[0]).Some? then 0
    else
      var i := FirstPresent(keys[1..], data);
      assert forall j :: 1 <= j < i + 1 ==> keys[j] == keys[1..][j - 1];
      1 + i
  }

  /** `f"Error: {result.error}"`: an absent error prints as `None`. */
  function ErrorText(error: Option<string>): string {
    match error
    case Some(e) => e
    case None => "None"
  }

  /** `TextFormatter.format(result)`: a failed result shows its error; otherwise the layout
      of the first dispatch key the data holds, or `str(data)` when it holds none, with the
      parts joined by newlines. */
  function TextFormat(result: ToolResult): (out: Result<string>)
    ensures !result.success ==> out == Success("Error: " + ErrorText(result.error))
    ensures result.success && FirstPresent(DispatchKeys, result.data) == |DispatchKeys| ==>
      out == Success(Str(VDict(result.data)))
    ensures result.success && out.Success? ==>
      Parts(result.data, FirstPresent(DispatchKeys, result.data)).Success? &&
      out.value == Join("\n", Parts(result.data, FirstPresent(DispatchKeys, result.data)).value)
  {
    if !result.success then Success("Error: " + ErrorText(result.error))
    else
      var parts :- Parts(result.data, FirstPresent(DispatchKeys, result.data));
      Success(Join("\n", parts))
  }

  /** The parts of the layout chosen by dispatch key number `choice`. */
  function Parts(data: Dict, choice: nat): (r: Result<seq<string>>)
    ensures choice >= |DispatchKeys| ==> r == Success([Str(VDict(data))])
  {
    if choice == 0 then CleanedParts(data)
    else if choice == 1 then NormalizedParts(data)
    else if choice == 2 then AiPhrasesParts(data)
    else if choice == 3 then ClichesParts(data)
    else if choice == 4 then PassiveParts(data)
    else if choice == 5 then ReadabilityParts(data)
    else if choice == 6 then RepetitionParts(data)
    else if choice == 7 then RunOnParts(data)
    else if choice == 8 then AnalysisParts(data)
    else if choice == 9 then ImprovedParts(data)
    else Success([Str(VDict(data))])
  }

  // ---------------------------------------------------------------------------------------
  // The layouts

  /** `_format_cleaned_content`: the cleaned text, then what the cleaner that produced it
      reports (filler words, hedging, redundancies or emojis, in that order of testing). */
  function CleanedParts(data: Dict): (r: Result<seq<string>>)
    ensures r.Success? ==> HasKey(data, "cleaned_content") && 1 <= |r.value| <= 3
    ensures r.Success? ==> r.value[0] == "Cleaned Content:\n" + Str(Get(data, "cleaned_content").value) + "\n"
  {
    var cleaned :- Field(data, "cleaned_content");
    var head := ["Cleaned Content:\n" + Str(cleaned) + "\n"];
    if HasKey(data, "filler_words_removed") then
      var n := Get(data, "filler_words_removed").value;
      var tail :- BreakdownTail(data, FillerLine);
      Success(head + ["Removed " + Str(n) + " filler words"] + tail)
    else if HasKey(data, "hedging_removed") then
      var n := Get(data, "hedging_removed").value;
      var tail :- BreakdownTail(data, HedgeLine);
      Success(head + ["Removed " + Str(n) + " hedging phrases"] + tail)
    else if HasKey(data, "redundancies_removed") then
      var n := Get(data, "redundancies_removed").value;
      var tail :- ChangesTail(data);
      Success(head + ["Removed " + Str(n) + " redundancies"] + tail)
    else if HasKey(data, "emojis_removed") then
      var n := Get(data, "emojis_removed").value;
      Success(head + ["Removed " + Str(n) + " emoji(s)"])
    else Success(head)
  }

  function FillerLine(word: string, count: Value): string {
    "- " + word + ": " + Str(count)
  }

  function HedgeLine(phrase: string, count: Value): string {
    "- '" + phrase + "': " + Str(count)
  }

  /** The breakdown listing, present only when `data.get("breakdown")` is truthy. */
  function BreakdownTail(data: Dict, line: (string, Value) -> string): (r: Result<seq<string>>)
    ensures r.Success? ==> |r.value| <= 1
    ensures !Truthy(GetOr(data, "breakdown", VNone)) ==> r == Success([])
  {
    var breakdown := GetOr(data, "breakdown", VNone);
    if !Truthy(breakdown) then Success([])
    else
      var pairs :- Pairs(breakdown);
      Success([":\n" + Join("\n", MapPairs(pairs, line))])
  }

  /** `- 'phrase' → 'replacement' (n times)`. */
  function ChangeLine(c: Value): Result<string> {
    var phrase :- Index(c, "phrase");
    var replacement :- Index(c, "replacement");
    var count :- Index(c, "count");
    Success("- '" + Str(phrase) + "' \U{2192} '" + Str(replacement) + "' (" + Str(count) + " times)")
  }

  /** The redundancy listing, present only when `data.get("changes")` is truthy. */
  function ChangesTail(data: Dict): (r: Result<seq<string>>)
    ensures r.Success? ==> |r.value| <= 1
    ensures !Truthy(GetOr(data, "changes", VNone)) ==> r == Success([])
  {
    var changes := GetOr(data, "changes", VNone);
    if !Truthy(changes) then Success([])
    else
      var items :- Items(changes);
      var lines :- MapLines(items, ChangeLine);
      Success([":\n" + Join("\n", lines)])
  }

  /** `_format_normalized_content`. */
  function NormalizedParts(data: Dict): (r: Result<seq<string>>)
    ensures r.Success? <==> HasKey(data, "normalized_content") && HasKey(data, "characters_removed")
    ensures r.Success? ==> |r.value| == 2
  {
    var normalized :- Field(data, "normalized_content");
    var removed :- Field(data, "characters_removed");
    Success(["Normalized Content:\n" + Str(normalized) + "\n",
             "Removed " + Str(removed) + " extra whitespace character(s)"])
  }

  /** The message shown for an empty phrase list. */
  const NoAiPhrases := "No AI phrases detected. Content looks clean!"

  function AiPhraseLine(p: Value): Result<string> {
    var phrase :- Index(p, "phrase");
    var count :- Index(p, "count");
    Success("'" + Str(phrase) + "' - found " + Str(count) + " time(s)")
  }

  /** `_format_ai_phrases`: the count and score, then one line per phrase, or the fixed
      message when the list is empty. */
  function AiPhrasesParts(data: Dict): (r: Result<seq<string>>)
    ensures r.Success? ==> |r.value| == 3 && HasKey(data, "phrases")
    ensures r.Success? ==> (r.value[2] == NoAiPhrases <==> !Truthy(Get(data, "phrases").value))
  {
    var detected :- Field(data, "phrases_detected");
    var score :- Field(data, "slop_score");
    var phrases :- Field(data, "phrases");
    var head := ["AI Phrases Detected: " + Str(detected), "Slop Score: " + Str(score) + "/10\n"];
    if Truthy(phrases) then
      var items :- Items(phrases);
      var lines :- MapLines(items, AiPhraseLine);
      ListingIsNoMessage(items, AiPhraseLine, lines, NoAiPhrases);
      Success(head + [Join("\n", lines)])
    else Success(head + [NoAiPhrases])
  }

  /** The message shown for an empty cliché list. */
  const NoCliches := "No clich\U{00E9}s detected!"

  function ClicheLine(c: Value): Result<string> {
    var cliche :- Index(c, "cliche");
    var count :- Index(c, "count");
    Success("'" + Str(cliche) + "' - " + Str(count) + " time(s)")
  }

  /** `_format_cliches`. */
  function ClichesParts(data: Dict): (r: Result<seq<string>>)
    ensures r.Success? ==> |r.value| == 2 && HasKey(data, "cliches")
    ensures r.Success? ==> (r.value[1] == NoCliches <==> !Truthy(Get(data, "cliches").value))
  {
    var detected :- Field(data, "cliches_detected");
    var cliches :- Field(data, "cliches");
    var head := ["Clich\U{00E9}s Detected: " + Str(detected) + "\n"];
    if Truthy(cliches) then
      var items :- Items(cliches);
      var lines :- MapLines(items, ClicheLine);
      ListingIsNoMessage(items, ClicheLine, lines, NoCliches);
      Success(head + [Join("\n", lines)])
    else Success(head + [NoCliches])
  }

  const ActiveAdvice := "Consider rewriting in active voice"
  const PassiveAcceptable := "Passive voice usage is acceptable"

  /** The recommendation: rewrite exactly when the percentage is a number above 20; a
      percentage that is not a number raises. */
  function Recommendation(percentage: Value): (r: Result<string>)
    ensures r.Success? <==> Numeric(percentage)
    ensures r == Success(ActiveAdvice) <==> Numeric(percentage) && AsReal(percentage) > 20.0
    ensures r.Success? ==> r.value == ActiveAdvice || r.value == PassiveAcceptable
  {
    var above :- Exceeds(percentage, 20);
    Success(if above then ActiveAdvice else PassiveAcceptable)
  }

  /** `_format_passive_voice`: five lines, the last one the recommendation. */
  function PassiveParts(data: Dict): (r: Result<seq<string>>)
    ensures r.Success? ==> |r.value| == 5 && HasKey(data, "passive_percentage")
    ensures r.Success? ==> Numeric(Get(data, "passive_percentage").value)
    ensures r.Success? ==>
      (r.value[4] == "Recommendation: " + ActiveAdvice <==> AsReal(Get(data, "passive_percentage").value) > 20.0)
  {
    var percentage :- Field(data, "passive_percentage");
    var recommendation :- Recommendation(percentage);
    var total :- Field(data, "total_sentences");
    var passive :- Field(data, "passive_sentences");
    var found :- Field(data, "passive_phrases_found");
    assert recommendation == ActiveAdvice <==> "Recommendation: " + recommendation == "Recommendation: " + ActiveAdvice by {
      if "Recommendation: " + recommendation == "Recommendation: " + ActiveAdvice {
        AppendCancel("Recommendation: ", recommendation, ActiveAdvice);
      }
    }
    Success([
      "Passive Voice Analysis:",
      "Total Sentences: " + Str(total),
      "Passive Sentences: " + Str(passive) + " (" + Str(percentage) + "%)",
      "Passive Phrases Found: " + Str(found) + "\n",
      "Recommendation: " + recommendation
    ])
  }

  /** `_format_readability`: the three scores from `readability`, then the five statistics
      from `stats`. */
  function ReadabilityParts(data: Dict): (r: Result<seq<string>>)
    ensures r.Success? ==> |r.value| == 10 && HasKey(data, "stats") && HasKey(data, "readability")
  {
    var stats :- Field(data, "stats");
    var read :- Field(data, "readability");
    var ease :- Index(read, "flesch_reading_ease");
    var difficulty :- Index(read, "difficulty");
    var grade :- Index(read, "grade_level");
    var sentences :- Index(stats, "sentences");
    var words :- Index(stats, "words");
    var syllables :- Index(stats, "syllables");
    var avgLength :- Index(stats, "avg_sentence_length");
    var avgSyllables :- Index(stats, "avg_syllables_per_word");
    Success([
      "Readability Analysis:",
      "Flesch Reading Ease: " + Str(ease) + "/100",
      "Difficulty: " + Str(difficulty),
      "Grade Level: " + Str(grade) + "\n",
      "Statistics:",
      "- Sentences: " + Str(sentences),
      "- Words: " + Str(words),
      "- Syllables: " + Str(syllables),
      "- Avg Sentence Length: " + Str(avgLength) + " words",
      "- Avg Syllables per Word: " + Str(avgSyllables)
    ])
  }

  const NoRepetition := "No significant repetition detected."

  function RepetitionLine(p: Value): Result<string> {
    var phrase :- Index(p, "phrase");
    var count :- Index(p, "count");
    Success("'" + Str(phrase) + "' - " + Str(count) + " times")
  }

  /** `_format_repetition`. */
  function RepetitionParts(data: Dict): (r: Result<seq<string>>)
    ensures r.Success? ==> |r.value| == 2 && HasKey(data, "phrases")
    ensures r.Success? ==> (r.value[1] == NoRepetition <==> !Truthy(Get(data, "phrases").value))
  {
    var repeated :- Field(data, "repeated_phrases");
    var phrases :- Field(data, "phrases");
    var head := ["Repeated Phrases Found: " + Str(repeated) + "\n"];
    if Truthy(phrases) then
      var items :- Items(phrases);
      var lines :- MapLines(items, RepetitionLine);
      ListingIsNoMessage(items, RepetitionLine, lines, NoRepetition);
      Success(head + [Join("\n", lines)])
    else Success(head + [NoRepetition])
  }

  function RunOnLine(s: Value): Result<string> {
    var count :- Index(s, "word_count");
    var sentence :- Index(s, "sentence");
    Success("- " + Str(count) + " words: " + Str(sentence))
  }

  /** The lines for the flagged sentences: only the first five are listed, each from its own
      entry, in order. */
  function RunOnListing(sentences: Value): (r: Result<seq<string>>)
    ensures sentences.VList? && r.Success? ==>
      |r.value| == Min(5, |sentences.items|) &&
      forall k :: 0 <= k < |r.value| ==> RunOnLine(sentences.items[k]) == Success(r.value[k])
  {
    var firstFive :- FirstFive(sentences);
    MapLines(firstFive, RunOnLine)
  }

  const NoRunOns := "No run-on sentences detected!"

  /** `_format_run_on_sentences`: three summary lines, then the listing of at most five
      sentences under a heading, or the fixed message. */
  function RunOnParts(data: Dict): (r: Result<seq<string>>)
    ensures r.Success? ==> HasKey(data, "sentences")
    ensures r.Success? ==> (|r.value| == 4 <==> !Truthy(Get(data, "sentences").value))
    ensures r.Success? && |r.value| == 4 ==> r.value[3] == NoRunOns
  {
    var total :- Field(data, "total_sentences");
    var flagged :- Field(data, "run_on_sentences");
    var percentage :- Field(data, "percentage");
    var sentences :- Field(data, "sentences");
    var head := ["Run-on Sentence Analysis:", "Total Sentences: " + Str(total),
                 "Run-on Sentences: " + Str(flagged) + " (" + Str(percentage) + "%)\n"];
    if Truthy(sentences) then
      var lines :- RunOnListing(sentences);
      Success(head + ["Run-on sentences found:", Join("\n", lines)])
    else Success(head + [NoRunOns])
  }

  /** `- item` for each item of an optional list (`data.get(key, [])`). */
  function BulletLines(data: Dict, key: string): Result<string> {
    var items :- Items(GetOr(data, key, VList([])));
    var lines := seq(|items|, k requires 0 <= k < |items| => "- " + Str(items[k]));
    Success(Join("\n", lines))
  }

  /** `_format_analysis`. */
  function AnalysisParts(data: Dict): (r: Result<seq<string>>)
    ensures r.Success? ==> |r.value| == 6 && HasKey(data, "score")
  {
    var score :- Field(data, "score");
    var issues :- BulletLines(data, "issues");
    var suggestions :- BulletLines(data, "suggestions");
    Success(["Analysis Results:", "Score: " + Str(score) + "/10\n", "Issues Found:", issues,
             "\nSuggestions:", suggestions])
  }

  /** `_format_improved_content`. */
  function ImprovedParts(data: Dict): (r: Result<seq<string>>)
    ensures r.Success? ==> |r.value| == 4 && HasKey(data, "improved_content")
  {
    var improved :- Field(data, "improved_content");
    var changes :- BulletLines(data, "changes_made");
    var before :- Field(data, "original_word_count");
    var after :- Field(data, "new_word_count");
    Success(["Improved Content:\n" + Str(improved) + "\n", "Changes Made:", changes,
             "\nWord Count: " + Str(before) + " \U{2192} " + Str(after)])
  }

  // ---------------------------------------------------------------------------------------
  // Listing lemmas

  /** A listing of at least one line that each start with a quote is never one of the fixed
      messages, which start with a letter. */
  lemma ListingIsNoMessage(items: seq<Value>, line: Value -> Result<string>, lines: seq<string>, message: string)
    requires items != [] && |lines| == |items| && line(items[0]) == Success(lines[0])
    requires forall v :: line(v).Success? ==> |line(v).value| > 0 && line(v).value[0] == '\''
    requires |message| > 0 && message[0] != '\''
    ensures Join("\n", lines) != message
  {
    JoinHead("\n", lines);
  }

  /** A join of parts starts with the first part. */
  lemma JoinHead(sep: string, parts: seq<string>)
    requires parts != []
    ensures |Join(sep, parts)| >= |parts[0]| && Join(sep, parts)[..|parts[0]|] == parts[0]
  {
    if |parts| > 1 {
      assert Join(sep, parts) == parts[0] + (sep + Join(sep, parts[1..]));
    }
  }

  lemma AppendCancel(prefix: string, a: string, b: string)
    requires prefix + a == prefix + b
    ensures a == b
  {
    assert a == (prefix + a)[|prefix|..];
    assert b == (prefix + b)[|prefix|..];
  }

  // ---------------------------------------------------------------------------------------
  // JSONFormatter.format

  /** `result.error` as a JSON value. */
  function ErrorValue(error: Option<string>): Value {
    match error
    case Some(e) => VStr(e)
    case None => VNone
  }

  /** `JSONFormatter.format(result)`: a failure shows only `success` and `error`, a success
      only `success` and `data`. */
  function JsonFormat(result: ToolResult): (d: Dict)
    ensures |d| == 2 && Get(d, "success") == Some(VBool(result.success))
    ensures result.success ==> Get(d, "data") == Some(VDict(result.data)) && !HasKey(d, "error")
    ensures !result.success ==> Get(d, "error") == Some(ErrorValue(result.error)) && !HasKey(d, "data")
  {
    if !result.success then [("success", VBool(false)), ("error", ErrorValue(result.error))]
    else [("success", VBool(true)), ("data", VDict(result.data))]
  }

  /** Reading a formatted dict back: the fields it does not show take their defaults. */
  function FromJson(d: Dict): Option<ToolResult> {
    match Get(d, "success")
    case Some(VBool(true)) =>
      (match Get(d, "data") case Some(VDict(data)) => Some(ToolResult(true, data, None)) case _ => None)
    case Some(VBool(false)) =>
      (match Get(d, "error")
       case Some(VStr(e)) => Some(ToolResult(false, [], Some(e)))
       case Some(VNone) => Some(ToolResult(false, [], None))
       case _ => None)
    case _ => None
  }

  /** A result survives the JSON form exactly when it carries nothing the form drops: no
      error beside a success, no data beside a failure. Every result `Ok` and `Fail` build
      is of that kind. */
  lemma JsonRoundTrip(result: ToolResult)
    ensures FromJson(JsonFormat(result)) == Some(result) <==>
      (result.success ==> result.error.None?) && (!result.success ==> result.data == [])
    ensures FromJson(JsonFormat(result)).Some?
  {
  }
}
