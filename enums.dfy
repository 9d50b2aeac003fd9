/** The closed catalogue of tool names (`ToolName`): six analyzers, five cleaners and two
    AI-backed tools, each with its wire name. */
module Enums {
  import opened Wrappers

  datatype Kind = Analyzer | Cleaner | AiTool

  datatype ToolName =
    | DetectAiPhrases
    | DetectCliches
    | DetectPassiveVoice
    | CalculateReadability
    | DetectRepetition
    | DetectRunOnSentences
    | RemoveFillerWords
    | RemoveHedging
    | RemoveRedundancies
    | RemoveEmojis
    | NormalizeWhitespace
    | AnalyzeContentForSlop
    | ImproveContentFromSlop
  {
    /** The member's `.value`. */
    function Value(): string {
      match this
      case DetectAiPhrases => "detect_ai_phrases"
      case DetectCliches => "detect_cliches"
      case DetectPassiveVoice => "detect_passive_voice"
      case CalculateReadability => "calculate_readability"
      case DetectRepetition => "detect_repetition"
      case DetectRunOnSentences => "detect_run_on_sentences"
      case RemoveFillerWords => "remove_filler_words"
      case RemoveHedging => "remove_hedging"
      case RemoveRedundancies => "remove_redundancies"
      case RemoveEmojis => "remove_emojis"
      case NormalizeWhitespace => "normalize_whitespace"
      case AnalyzeContentForSlop => "analyze_content_for_slop"
      case ImproveContentFromSlop => "improve_content_from_slop"
    }

    /** The member's position in declaration order. */
    function Index(): nat {
      match this
      case DetectAiPhrases => 0
      case DetectCliches => 1
      case DetectPassiveVoice => 2
      case CalculateReadability => 3
      case DetectRepetition => 4
      case DetectRunOnSentences => 5
      case RemoveFillerWords => 6
      case RemoveHedging => 7
      case RemoveRedundancies => 8
      case RemoveEmojis => 9
      case NormalizeWhitespace => 10
      case AnalyzeContentForSlop => 11
      case ImproveContentFromSlop => 12
    }

    /** The group the member is declared in. */
    function Group(): Kind {
      match this
      case DetectAiPhrases | DetectCliches | DetectPassiveVoice | CalculateReadability
        | DetectRepetition | DetectRunOnSentences => Analyzer
      case RemoveFillerWords | RemoveHedging | RemoveRedundancies | RemoveEmojis
        | NormalizeWhitespace => Cleaner
      case AnalyzeContentForSlop | ImproveContentFromSlop => AiTool
    }
  }

  /** The members in declaration order (iteration order of the enum class). */
  const Members: seq<ToolName> := [
    DetectAiPhrases, DetectCliches, DetectPassiveVoice, CalculateReadability,
    DetectRepetition, DetectRunOnSentences,
    RemoveFillerWords, RemoveHedging, RemoveRedundancies, RemoveEmojis, NormalizeWhitespace,
    AnalyzeContentForSlop, ImproveContentFromSlop
  ]

  /** `ToolName.list_all()`: the values of the members, in declaration order. */
  function ListAll(): (names: seq<string>)
    ensures |names| == |Members| == 13
    ensures forall i :: 0 <= i < |Members| ==> names[i] == Members[i].Value()
  {
    seq(|Members|, i requires 0 <= i < |Members| => Members[i].Value())
  }

  /** Looking a value up in `_value2member_map_`: the first member, in declaration order, whose
      value is name. */
  function FromValue(name: string): (t: Option<ToolName>)
    ensures t.Some? ==> t.value.Value() == name
  {
    Find(Members, name)
  }

  function Find(ms: seq<ToolName>, name: string): (t: Option<ToolName>)
    ensures t.Some? ==> t.value in ms && t.value.Value() == name
    ensures t.None? ==> forall i :: 0 <= i < |ms| ==> ms[i].Value() != name
  {
    if ms == [] then None
    else if ms[0].Value() == name then Some(ms[0])
    else Find(ms[1..], name)
  }

  /** `ToolName.is_valid(name)`. */
  predicate IsValid(name: string) {
    FromValue(name).Some?
  }

  // ---------------------------------------------------------------------------------------
  // Properties of the catalogue

  /** Every member is listed, at its position; no two members share a value. */
  lemma MembersComplete(t: ToolName)
    ensures t.Index() < |Members| && Members[t.Index()] == t
  {
  }

  lemma ValuesDistinct()
    ensures forall i, j :: 0 <= i < j < |Members| ==> Members[i].Value() != Members[j].Value()
  {
    var names := ListAll();
    assert names == [
      "detect_ai_phrases", "detect_cliches", "detect_passive_voice", "calculate_readability",
      "detect_repetition", "detect_run_on_sentences",
      "remove_filler_words", "remove_hedging", "remove_redundancies", "remove_emojis",
      "normalize_whitespace", "analyze_content_for_slop", "improve_content_from_slop"
    ];
  }

  /** The value of a member looks up to that member. */
  lemma FromValueRoundTrip(t: ToolName)
    ensures FromValue(t.Value()) == Some(t)
  {
    ValuesDistinct();
    MembersComplete(t);
    var j := t.Index();
    var r := FromValue(t.Value());
    assert r.Some?;
    var i :| 0 <= i < |Members| && Members[i] == r.value;
    assert i == j;
  }

  /** `is_valid(name)` holds exactly for the names `list_all()` returns. */
  lemma IsValidIffListed(name: string)
    ensures IsValid(name) <==> name in ListAll()
  {
    var names := ListAll();
    if IsValid(name) {
      var t := FromValue(name).value;
      var i :| 0 <= i < |Members| && Members[i] == t;
      assert names[i] == name;
    }
    if name in names {
      var i :| 0 <= i < |names| && names[i] == name;
      FromValueRoundTrip(Members[i]);
    }
  }

  /** The declaration groups the catalogue into 6 analyzers, 5 cleaners and 2 AI tools. */
  lemma CatalogueGroups()
    ensures forall i :: 0 <= i < 6 ==> Members[i].Group() == Analyzer
    ensures forall i :: 6 <= i < 11 ==> Members[i].Group() == Cleaner
    ensures forall i :: 11 <= i < 13 ==> Members[i].Group() == AiTool
  {
  }
}
