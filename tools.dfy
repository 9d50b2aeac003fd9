/** The thirteen tool classes (`BaseTool` subclasses): their `name`, `description`, `to_dict`
    and what calling `execute(**kwargs)` does. The two AI-backed tools call a chat-completion
    service; its answer is a parameter here. */
module Tools {
  import opened Wrappers
  import opened Base
  import opened Enums
  import Analyzers
  import Readability
  import Repetition
  import Cleaners
  import Whitespace

  /** One value per tool class. An AI-backed tool remembers whether it holds an API client
      (an API key was passed in or found in the environment). */
  datatype Tool =
    | AIPhrasesAnalyzer
    | ClicheAnalyzer
    | PassiveVoiceAnalyzer
    | ReadabilityAnalyzer
    | RepetitionAnalyzer
    | RunOnSentenceAnalyzer
    | FillerWordsCleaner
    | HedgingCleaner
    | RedundancyCleaner
    | EmojiCleaner
    | WhitespaceCleaner
    | ContentAnalyzer(configured: bool)
    | ContentImprover(configured: bool)
  {
    /** The `ToolName` member the class names itself after. */
    function Member(): ToolName {
      match this
      case AIPhrasesAnalyzer => DetectAiPhrases
      case ClicheAnalyzer => DetectCliches
      case PassiveVoiceAnalyzer => DetectPassiveVoice
      case ReadabilityAnalyzer => CalculateReadability
      case RepetitionAnalyzer => DetectRepetition
      case RunOnSentenceAnalyzer => DetectRunOnSentences
      case FillerWordsCleaner => RemoveFillerWords
      case HedgingCleaner => RemoveHedging
      case RedundancyCleaner => RemoveRedundancies
      case EmojiCleaner => RemoveEmojis
      case WhitespaceCleaner => NormalizeWhitespace
      case ContentAnalyzer(_) => AnalyzeContentForSlop
      case ContentImprover(_) => ImproveContentFromSlop
    }

    /** The `name` property: the value of the member. */
    function Name(): string {
      Member().Value()
    }

    /** The `description` property. */
    function Description(): string {
      match this
      case AIPhrasesAnalyzer =>
        "Detect common AI-generated phrases like 'delve into', 'it's worth noting', 'in today's world', etc."
      case ClicheAnalyzer =>
        "Detect business clichés and buzzwords like 'game changer', 'synergy', 'low-hanging fruit', etc."
      case PassiveVoiceAnalyzer =>
        "Detect passive voice usage in text and calculate percentage of passive sentences."
      case ReadabilityAnalyzer =>
        "Calculate Flesch reading ease score, grade level, and other readability metrics."
      case RepetitionAnalyzer =>
        "Find repeated phrases in text (helps identify redundant content)."
      case RunOnSentenceAnalyzer =>
        "Detect overly long run-on sentences that should be split."
      case FillerWordsCleaner =>
        "Remove filler words like 'actually', 'basically', 'literally', 'just', 'very', 'really', etc."
      case HedgingCleaner =>
        "Remove hedging language like 'perhaps', 'maybe', 'might', 'it seems', etc. to make text more direct."
      case RedundancyCleaner =>
        "Remove redundant phrases like 'past history', 'future plans', 'absolutely essential', etc."
      case EmojiCleaner =>
        "Remove all emojis from text."
      case WhitespaceCleaner =>
        "Normalize whitespace, removing extra spaces, tabs, and blank lines."
      case ContentAnalyzer(_) =>
        "Analyze text for low-quality AI-generated content. Returns a score (0-10) where higher means more slop, plus specific issues and suggestions."
      case ContentImprover(_) =>
        "Use AI to rewrite text, removing slop and improving clarity while preserving meaning."
    }

    /** `to_dict()`: the tool's name and description and nothing else. */
    function ToDict(): (d: Dict)
      ensures |d| == 2 && Get(d, "name") == Some(VStr(Name()))
      ensures Get(d, "description") == Some(VStr(Description()))
    {
      Base.ToDict(Name(), Description())
    }
  }

  /** The tool of the given member; for the AI-backed ones, whether an API key is at hand. */
  function ToolFor(t: ToolName, apiKey: bool): (tool: Tool)
    ensures tool.Member() == t
    ensures tool.Member().Group() == AiTool ==> tool.configured == apiKey
  {
    match t
    case DetectAiPhrases => AIPhrasesAnalyzer
    case DetectCliches => ClicheAnalyzer
    case DetectPassiveVoice => PassiveVoiceAnalyzer
    case CalculateReadability => ReadabilityAnalyzer
    case DetectRepetition => RepetitionAnalyzer
    case DetectRunOnSentences => RunOnSentenceAnalyzer
    case RemoveFillerWords => FillerWordsCleaner
    case RemoveHedging => HedgingCleaner
    case RemoveRedundancies => RedundancyCleaner
    case RemoveEmojis => EmojiCleaner
    case NormalizeWhitespace => WhitespaceCleaner
    case AnalyzeContentForSlop => ContentAnalyzer(apiKey)
    case ImproveContentFromSlop => ContentImprover(apiKey)
  }

  /** The error an AI-backed tool without a client returns. */
  const ApiKeyMissing := "OpenAI API key not configured. Set OPENAI_API_KEY environment variable."

  /** Calling `execute` without the required `content` argument raises this exception. */
  const MissingContent := "TypeError"

  /** `min_length` defaults to 3, `max_words` to 30. */
  function OrDefault(o: Option<int>, default: int): int {
    if o.Some? then o.value else default
  }

  /** `execute(content, ...)` of an analyzer: the report as data, always a success. */
  function AnalyzerResult(tool: Tool, content: string, args: Args): (r: ToolResult)
    requires tool.Member().Group() == Analyzer
    ensures r.success && r.error.None?
  {
    match tool
    case AIPhrasesAnalyzer => Ok(Analyzers.AiPhrasesOf(content).Data())
    case ClicheAnalyzer => Ok(Analyzers.ClichesOf(content).Data())
    case PassiveVoiceAnalyzer => Ok(Analyzers.PassiveOf(content).Data())
    case ReadabilityAnalyzer => Ok(Readability.Analyze(content).Data())
    case RepetitionAnalyzer => Ok(Repetition.RepetitionOf(content, OrDefault(args.minLength, 3)).Data())
    case RunOnSentenceAnalyzer => Ok(Analyzers.RunOnsOf(content, OrDefault(args.maxWords, 30)).Data())
  }

  /** `execute(content)` of a cleaner: a success whose data starts from the content it was
      given. */
  function CleanerResult(tool: Tool, content: string): (r: ToolResult)
    requires tool.Member().Group() == Cleaner
    ensures r.success && r.error.None?
    ensures Get(r.data, "original_content") == Some(VStr(content))
  {
    match tool
    case FillerWordsCleaner =>
      Ok(Cleaners.DeletionData(Cleaners.DeletionsOf(Cleaners.FillerRules(), content), "filler_words_removed"))
    case HedgingCleaner =>
      Ok(Cleaners.DeletionData(Cleaners.DeletionsOf(Cleaners.HedgeRules(), content), "hedging_removed"))
    case RedundancyCleaner => Ok(Cleaners.RedundancyData(Cleaners.RedundancyOf(content)))
    case EmojiCleaner => Ok(Cleaners.EmojiOf(content).Data())
    case WhitespaceCleaner => Ok(Whitespace.WhitespaceOf(content).Data())
  }

  /** `tool.execute(**kwargs)`. `aiReply` stands for what the chat-completion call of an
      AI-backed tool produces. Keyword arguments a tool does not take are ignored. Without
      `content` every tool raises. Every local tool succeeds with no error, and every cleaner
      reports its input as `original_content`. An AI-backed tool without a client fails with
      the configuration message and empty data. */
  function Execute(tool: Tool, args: Args, aiReply: ToolResult): (o: Outcome)
    ensures args.content.None? <==> o.Raised?
    ensures args.content.None? ==> o.exception == MissingContent
    ensures args.content.Some? && tool.Member().Group() != AiTool ==>
      o.result.success && o.result.error.None?
    ensures args.content.Some? && tool.Member().Group() == Cleaner ==>
      Get(o.result.data, "original_content") == Some(VStr(args.content.value))
    ensures args.content.Some? && tool.Member().Group() == AiTool && !tool.configured ==>
      o.result == ToolResult(false, [], Some(ApiKeyMissing))
    ensures args.content.Some? && tool.Member().Group() == AiTool && tool.configured ==>
      o.result == aiReply
  {
    match args.content
    case None => Raised(MissingContent)
    case Some(content) =>
      match tool.Member().Group()
      case Analyzer => Returned(AnalyzerResult(tool, content, args))
      case Cleaner => Returned(CleanerResult(tool, content))
      case AiTool => Returned(if tool.configured then aiReply else Fail(ApiKeyMissing))
  }
}
