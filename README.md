# anti-slop-mcp: a verified model of the text-heuristics engine

anti-slop-mcp offers tools that find and remove "slop" in prose:
- **Analyzers** report AI-typical phrases, business clichés, passive voice, readability, repeated phrases and run-on sentences.
- **Cleaners** delete filler words and hedging, shorten redundant phrases, strip emojis and normalise whitespace.
- **Two AI-backed tools** send the text to a chat-completion service.

The tools are registered by name in a `ToolRegistry`. A `TextFormatter` or `JSONFormatter` renders their results. `server.py` repeats most of the tool bodies as HTTP handlers.

This project models that engine in Dafny and proves what each part promises.

| module | models |
|---|---|
| `TextPrimitives` (`text.dfy`) | The shared string steps: `str.split()` tokens, `strip()`, sentence splitting on `[.!?]+`, the two `re.sub` spacing repairs, `', '.join`. |
| `WordRuns` (`words.dfy`) | The words (`\w+` runs) of a text, used to say what deletion keeps. |
| `Matcher` (`matcher.dfy`) | `re.compile(r'\b' + re.escape(p) + r'\b', re.IGNORECASE)` with `findall` and `sub`. |
| `Scan` (`scan.dfy`) | The loop every table-driven tool runs: a scan over a phrase table, with the hits and the substituted text. |
| `PassiveVoice` (`passive.dfy`) | The two passive-voice patterns, `findall` and `search`. |
| `Readability` (`readability.dfy`) | `count_syllables`, `get_difficulty` and the Flesch statistics. |
| `Analyzers` (`analyzers.dfy`) | The AI-phrase, cliché, passive-voice and run-on analyzers. |
| `Repetition` (`repetition.dfy`) | The repeated-phrase analyzer: its nested counting loop, the stable sort and the top 20. |
| `Cleaners` (`cleaners.dfy`) | The filler, hedging, redundancy and emoji cleaners. |
| `Whitespace` (`whitespace.dfy`) | The whitespace normaliser. |
| `Enums` (`enums.dfy`) | `ToolName`, `list_all` and `is_valid`. |
| `Base` (`base.dfy`) | `ToolResult`, result data as dynamic values, and `to_dict`. |
| `Tools` (`tools.dfy`) | The thirteen tool classes and what `execute(**kwargs)` does for each. |
| `Registry` (`registry.dfy`) | `ToolRegistry`: a class whose `tools` map and key `order` are updated by `register`. |
| `Formatters` (`formatters.dfy`) | Text and JSON rendering of a result. |
| `Server` (`server.py` handlers) | The handlers that do not call the chat-completion service. |

Methods carry the source's loops and are proved equal to a specification function. The properties are proved about those functions.

Python exceptions are modelled as follows:
- An exception a tool or formatter raises becomes a `Failure` carrying the exception's name.
- A missing `content` argument becomes `Raised("TypeError")`.

The code decides the behaviour wherever a prose description of it says otherwise:
- **Syllables:** they are counted as chunks of one or two vowels (`[aeiouy]{1,2}`), not as maximal vowel runs. `ChunksAreRunHalves` states the relation between the two.
- **Readability of blank text:** blank text gets reading ease 100 ("Very Easy"), because the score 206.835 is clamped.
- **Handler labels:** the `server.py` readability handler takes the label on the unclamped score, the package on the clamped one. `Server.ReadabilityAgreesWithAnalyzer` proves that the labels agree.

## Model

| member | source | states |
|---|---|---|
| TextPrimitives.Tokens | anti_slop/analyzers.py:192 | `content.split()`: every token is non-empty and holds no whitespace; there are no tokens exactly when the text is all whitespace |
| TextPrimitives.TokensSplit | anti_slop/analyzers.py:192 | the text is its tokens with whitespace gaps around them, and a non-empty gap between every two tokens |
| TextPrimitives.SplitIsTokens | anti_slop/analyzers.py:192 | conversely, any such cutting of the text into non-empty whitespace-free tokens gives exactly the tokens of `split()` |
| TextPrimitives.Strip | anti_slop/cleaners.py:36 | `strip()` never lengthens, leaves no whitespace at either end, and is empty exactly for all-whitespace text |
| TextPrimitives.Pieces | anti_slop/analyzers.py:137 | `re.split(r'[.!?]+')` gives at least one piece and no piece holds a terminator |
| TextPrimitives.StrippedNonEmpty | anti_slop/analyzers.py:137 | `[s.strip() for s in ... if s.strip()]`: every sentence is non-empty and trimmed |
| TextPrimitives.CollapseSpaces | anti_slop/cleaners.py:35 | `re.sub(r'\s+', ' ')` leaves single spaces only, never lengthens, and empties only the empty text |
| TextPrimitives.DropSpaceBeforePunct | anti_slop/cleaners.py:36 | `re.sub(r'\s+([.,!?;:])', r'\1')` leaves no whitespace before those marks and never lengthens |
| TextPrimitives.RepairSpacing | anti_slop/cleaners.py:35-36 | after both substitutions and `strip()` the text is single-spaced, has no space before punctuation, is trimmed, and is no longer |
| WordRuns.Words | anti_slop/cleaners.py:29 | the `\w+` runs of a text: non-empty runs of word characters |
| WordRuns.WordsAreRuns | anti_slop/cleaners.py:29 | every listed word occurs in the text as a maximal run |
| WordRuns.WordsRepairSpacing | anti_slop/cleaners.py:35-36 | the spacing repairs never change the words of a text |
| Matcher.FindAllTail | anti_slop/analyzers.py:52-53 | `findall` returns as many texts as it counts, each equal to the phrase up to case |
| Matcher.CountPositiveIffMatch | anti_slop/analyzers.py:53-54 | a phrase is counted exactly when its pattern matches at some position (both directions) |
| Matcher.ReplaceLength | anti_slop/cleaners.py:138 | `sub` changes the length by (replacement − phrase) for each match `findall` counts |
| Matcher.ReplaceNoMatch | anti_slop/cleaners.py:138 | `sub` leaves text without a match unchanged |
| Matcher.MatchIsRun | anti_slop/cleaners.py:29 | a match of a word pattern is a whole maximal word run |
| Matcher.RunIsMatch | anti_slop/cleaners.py:29 | a whole word equal to the phrase up to case is a match |
| Matcher.DeleteKeepsOtherWords | anti_slop/cleaners.py:33 | deleting a word keeps every other word of the text |
| Scan.Hits | anti_slop/analyzers.py:50-58 | the found list: no more hits than table entries, each hit a table entry with its `findall` result, which is non-empty |
| Scan.HitsAppend | anti_slop/analyzers.py:51 | scanning a table in two parts gives the two parts' hits in order |
| Scan.HitsComplete | anti_slop/analyzers.py:54 | an entry is reported exactly when its pattern matches somewhere |
| Scan.TotalAtLeastHits | anti_slop/analyzers.py:109 | the sum of counts is at least the number of hits |
| Scan.FindHits | anti_slop/analyzers.py:50-58 | the analyzer loop computes exactly `Hits` |
| Scan.ApplyRules | anti_slop/cleaners.py:25-33 | the cleaner loop substitutes in table order (matching on the original text) and records exactly `Hits` |
| Scan.NoHitsUnchanged | anti_slop/cleaners.py:31-33 | with no entry matching, the text is not changed |
| Scan.SubstitutedNoLonger | anti_slop/cleaners.py:129-138 | replacements no longer than their phrases never lengthen the text |
| Scan.DeletedWordsGone | anti_slop/cleaners.py:28-33 | after deleting single-word entries, every remaining word was in the input and equals no deleted entry |
| Scan.UnmatchedWordAbsent | anti_slop/cleaners.py:30-31 | a word findall never matched is not equal to the phrase |
| PassiveVoice.PassiveHere | anti_slop/analyzers.py:119-120 | a match of the pattern (an auxiliary, whitespace, then a word ending in the suffix `ed` or `en`) ends at least 3 characters in, on a word character |
| PassiveVoice.AuxiliaryFromIsIn | anti_slop/analyzers.py:119-120 | the auxiliary test is membership in the list `is`, `are`, `was`, `were`, `be`, `been`, `being` |
| PassiveVoice.PassiveInAt | anti_slop/analyzers.py:134 | findall's step-by-step notion of "a match at position i" is a match starting at `s[i..]`, seen from the character before it |
| PassiveVoice.MatchFound | anti_slop/analyzers.py:134 | wherever a pattern matches, `findall` counts at least one match |
| PassiveVoice.FoundMatch | anti_slop/analyzers.py:134 | every counted match is a real match |
| PassiveVoice.HasPassiveIffMatch | anti_slop/analyzers.py:138 | a sentence is passive exactly when one of the two patterns matches in it |
| PassiveVoice.PassiveSentences | anti_slop/analyzers.py:138 | every kept sentence is passive and is one of the sentences |
| PassiveVoice.PassiveSentencesComplete | anti_slop/analyzers.py:138 | every passive sentence is kept |
| Readability.RoundHalfEven | anti_slop/analyzers.py:214 | `round(x)` is within one half of x, ties going to the even integer |
| Readability.RoundMonotone | anti_slop/analyzers.py:214 | rounding is monotone |
| Readability.PercentageBounds | anti_slop/analyzers.py:140 | a rounded percentage of a part of a whole lies in [0, 100] |
| Readability.Clamp | anti_slop/analyzers.py:200 | `max(0, min(100, x))` lies in [0, 100] and keeps a score already inside |
| Readability.Letters | anti_slop/analyzers.py:166 | `re.sub(r'[^a-z]', '', word.lower())` keeps only lower-case letters and never lengthens |
| Readability.DropSuffix | anti_slop/analyzers.py:169 | the silent-ending substitution removes at most three final letters |
| Readability.DropLeadingY | anti_slop/analyzers.py:170 | `re.sub(r'^y', '')` removes at most one leading y |
| Readability.CountSyllables | anti_slop/analyzers.py:164-172 | every word has at least one syllable, and words of at most three letters have exactly one |
| Readability.ChunksAreRunHalves | anti_slop/analyzers.py:171 | `findall('[aeiouy]{1,2}')` counts each vowel run as half its length, rounded up |
| Readability.SyllableTotal | anti_slop/analyzers.py:194 | the syllable sum is at least the number of words |
| Readability.DifficultyByLevel | anti_slop/analyzers.py:174-188 | the label is the one for the number of thresholds (30, 50, 60, 70, 80, 90) the score reaches |
| Readability.LevelMonotone | anti_slop/analyzers.py:174-188 | a higher score never gets a harder label |
| Readability.DifficultyIgnoresClamp | anti_slop/analyzers.py:200 | clamping to [0, 100] never changes the label |
| Readability.AnalyzeBounds | anti_slop/analyzers.py:190-219 | ease in [0, 100], grade not negative, word count equals the tokens, syllables at least words; the label is the one of the unclamped score |
| Readability.AnalyzeBlank | anti_slop/analyzers.py:190-219 | blank text: all counts 0, averages and grade the int 0, ease 100, "Very Easy" |
| Analyzers.AiPhrasesNonEmpty | anti_slop/analyzers.py:11-38 | every PHRASES entry is non-empty |
| Analyzers.ClichesNonEmpty | anti_slop/analyzers.py:75-84 | every CLICHES entry is non-empty |
| Analyzers.SlopScore | anti_slop/analyzers.py:60 | `min(10, 2n)`: at most 10, and 2n whenever that is below 10 |
| Analyzers.AiPhrasesOf | anti_slop/analyzers.py:49-69 | one entry per occurring phrase in table order; `phrases_detected` is their number and the score is `SlopScore` of it |
| Analyzers.DetectAiPhrases | anti_slop/analyzers.py:49-69 | the loop gives `AiPhrasesOf`, and each count equals the `findall` count and is at least 1 |
| Analyzers.AiPhraseReportedIffMatch | anti_slop/analyzers.py:49-58 | a table phrase is reported exactly when it matches somewhere in the content |
| Analyzers.ClichesOf | anti_slop/analyzers.py:94-112 | one entry per occurring cliché; `total_instances` is the sum of counts and at least `cliches_detected` |
| Analyzers.DetectCliches | anti_slop/analyzers.py:94-112 | the loop gives `ClichesOf` |
| Analyzers.ClicheReportedIffMatch | anti_slop/analyzers.py:94-103 | a cliché is reported exactly when it matches somewhere |
| Analyzers.PassiveOf | anti_slop/analyzers.py:131-150 | sentence count is the sentences, the passive count is the number of passive sentences and no more, percentage in [0, 100] and 0 without sentences, phrases found is both patterns' `findall` count |
| Analyzers.Shortened | anti_slop/analyzers.py:278 | a sentence over 100 characters becomes its first 100 characters plus "..." |
| Analyzers.RunOns | anti_slop/analyzers.py:276-283 | every listed sentence has more than `max_words` words |
| Analyzers.RunOnsExact | anti_slop/analyzers.py:276-283 | a sentence is listed exactly when its word count exceeds `max_words` |
| Analyzers.RunOnsInOrder | anti_slop/analyzers.py:276-283 | each listed entry is the shortened text and word count of a sentence, at increasing sentence positions |
| Analyzers.RunOnsOf | anti_slop/analyzers.py:273-295 | the listing is `RunOns` of the sentences; run-on count is its length and no more than the sentences; percentage in [0, 100] and 0 without sentences |
| Repetition.LowerWords | anti_slop/analyzers.py:234 | the words are the tokens lower-cased, one for one |
| Repetition.PySlice | anti_slop/analyzers.py:239 | Python slicing agrees with the ordinary slice inside bounds |
| Repetition.TallyCounts | anti_slop/analyzers.py:240 | `phrases.get(p, 0) + 1` over all windows leaves each phrase's count equal to its occurrences |
| Repetition.TallyDistinct | anti_slop/analyzers.py:235-240 | the dict holds each phrase once |
| Repetition.CountWindows | anti_slop/analyzers.py:238-240 | the inner loop adds one window length's phrases to the tally |
| Repetition.CountPhrases | anti_slop/analyzers.py:237-240 | the nested loop tallies every window of length `min_length` to 5 |
| Repetition.Repeated | anti_slop/analyzers.py:242-246 | only entries counted more than once are kept |
| Repetition.RepeatedComplete | anti_slop/analyzers.py:242-246 | every entry counted more than once is kept |
| Repetition.SortDescSorted | anti_slop/analyzers.py:247 | the sort orders by count, highest first |
| Repetition.SortDescPermutes | anti_slop/analyzers.py:247 | the sort is a permutation |
| Repetition.SortDescStable | anti_slop/analyzers.py:247 | the sort is stable: equal counts keep their dict order |
| Repetition.Top | anti_slop/analyzers.py:248 | `[:20]` keeps a prefix of at most 20 entries |
| Repetition.RepetitionOf | anti_slop/analyzers.py:233-259 | at most 20 phrases, and the score is `min(10, n // 2)` |
| Repetition.DetectRepetition | anti_slop/analyzers.py:233-259 | the loops give `RepetitionOf` |
| Repetition.RepetitionSound | anti_slop/analyzers.py:233-259 | every reported phrase occurs, its count is its number of occurrences and above 1, and the list is sorted |
| Repetition.RepetitionComplete | anti_slop/analyzers.py:233-259 | with at most 20 repeated phrases, every phrase occurring twice or more is reported |
| Cleaners.FillerWordsAreWords | anti_slop/cleaners.py:11-14 | every filler word is a non-empty run of word characters |
| Cleaners.HedgePhrasesNonEmpty | anti_slop/cleaners.py:52-60 | every hedge phrase is non-empty |
| Cleaners.RedundanciesShorten | anti_slop/cleaners.py:98-115 | every redundancy is non-empty and its replacement is no longer |
| Cleaners.DeletionsOf | anti_slop/cleaners.py:24-46 | the hits are the entries found in the original; the removed count is the sum of counts; the result is single-spaced, has no space before punctuation, and is trimmed |
| Cleaners.RemoveDeletions | anti_slop/cleaners.py:25-36 | the loop and the two substitutions give `DeletionsOf` |
| Cleaners.RemoveFillerWords | anti_slop/cleaners.py:24-46 | `FillerWordsCleaner.execute` gives `DeletionsOf` on the filler table |
| Cleaners.RemoveHedging | anti_slop/cleaners.py:70-92 | `HedgingCleaner.execute` gives `DeletionsOf` on the hedge table |
| Cleaners.DeletionsNoLonger | anti_slop/cleaners.py:24-46 | deletion never lengthens the text |
| Cleaners.DeletionsNoHits | anti_slop/cleaners.py:24-46 | with nothing found, only the spacing is repaired and the count is 0 |
| Cleaners.FillerWordsGone | anti_slop/cleaners.py:24-46 | no filler word matches anywhere in the cleaned text |
| Cleaners.DeletedWordAbsent | anti_slop/cleaners.py:28-36 | no single-word entry of a deletion table matches in the result |
| Cleaners.FillerKeepsOtherWords | anti_slop/cleaners.py:24-46 | every word of the cleaned text was a word of the input |
| Cleaners.RedundancyOf | anti_slop/cleaners.py:125-148 | hits in table order; `redundancies_removed` counts entries, not matches; the result is the substituted text and never longer |
| Cleaners.RemoveRedundancies | anti_slop/cleaners.py:125-148 | the loop gives `RedundancyOf` |
| Cleaners.RedundancyNoHits | anti_slop/cleaners.py:125-148 | text with no redundancy comes back unchanged with count 0 |
| Cleaners.ClassRuns | anti_slop/cleaners.py:181 | `findall` on `[class]+`: non-empty runs that start in the class |
| Cleaners.ClassRunsMaximal | anti_slop/cleaners.py:181 | every found run is a maximal run of class characters in the text |
| Cleaners.ClassRunsPartition | anti_slop/cleaners.py:181-182 | the runs joined are exactly the class characters in order, and their number plus the length `sub` keeps is the length of the text |
| Cleaners.DropClass | anti_slop/cleaners.py:182 | `sub('', ...)` leaves no class character and never lengthens |
| Cleaners.EmojiOf | anti_slop/cleaners.py:180-193 | the found emojis are the runs; the cleaned text holds no emoji, is single-spaced and trimmed |
| Cleaners.RemoveEmojis | anti_slop/cleaners.py:180-193 | findall, sub, collapse and strip give `EmojiOf` |
| Whitespace.TabsToSpaces | anti_slop/cleaners.py:209 | `replace('\t', ' ')` leaves no tab |
| Whitespace.SqueezeSpaces | anti_slop/cleaners.py:210 | `re.sub(r' +', ' ')` leaves no double space |
| Whitespace.SqueezeNewlines | anti_slop/cleaners.py:211 | `re.sub(r'\n\n+', '\n\n')` leaves no run of three newlines |
| Whitespace.CrlfToLf | anti_slop/cleaners.py:212 | `replace('\r\n', '\n')` never lengthens |
| Whitespace.Normalized | anti_slop/cleaners.py:208-213 | no tab, no double space, trimmed, no longer; without `\r` also no blank-line run |
| Whitespace.CrlfBlankLinesSurvive | anti_slop/cleaners.py:211-212 | on a sample with `\r\n` line endings a run of three newlines survives, and a second pass changes the result |
| Whitespace.NormalizedIdempotent | anti_slop/cleaners.py:208-213 | for text without `\r`, normalising twice equals normalising once |
| Whitespace.WhitespaceOf | anti_slop/cleaners.py:207-224 | the report: the normalised text and `characters_removed` = length difference, never negative |
| Whitespace.NormalizeWhitespace | anti_slop/cleaners.py:207-224 | the step-by-step reassignment gives `WhitespaceOf` |
| Enums.ListAll | anti_slop/enums.py:27-30 | thirteen values, in declaration order |
| Enums.FromValue | anti_slop/enums.py:32-35 | a found member has the given value |
| Enums.MembersComplete | anti_slop/enums.py:5-25 | every member appears in the catalogue at its index |
| Enums.ValuesDistinct | anti_slop/enums.py:5-25 | no two members share a value |
| Enums.FromValueRoundTrip | anti_slop/enums.py:32-35 | looking up a member's value gives the member back |
| Enums.IsValidIffListed | anti_slop/enums.py:27-35 | a name is valid exactly when `list_all()` lists it |
| Enums.CatalogueGroups | anti_slop/enums.py:8-25 | the first six members are analyzers, the next five cleaners, the last two AI tools |
| Base.Ok | anti_slop/base.py:7-11 | a success with the given data and no error |
| Base.Fail | anti_slop/base.py:7-11 | a failure with the message and empty data |
| Base.Get | anti_slop/base.py:10 | `data.get(key)` is present exactly when the key is, and then holds that key's value |
| Base.ToDict | anti_slop/base.py:34-39 | two entries: the name and the description |
| Base.QuoteOf | anti_slop/formatters.py:49 | `repr` quotes with `"` exactly when the string holds `'` and no `"`, otherwise with `'` |
| Base.Escape | anti_slop/formatters.py:49 | the escaped text holds only printable characters |
| Base.StrRepr | anti_slop/formatters.py:49 | `repr` of a string starts and ends with the chosen quote and holds only printable characters |
| Base.UnescapeEscape | anti_slop/formatters.py:49 | reading the escapes back gives the string again |
| Base.StrReprRoundTrip | anti_slop/formatters.py:49 | the text between the quotes of `repr(s)` reads back as s |
| Tools.Tool.ToDict | anti_slop/base.py:34-39 | a tool's dict holds its own name and description |
| Tools.ToolFor | anti_slop/registry.py:30-49 | the tool registered for each member names itself after that member; AI tools hold a client when a key is given |
| Tools.AnalyzerResult | anti_slop/analyzers.py:49-69 | every analyzer's `execute` succeeds with no error |
| Tools.CleanerResult | anti_slop/cleaners.py:24-46 | every cleaner's `execute` succeeds with no error and reports its input as `original_content` |
| Tools.Execute | anti_slop/ai_tools.py:25-31 | missing content raises; local tools succeed; an AI tool without a client fails with the configuration message |
| Registry.ToolRegistry.constructor | anti_slop/registry.py:26-28 | after construction every member's tool is registered under its value, keys in `list_all()` order |
| Registry.ToolRegistry.RegisterTools | anti_slop/registry.py:30-49 | the thirteen registrations leave every member's tool under its own name, keys in `list_all()` order, each once |
| Registry.ToolRegistry.Register | anti_slop/registry.py:51-53 | the tool is stored under its name; a new name is appended to the key order, a known one keeps its place; keys stay distinct and each tool stays under its own name |
| Registry.ToolRegistry.GetTool | anti_slop/registry.py:55-57 | present exactly when registered, and then the registered tool |
| Registry.ToolRegistry.ListTools | anti_slop/registry.py:59-61 | the tools in key order, each under its own name |
| Registry.ToolRegistry.ExecuteTool | anti_slop/registry.py:63-82 | an invalid name fails listing every valid tool; a valid unregistered name fails "not found"; otherwise the tool's `execute` |
| Registry.ToolRegistry.ExecuteMember | anti_slop/registry.py:63-82 | in a fully registered registry, a member and its value string execute the member's tool alike |
| Registry.TableKeys | anti_slop/registry.py:51-53 | after k registrations the keys are exactly the first k names |
| Registry.NamesArePrefix | anti_slop/registry.py:30-49 | the key order after k registrations is the first k of `list_all()` |
| Registry.NamesDistinct | anti_slop/enums.py:27-30 | `list_all()` names no tool twice |
| Registry.TableComplete | anti_slop/registry.py:30-49 | after all thirteen, every member is present with its own tool and the keys are `list_all()` |
| Registry.TableAt | anti_slop/registry.py:51-53 | after k registrations each of the first k members is present under its value with its own tool |
| Registry.UnknownNameRefused | anti_slop/registry.py:65-72 | a string no member has is refused with the message listing every tool |
| Formatters.Index | anti_slop/formatters.py:57-79 | `data[key]` succeeds exactly on a dict holding the key; otherwise KeyError or TypeError |
| Formatters.Items | anti_slop/formatters.py:95-98 | iteration succeeds exactly on a list, dict or string |
| Formatters.FirstFive | anti_slop/formatters.py:167-184 | `[:5]` of a list is its first min(5, n) items |
| Formatters.Pairs | anti_slop/formatters.py:57-62 | `.items()` succeeds exactly on a dict |
| Formatters.MapLines | anti_slop/formatters.py:95-98 | a comprehension succeeds exactly when every line does, one line per item |
| Formatters.MapPairs | anti_slop/formatters.py:57-62 | one line per dict entry, in order |
| Formatters.Exceeds | anti_slop/formatters.py:119-133 | the comparison succeeds exactly on a number, and is true exactly when the number exceeds the bound |
| Formatters.FirstPresent | anti_slop/formatters.py:28-47 | the chosen key is present and no earlier key is |
| Formatters.TextFormat | anti_slop/formatters.py:19-51 | a failure is "Error: " + error; data with none of the keys is shown as `str(data)`; otherwise the chosen layout joined by newlines |
| Formatters.Parts | anti_slop/formatters.py:28-49 | with no key present the single part is `str(data)` |
| Formatters.CleanedParts | anti_slop/formatters.py:53-79 | the first part shows the cleaned content; at most three parts |
| Formatters.BreakdownTail | anti_slop/formatters.py:57-68 | an empty breakdown adds nothing |
| Formatters.ChangesTail | anti_slop/formatters.py:69-75 | an empty change list adds nothing |
| Formatters.NormalizedParts | anti_slop/formatters.py:81-86 | succeeds exactly when both fields are present; two parts |
| Formatters.AiPhrasesParts | anti_slop/formatters.py:88-103 | the no-phrases message appears exactly when no phrase was found |
| Formatters.ClichesParts | anti_slop/formatters.py:105-117 | the no-clichés message appears exactly when no cliché was found |
| Formatters.Recommendation | anti_slop/formatters.py:128-132 | succeeds exactly on a number; the active-voice advice exactly above 20 percent |
| Formatters.PassiveParts | anti_slop/formatters.py:119-133 | five parts; the last is the active-voice advice exactly when the percentage exceeds 20 |
| Formatters.ReadabilityParts | anti_slop/formatters.py:135-151 | ten parts, needing both `stats` and `readability` |
| Formatters.RepetitionParts | anti_slop/formatters.py:153-165 | the no-repetition message appears exactly when no phrase repeats |
| Formatters.RunOnListing | anti_slop/formatters.py:177-180 | at most five sentences are shown, one line each |
| Formatters.RunOnParts | anti_slop/formatters.py:167-184 | four parts, ending in the no-run-ons message, exactly when none was found |
| Formatters.AnalysisParts | anti_slop/formatters.py:186-197 | six parts, needing `score` |
| Formatters.ImprovedParts | anti_slop/formatters.py:199-206 | four parts, needing `improved_content` |
| Formatters.ListingIsNoMessage | anti_slop/formatters.py:98-101 | a non-empty listing of quoted lines never equals a fixed message |
| Formatters.JsonFormat | anti_slop/formatters.py:212-223 | two entries: `success`, and `data` on success or `error` on failure |
| Formatters.JsonRoundTrip | anti_slop/formatters.py:212-223 | a result is recovered from its JSON form exactly when it has no error beside success and no data beside failure |
| Server.ReplaceChar | server.py:81 | `replace` of one character keeps the length and every other character in place |
| Server.CountIsMultiplicity | server.py:82 | `str.count` of a character is its number of occurrences |
| Server.ReplaceCharCounts | server.py:81-82 | replacing c by d leaves no c, adds one d per c, and keeps every other character's count |
| Server.RemoveEmDashes | server.py:80-90 | no em dash remains, each became "-", the length is kept, other characters stay in place, and the count is the em dashes' number |
| Server.EmDashesBecomeHyphens | server.py:81-82 | the hyphens gained equal the em dashes counted, and no other character changes in number |
| Server.ServerAiPhrasesArePackagePhrases | server.py:129-153 | the handler's phrase list is the analyzer's PHRASES |
| Server.AiPhrasesDetected | server.py:128-176 | hits in list order; `total_instances` is the sum of counts and at least `ai_phrases_detected`; score `min(10, 2n)` |
| Server.AiPhrasesAgreeWithAnalyzer | server.py:159-176 | the handler finds and scores the same phrases as `AIPhrasesAnalyzer` |
| Server.InstanceDictFields | server.py:162-166 | each entry's `instances` list is as long as its `count` |
| Server.InstancesMatchCount | server.py:159-168 | each entry's `instances` are the `findall` results: at least one, as many as `count`, each the phrase up to case |
| Server.DetectAiPhrases | server.py:159-176 | the loop and the sum give `AiPhrasesDetected` |
| Server.ServerTablesArePackageTables | server.py:182 | the handlers' filler, hedge and redundancy lists are the cleaners' tables |
| Server.RemoveFillerWords | server.py:180-200 | the response is the data `FillerWordsCleaner.execute` returns |
| Server.RemoveHedging | server.py:248-277 | the response is the data `HedgingCleaner.execute` returns |
| Server.RemoveRedundancies | server.py:430-469 | the response is the data `RedundancyCleaner.execute` returns |
| Server.RemoveEmojis | server.py:94-124 | the cleaner's two texts, then its counts nested under `removals` |
| Server.EmojiFindingsAsCleaner | server.py:117-123 | the nested counts are the cleaner's `emojis_removed` and `emojis_found` |
| Server.ClampInt | server.py:374 | `max(0, min(100, n))` lies in [0, 100] and keeps a value inside |
| Server.NonNegativeTenths | server.py:375 | `max(0, round(g, 1))` is the int 0 or a positive float |
| Server.ReadabilityOf | server.py:352-379 | ease in [0, 100]; grade the int 0 or positive |
| Server.RoundThenClamp | server.py:374 | rounding then clamping equals clamping then rounding |
| Server.GradeAgrees | server.py:375 | the grade equals the package's, except 0 where the package gives 0.0 |
| Server.ReadabilityAgreesWithAnalyzer | server.py:325-379 | the handler reports the package's counts, averages, ease and label, and its grade up to 0 against 0.0 |

## Left out

- Python `re` and Unicode are simplified:
  - Word characters are `[A-Za-z0-9_]`.
  - Whitespace is space, `\t`–`\r` and `\x1c`–`\x1f`.
  - Case folding is ASCII only.
  Other Unicode letters, digits and spaces are not modelled.
- Floats are exact reals:
  - `round` is round-half-even on the exact value.
  - `round(x, 1)` is kept as a whole number of tenths.
  - Binary floating-point error is not modelled.
- The AI-backed tools (`ContentAnalyzer`, `ContentImprover`) and the two AI handlers of `server.py` are not modelled beyond the branch that lacks a client. What a configured tool returns is the parameter `aiReply` of `Tools.Execute`.
- Reading `OPENAI_API_KEY` from the environment is not modelled. Whether a key is present is the parameter `apiKey`.
- Not modelled:
  - `api_server.py`, `mcp_server.py` and `anti_slop/__init__.py`;
  - the FastAPI application, the request models and the health route;
  - the `server.py` handlers for clichés, passive voice, whitespace, repetition and run-on sentences.
- Exceptions are kept by name only, such as "TypeError" or "KeyError". Their message text is not modelled.
- Registry.ToolRegistry.RegisterTools: the thirteen `register` calls are written as one loop over `Registrations`, which lists the same tools in the same order. Thirteen straight-line calls are too costly for the verifier.
- Cleaners.DeletedWordAbsent: absence after deletion is proved for single-word entries (all filler words). For multi-word hedge phrases only the counts and spacing are proved.
- Whitespace.NormalizedIdempotent: idempotence is proved only for text without `\r`, since the `\r\n` conversion runs after the blank-line squeeze.
- Server.ReadabilityAgreesWithAnalyzer: `count_syllables` and `get_reading_difficulty` in `server.py` are word for word those of the package. The handler model uses the package functions for both, so their agreement holds by construction rather than by a separate proof.
- Server.RemoveEmDashes: the handler replaces each em dash by a hyphen rather than deleting it, and the model follows the code.
- Base.StrRepr: `repr` escapes the characters Unicode calls non-printable. The model does this up to U+00FF. Above that (line and paragraph separators, format and private-use characters) `repr` writes `\uXXXX` or `\UXXXXXXXX`, while the model shows the character unescaped, since the Unicode character database is not modelled.
- `to_dict` output for the AI tools and `list_tools` ordering follow dict insertion order. Nothing about concurrency or I/O is modelled.
