# Smart assistant, three levels: a verified model of its routing logic

The repository builds a command-line assistant in three levels.

- **Level 1** (`Level-1/chatbot-1.py`) forwards every line the user types to
  the Gemini language model. It strips bold markers from the reply and tags
  each turn with an event (`math_refused`, `error_occurred`,
  `query_answered`). It keeps one session-log record per turn until the user
  types "exit" or "quit".
- **Level 2** (`Level-2/chatbot-2.py`, `Level-2/calculator_tool.py`) routes
  each stripped line to one of three handlers:
  - a line that mixes a math request with a general question gets a fixed
    refusal;
  - a math line is rewritten by the first of eight sentence patterns that
    matches ("add A and B", "subtract A from B", …, "what is A minus B") and
    handed to a calculator guarded by a character whitelist;
  - every other line goes to the model.
- **Level 3** (`Level-3/full_agent.py`, `Level-3/translator_tool.py`) is an
  agent that handles one query in four stages, in this order:
  1. translation of a phrase through a fixed three-entry table;
  2. every addition and multiplication its four patterns find;
  3. two factual questions sent to the model;
  4. a fallback call to the model when nothing earlier produced a line.

  It records the steps, the tools and the response lines, and writes one log
  entry per query.

The model is written in Dafny:

- Pure code (detectors, rewriters, the calculator guard, the translator,
  bold stripping, event tags) is written as functions.
- The regular expressions are written as one hand-made matcher per fixed
  pattern, with Python's backtracking, leftmost-search and `finditer`
  semantics.
- Code that builds lists step by step is written as methods with loops and
  invariants, proved equal to specification functions:
  - the chat loops of Levels 1 and 2;
  - the agent's `convert_all_math_expressions` and `handle_query`;
  - its entry loop.
- The properties the programs promise are proved as lemmas about those
  functions. Examples:
  - pattern priority and operand order;
  - whitelist closure of every rewritten expression;
  - exactly one log record per turn;
  - the fallback fires exactly when no other stage answered;
  - the set of tools logged.

Modules:

- `Text`: the Python string operations used (`isspace`, `lower`, `strip`,
  `replace`, `in`, `join`).
- `Patterns`, `Sentences`, `Exclusion`, `Quiet`: the sentence patterns,
  their matchers, and why each pattern matches its own sentences and no
  earlier pattern does.
- `Calculator`, `Translator`, `Gemini`: the two tools, and the handling of
  the model's reply.
- `Sessions`: the transcript of a chat loop.
- `ChatbotLevel1`, `ChatbotLevel2`: the two chatbots.
- `AgentMath`, `TranslationRequest`, `FullAgent`: the agent.

Behaviours the proofs make explicit:

- Level 1 exits only on an unstripped "exit"/"quit" in any letter case, so
  " exit" keeps the loop going. Level 2 and the agent strip the line first.
- When the evaluator fails, the Level-2 answer shows the expression twice.
  The calculator's own message already starts with "Invalid expression: "
  plus the expression, and the chatbot wraps it in a second such prefix. A
  whitelist rejection carries no expression of its own, so its answer shows
  the expression once (`ChatbotLevel2.UnconvertedRejected`).
- On ASCII text, the agent's test for "translate" in the lower-cased query
  is redundant. Whenever the translation pattern matches, the query contains
  "translate" in any letter case (`TranslationRequest.RequestMentions`).
  Python's case-insensitive matching also equates some non-ASCII letters
  with ASCII ones (the long s "ſ" matches "s"), which this model does not
  cover.
- Every gate keyword of the agent is also a math keyword of Level 2
  (`FullAgent.GateIsMath`).

## Model

| member | source | states |
|---|---|---|
| Text.RemoveAbsent | Level-2/chatbot-2.py:51 | `replace("?", "")` leaves a text without a question mark unchanged |
| Text.StripPadded | Level-2/chatbot-2.py:96 | `strip()` removes exactly the whitespace around a text that neither starts nor ends with whitespace |
| Text.LowerIdempotent | Level-2/chatbot-2.py:78 | lowering an already lowered text changes nothing |
| Text.ContainsIff | Level-2/chatbot-2.py:46 | `w in s` holds exactly when `w` occurs at some index of `s` |
| Calculator.Calculate | Level-2/calculator_tool.py:1-11 | rejected with "Expression contains invalid characters." exactly when a character is off the whitelist; otherwise the evaluator's rounded value, or a `ValueError` whose message starts "Invalid expression: " followed by the expression; no other outcome |
| Calculator.Invalid | Level-2/calculator_tool.py:10-11 | the wrapped evaluation error starts with "Invalid expression: " and the expression, and differs from the whitelist message |
| Calculator.RejectedNotEvaluated | Level-2/calculator_tool.py:4-8 | a rejected expression gets the same error whatever the evaluator does, so it is never evaluated |
| Calculator.WhitelistedChars | Level-2/calculator_tool.py:3-5 | the whitelist holds exactly for strings made of ASCII digits and `+-*/(). ` |
| Calculator.OnlyPlainSpace | Level-2/calculator_tool.py:3 | the plain space is the only whitespace character a whitelisted expression can hold |
| Calculator.TabAndNewlineRejected | Level-2/calculator_tool.py:3-5 | an expression holding a tab or a newline is rejected |
| Calculator.EmptyEvaluated | Level-2/calculator_tool.py:4-11 | the empty expression passes the whitelist and its outcome is the evaluator's |
| Translator.Missing | Level-3/translator_tool.py:8 | the placeholder is "[No translation found for '", then the phrase exactly as given (unstripped), then "']" |
| Translator.TableContents | Level-3/translator_tool.py:3-7 | the table maps the three English phrases to their three German translations |
| Translator.TableSize | Level-3/translator_tool.py:3-7 | the table has exactly three entries |
| Translator.TableDistinct | Level-3/translator_tool.py:3-8 | no translation starts like the placeholder, and no two phrases share a translation, so a hit can be told from a miss |
| Translator.TranslatedIff | Level-3/translator_tool.py:8 | a translation comes back exactly when the stripped phrase is a key, and it is that key's translation |
| Translator.PaddingIgnored | Level-3/translator_tool.py:8 | whitespace around a key does not change its translation |
| Translator.CaseSensitive | Level-3/translator_tool.py:3-8 | the lookup is exact: " good morning " misses and gets the placeholder quoting it unstripped |
| Gemini.Closing | Level-1/chatbot-1.py:39 | the closing `**` of a lazy `(.*?)` is the first one after the opening, with no newline in between; none exists when every later `**` comes after a newline |
| Gemini.Unbold | Level-1/chatbot-1.py:39 | `re.sub(r"\*\*(.*?)\*\*", r"\1", …)` removes four asterisks per replaced span: the result is shorter by a multiple of four characters |
| Gemini.UnboldDeletesStars | Level-1/chatbot-1.py:39 | bold stripping only deletes asterisks: the result is the text with some asterisks removed and every other character kept, in order |
| Gemini.StarsDeletedCounts | Level-1/chatbot-1.py:39 | deleting asterisks keeps the count of every other character, and the length lost is the number of asterisks removed |
| Gemini.UnboldKeepsText | Level-1/chatbot-1.py:39 | after bold stripping every character other than an asterisk occurs as often as in the reply |
| Gemini.UnboldPlain | Level-1/chatbot-1.py:39 | a text without `**` is left unchanged |
| Gemini.BoldSpan | Level-1/chatbot-1.py:39 | `**x**`, with no asterisk or newline in x, becomes x |
| Gemini.ClosingAfter | Level-1/chatbot-1.py:39 | the span closes at the first `**` when nothing before it is an asterisk or a newline |
| Gemini.Tag | Level-1/chatbot-1.py:79-84 | `math_refused` exactly when the lower-cased answer contains "calculator tool"; otherwise `error_occurred` exactly when it starts with "[Error]"; otherwise `query_answered` |
| Gemini.FailureTagged | Level-1/chatbot-1.py:41-42 | a failed call is tagged `error_occurred` unless its error text mentions the calculator tool |
| Gemini.FailurePrefixes | Level-1/chatbot-1.py:42 | the failure texts of the chatbots and of the agent both start with "[Error]" |
| Gemini.MentionWins | Level-1/chatbot-1.py:79-82 | a mention of "calculator tool", in any case, is checked before the "[Error]" prefix |
| Sessions.TranscriptShape | Level-1/chatbot-1.py:58-96 | a chat loop logs one entry per line before the first exit command, in order, and none for the exit or after it; fewer entries than lines exactly when an exit command came |
| ChatbotLevel1.Chatbot.constructor | Level-1/chatbot-1.py:55 | the session log starts empty and nothing is saved |
| ChatbotLevel1.Chatbot.Turn | Level-1/chatbot-1.py:58-96 | an exit command saves the log unchanged and stops; any other line appends exactly one record |
| ChatbotLevel1.Chatbot.Run | Level-1/chatbot-1.py:58-67 | the loop stops exactly when an exit command comes; the log grows by the transcript of the turns and is saved on exit |
| ChatbotLevel1.SessionRecords | Level-1/chatbot-1.py:90-96 | each record holds the line as typed, the model's cleaned answer, `["LLM (Gemini)"]` and the event tag of the answer; the model is consulted once per non-exit line |
| ChatbotLevel1.ExitCommands | Level-1/chatbot-1.py:60 | "exit", "Quit" and "EXIT" end the loop |
| ChatbotLevel1.PaddedCommands | Level-1/chatbot-1.py:60 | " exit", "exit " and "exit\n" do not end the loop, because the line is not stripped |
| ChatbotLevel1.FailedTurn | Level-1/chatbot-1.py:79-84 | a failed call gives an answer starting "[Error]", tagged `error_occurred` unless it mentions the calculator tool |
| ChatbotLevel1.ExitsStripped | Level-2/chatbot-2.py:96-97 | every line that ends Level 1 also ends Level 2 |
| Patterns.SkipSpaces | Level-2/chatbot-2.py:53 | `\s+` consumes the longest run of whitespace |
| Patterns.SkipDigits | Level-2/chatbot-2.py:53 | `(\d+)` consumes the longest run of digits |
| Patterns.Step | Level-2/chatbot-2.py:53-70 | one token ends inside the text, a token that cannot match the empty string ends after its start, and a number token spans a numeral |
| Patterns.MatchAt | Level-2/chatbot-2.py:53-70 | a match at `i` starts at `i`, ends inside the text, is not empty when the first token cannot match the empty string, and captures as many numerals as the pattern has groups |
| Patterns.Search | Level-2/chatbot-2.py:53-70 | `re.search`: the match found is the leftmost one, and none is found only when the pattern matches nowhere |
| Patterns.FindAll | Level-3/full_agent.py:54-67 | `re.finditer`: every match is a match at its start, and the matches run left to right without overlapping |
| Patterns.FindAllCovers | Level-3/full_agent.py:54-67 | no match is skipped: every position where the pattern matches lies inside a reported match |
| Sentences.MatchSentence | Level-2/chatbot-2.py:53-70 | a pattern's own sentence, with any of its connectives, matches in full and captures its two numbers in spoken order |
| Exclusion.SilentByLead | Level-2/chatbot-2.py:53-70 | a pattern whose lead word is absent from a sentence matches nowhere in it |
| Exclusion.SilentByConnective | Level-2/chatbot-2.py:53-70 | a pattern none of whose connectives occurs in a sentence matches nowhere in it |
| Quiet.QuietSubtract | Level-2/chatbot-2.py:53-56 | the add pattern finds nothing in a "subtract A from B" sentence |
| Quiet.QuietMultiply | Level-2/chatbot-2.py:53-58 | no earlier pattern finds anything in a "multiply A and/by B" sentence |
| Quiet.QuietDivide | Level-2/chatbot-2.py:53-60 | no earlier pattern finds anything in a "divide A by B" sentence |
| Quiet.QuietWhatTimes | Level-2/chatbot-2.py:53-64 | no earlier pattern finds anything in a "what is A times/multiplied by B" sentence |
| Quiet.QuietWhatDivided | Level-2/chatbot-2.py:53-66 | no earlier pattern finds anything in a "what is A divided by B" sentence |
| Quiet.QuietWhatPlus | Level-2/chatbot-2.py:53-68 | no earlier pattern finds anything in a "what is A plus/added to B" sentence |
| Quiet.QuietWhatMinus | Level-2/chatbot-2.py:53-70 | no earlier pattern finds anything in a "what is A minus/subtracted from B" sentence |
| ChatbotLevel2.Find | Level-2/chatbot-2.py:53-70 | a found match captures two numerals |
| ChatbotLevel2.FirstFound | Level-2/chatbot-2.py:53-72 | the pattern applied is the first one in order that is found; none is applied only when none is found |
| ChatbotLevel2.RewritePicks | Level-2/chatbot-2.py:53-72 | the first pattern found decides the expression, whatever later patterns would find |
| ChatbotLevel2.FindSentence | Level-2/chatbot-2.py:53-70 | each pattern finds its own sentence, spanning it whole |
| ChatbotLevel2.EarlierUnfound | Level-2/chatbot-2.py:53-70 | in a sentence of the k-th pattern, no earlier pattern is found |
| ChatbotLevel2.ConvertSentence | Level-2/chatbot-2.py:50-70 | "subtract A from B" becomes "B - A"; every other sentence, "what is A minus/subtracted from B" included, keeps the spoken order "A op B" |
| ChatbotLevel2.ConvertOutcome | Level-2/chatbot-2.py:50-72 | the text is rewritten exactly when some pattern is found in the normalized text; then the result is "digits op digits" with op in `+-*/`, inside the whitelist; otherwise the normalized text itself comes back |
| ChatbotLevel2.RewriteOutcome | Level-2/chatbot-2.py:53-72 | the same for any ordered list of the patterns |
| ChatbotLevel2.FoundNotWhitelisted | Level-2/chatbot-2.py:53-72 | a text in which a pattern is found holds a letter the calculator rejects, so a rewrite always changes it |
| ChatbotLevel2.ExpressionWhitelisted | Level-2/calculator_tool.py:3-5 | "A op B" with numerals A, B and op in `+-*/` passes the whitelist |
| ChatbotLevel2.IntendedWhitelisted | Level-2/chatbot-2.py:53-70 | the expression of every pattern's sentence passes the whitelist |
| ChatbotLevel2.KeywordMakesMath | Level-2/chatbot-2.py:43-46 | any of the 15 keywords anywhere in a line, even inside a word such as "address" or as a bare "-", makes it a math line |
| ChatbotLevel2.MixedIsMath | Level-2/chatbot-2.py:77-84 | a mixed line is always a math line |
| ChatbotLevel2.ReactionKinds | Level-2/chatbot-2.py:106-131 | no tools and `multi_intent_detected` exactly for a mixed line; `["calculator"]` exactly for a math line that is not mixed; `["LLM (Gemini)"]` exactly for a line that is not math; `tool:calculator` exactly for a math line, not mixed, whose calculation returns; every error answer starts with "[Error]" |
| ChatbotLevel2.CalculatorAnswer | Level-2/chatbot-2.py:111-121 | for every math line that is not mixed: a returned value gives "The result is: " plus the value and `tool:calculator`; a calculator error gives "[Error] Calculator tool failed: " plus "Invalid expression: ", the expression, ". Error: " and the calculator's message, tagged `error_occurred` |
| ChatbotLevel2.CalculatorErrorPrefixed | Level-2/chatbot-2.py:119 | the calculator error answer starts with "[Error]" |
| ChatbotLevel2.SentenceAnswered | Level-2/chatbot-2.py:111-121 | a math line that is one of the pattern sentences is answered "The result is: " plus the evaluator's value, or with the doubly wrapped calculator error |
| ChatbotLevel2.UnconvertedRejected | Level-2/chatbot-2.py:111-121 | a math line that no pattern rewrites and that keeps a character off the whitelist gets the invalid-characters error and `error_occurred` |
| ChatbotLevel2.WrittenArithmetic | Level-2/chatbot-2.py:111-117 | a math line already written in allowed characters is evaluated as normalized |
| ChatbotLevel2.Assistant.constructor | Level-2/chatbot-2.py:93 | the session log starts empty and nothing is saved |
| ChatbotLevel2.Assistant.Turn | Level-2/chatbot-2.py:95-141 | a stripped "exit"/"quit" saves the log and stops; any other line appends exactly the record of its reaction |
| ChatbotLevel2.Assistant.Run | Level-2/chatbot-2.py:95-102 | the loop stops exactly when an exit command comes; the log grows by the transcript and is saved on exit |
| AgentMath.Matches | Level-3/full_agent.py:54-67 | every match has two numeral groups; the matches lie in the text, left to right, without overlapping |
| AgentMath.Scan | Level-3/full_agent.py:54-67 | one `finditer` loop appends the entry of every match, in order, to the list it is given |
| AgentMath.ConvertAllMathExpressions | Level-3/full_agent.py:49-69 | all "add" matches first, then "multiply", then "what is … times", then "what is … plus", each group left to right |
| AgentMath.ScannedShape | Level-3/full_agent.py:54-67 | one entry per match, in the same order, each being "A op B" built from that match's numbers |
| AgentMath.ExtractedShape | Level-3/full_agent.py:53-69 | every entry is ("add", "A + B") or ("multiply", "A * B") with numerals A and B, inside the whitelist; subtraction and division never occur |
| AgentMath.EveryMatchReported | Level-3/full_agent.py:54-67 | wherever a pattern matches the prepared text, the match lies inside one the loop reports |
| AgentMath.BareMultiply | Level-3/full_agent.py:58 | the multiply connective is optional: "multiply A B" is one full match capturing A and B |
| AgentMath.BareMultiplyExtracted | Level-3/full_agent.py:58-59 | "multiply A B" is read as the multiplication "A * B" |
| AgentMath.PreparedPlain | Level-3/full_agent.py:50 | "multiply A B" is left unchanged by lower-casing, stripping and removing "?" |
| TranslationRequest.SkipPhrase | Level-3/full_agent.py:80 | `[^'"]+` runs up to the first quote |
| TranslationRequest.GiveBack | Level-3/full_agent.py:80 | a greedy group backtracks to the longest end at which the rest of the expression matches |
| TranslationRequest.Leftmost | Level-3/full_agent.py:80 | `re.search` takes the leftmost position where the expression matches |
| TranslationRequest.Request | Level-3/full_agent.py:80-82 | a captured phrase is non-empty and holds no quote |
| TranslationRequest.RequestMentions | Level-3/full_agent.py:79-80 | a query the expression matches contains "translate" once lower-cased |
| TranslationRequest.PlainRequest | Level-3/full_agent.py:80-82 | "translate X into german", with the three words in any letter case, asks for X with its case kept |
| TranslationRequest.QuotedRequest | Level-3/full_agent.py:80-82 | "translate 'X' into german", with either quote, asks for X without the quotes |
| FullAgent.Agent.constructor | Level-3/full_agent.py:41-46 | no log entry has been written |
| FullAgent.Agent.HandleQuery | Level-3/full_agent.py:72-129 | the response is the stage lines joined by "\n", in stage order; exactly one log entry is written, holding the query, the steps, the set of tools and the response |
| FullAgent.Agent.Run | Level-3/full_agent.py:134-140 | the loop stops exactly when a stripped "exit"/"quit" comes, and writes one log entry per query before it |
| FullAgent.TranslationStage | Level-3/full_agent.py:78-86 | appends the translation step, "translator" and the line "Translated: …" when the request matches, and nothing otherwise |
| FullAgent.ArithmeticStage | Level-3/full_agent.py:88-103 | appends the arithmetic stage's steps, tools and lines to those gathered so far |
| FullAgent.CalculatorLoop | Level-3/full_agent.py:95-103 | the `for` loop appends one step, "calculator" and one result line per calculation, up to the first failure, which adds only an error line and "calculator" |
| FullAgent.KnowledgeStage | Level-3/full_agent.py:105-110 | appends the knowledge step, "LLM (Gemini)" and the model's answer for a factual question, and nothing otherwise |
| FullAgent.FallbackStage | Level-3/full_agent.py:112-117 | appends the fallback step, "LLM (Gemini)" and the answer exactly when no line was gathered |
| FullAgent.Leading | Level-3/full_agent.py:95-103 | the calculations before the first failure all return, and the one at that index fails |
| FullAgent.CalculationsSteps | Level-3/full_agent.py:95-103 | one step per calculation before the first failure, each recording the operation name, the expression and the value; later calculations are not run |
| FullAgent.CalculationsLines | Level-3/full_agent.py:95-103 | one "Add Result: v"/"Multiply Result: v" line per calculation before the first failure, then the single "[Error] Calculator failed: …" line if one fails |
| FullAgent.CalculationsTools | Level-3/full_agent.py:95-103 | "calculator" is recorded once per line and no other tool is |
| FullAgent.SoundSteps | Level-3/full_agent.py:95-99 | the steps of sound calculations add or multiply whitelisted expressions |
| FullAgent.ArithmeticSteps | Level-3/full_agent.py:89-99 | every arithmetic step is an "add" or "multiply" of a whitelisted expression |
| FullAgent.ArithmeticLines | Level-3/full_agent.py:89-103 | the stage gives a line exactly when a gate keyword is present; with nothing extracted it gives the single "[Error] Calculator failed: No valid math expressions found." line and no step; it records "calculator" once per line |
| FullAgent.TranslationIff | Level-3/full_agent.py:79-86 | a step and a line exactly when the request matches; the line is "Translated: " plus the translation of the stripped phrase; only "translator" is recorded |
| FullAgent.TranslatedPhrase | Level-3/full_agent.py:82-86 | a phrase without surrounding whitespace is looked up as captured |
| FullAgent.QuotedTranslation | Level-3/full_agent.py:80-86 | a quoted phrase is translated without its quotes |
| FullAgent.ThreeStages | Level-3/full_agent.py:78-110 | the first three stages together give no line exactly when each gives none, and ask the model only in the knowledge stage |
| FullAgent.StagedShape | Level-3/full_agent.py:78-110 | before the fallback there is no line exactly when there is no translation request, no gate keyword and no factual question |
| FullAgent.FinishedShape | Level-3/full_agent.py:112-117 | the fallback adds one model call exactly when no line was gathered, and afterwards there is always a line |
| FullAgent.FallbackIff | Level-3/full_agent.py:112-117 | the fallback step is taken exactly when there is no translation request, no gate keyword and no factual question, and the response is never empty |
| FullAgent.ModelAskedOnce | Level-3/full_agent.py:105-117 | the model is asked at most once per query: exactly once for a factual question or a query no other stage handles, never otherwise |
| FullAgent.HandledTools | Level-3/full_agent.py:78-117 | the tools are only the three names; "translator" appears exactly for a matching request; "calculator" exactly for a gate keyword; "LLM (Gemini)" exactly for a factual question or a query with neither |
| FullAgent.ToolsUsed | Level-3/full_agent.py:125 | the logged tool set has the same three if-and-only-if properties |
| FullAgent.TranslationFirst | Level-3/full_agent.py:79-120 | a translation is the first step and its line leads the response |
| FullAgent.KnowledgeLast | Level-3/full_agent.py:106-120 | the model's answer to a factual question is the last step and the last line |
| FullAgent.GateIsMath | Level-3/full_agent.py:89 | every query the agent's gate opens for is a math line for Level 2 |
| FullAgent.SessionLogs | Level-3/full_agent.py:134-140 | one log entry per line before the first exit command, each with the line as typed (unstripped), its timestamp and its response |

## Left out

- The Gemini service is not modelled. Configuration, `generate_content` and the credential check are left out. Each turn carries the service's reply as a value: its text, or the details of the exception.
- Python's `eval` and `round(…, 4)` are left out. The calculator takes the evaluator as a function parameter that returns a shown value or an error reason.
- `calculator_tool1`, which the agent imports, is not part of this model. The agent takes its `calculator` as a function parameter of the same shape.
- Console `input` and `print` are not modelled. A session is the sequence of turns the user types, each with its timestamp and the model's reply.
- File and directory writes and `datetime.now` are not modelled.
  - Timestamps are given as values.
  - The chatbots keep what they would save on exit in a `saved` field.
  - The agent keeps its per-query log entries in a `written` field.
- FullAgent.Agent.HandleQuery: the agent names each log file after the
  clock reading at the time of writing, to the second, and overwrites an existing file, so a
  second query in the same second replaces the first one's entry. The model
  keeps every entry in `written` and does not capture this loss.
- FullAgent.ToolsUsed: the order of `list(set(tools_used))` is unspecified in Python, so the logged tools are a set and their order is not modelled.
- Text.Lower: `lower()`, `re.IGNORECASE` and `\d` are modelled on ASCII only. Non-ASCII case mappings and non-ASCII digits are not captured.
- The `is_math` keyword test of Level 1 is computed but never used, so it is not modelled.
- The system instructions sent to the model, and the shell-printed messages, are not modelled.
