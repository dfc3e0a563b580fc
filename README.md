# Conversational query router, modelled in Dafny

The repository has two variants of a small conversational router. Each one sends a
user message to one of three tools (`weather_search`, `calculator`,
`news_search`) or to general chat. It passes the chosen tool an argument
taken from the message and keeps a conversation history.

- **Keyword router** (`midterm_test_all_fixed/router.py`, module
  `KeywordRouter`) works as follows:
  - It picks the intent with a fixed-priority substring test on the
    lower-cased message: weather, then calculator, then news. Each intent falls
    back to `general_chat` when its tool is not registered.
  - It extracts the argument by splitting on `" in "` / `"about"`, or by
    searching for an arithmetic regular expression.
  - It runs the tool. A tool's exception becomes the text
    `"Error executing tool: ..."`.
  - It records turns in `ConversationRouter.history`. The user turn is always
    recorded. The assistant turn is recorded only on the tool path.
- **Model-assisted router** (`midterm_test_fixed/router.py`, module
  `ModelRouter`) works as follows:
  - A language model chooses the tool. The router keeps the model's reply,
    stripped and lower-cased, only if it names a registered tool; otherwise it
    uses `general_chat`.
  - The model also extracts the argument, which is stripped.
  - General chat sends the model the last four turns of the history as
    context.
  - Every answered message records a user turn and an assistant turn.

Supporting modules:

- `PyText` models the Python `str` operations the routers use: `lower`, `in`,
  `split(sep, 1)[1]`, `split()[-1]`, `strip`, `rstrip("? .")` and `"\n".join`.
  Each is specified by what it computes, for example "the text after the first
  occurrence" or "the last maximal run of non-whitespace".
- `ArithPattern` specifies `re.search(r"(\d+\s*[\+\-\*/]\s*\d+)", q)` by the
  leftmost-longest match. A scanner is proved against that specification.
- `Registry` holds the shared parts:
  - Python exceptions as values (`Outcome`);
  - tools, whose `_run` is an uninterpreted function that returns text or
    raises;
  - `tool_map`, built by a loop and proved equal to the dictionary
    comprehension, where the last tool with a given name wins;
  - the `try`/`except` wrapping around a tool run.
- `History` covers conversation turns and the two invariants the routers
  keep: every assistant turn follows a user turn, and the history consists of
  complete (user, assistant) pairs.
- `KeywordExamples` works through the demonstration queries, including the
  message that makes the keyword router raise.

A language model call is an uninterpreted function `Prompt -> Outcome<string>`
(a `ModelRouter.LanguageModel`). The prompt records the values a chain's
template is filled with.

Notes on what the code does:

- When no arithmetic expression is found, the keyword router passes the whole
  original message to the calculator (`midterm_test_all_fixed/router.py:40`).
  The demonstration script's path without a router falls back to the fixed
  expression `"5 * 3"` instead (`midterm_test_all_fixed/demo.py:35`). That
  script is not modelled.
- Argument extraction can fail. The keyword router tests for `" in "` and
  `"about"` in the lower-cased message but splits the original message. So
  `"Weather IN Paris"` makes `split(" in ", 1)[1]` raise `IndexError`. That
  exception escapes `execute_tool` and `process_message` after the user turn
  has been recorded. The model returns `Raised(IndexError)` there
  (`KeywordRouter.Respond`, `KeywordExamples.CaseMismatchRaises`).
- The model-assisted router does not catch exceptions from its model calls.
  They propagate out of `route_query`, `execute_tool` and `process_message`.
- The keyword router records no assistant turn for general chat, and the
  model-assisted router does. Both behaviours are modelled as written.

## Model

| member | source | states |
|---|---|---|
| PyText.Lower | midterm_test_all_fixed/router.py:18 | `lower()` keeps the length and lower-cases each character (ASCII letters) |
| PyText.LowerKeepsSpaces | midterm_test_all_fixed/router.py:36 | a message is all whitespace exactly when its lower-cased form is |
| PyText.LowerKeepsDigits | midterm_test_all_fixed/router.py:39 | lower-casing changes no digit position, so the pattern sees the same digits |
| PyText.LowerKeepsOccurrence | midterm_test_all_fixed/router.py:31-34 | a lower-case separator found in the message is found at the same index in its lower-cased form |
| PyText.LowerKeepsOccurs | midterm_test_all_fixed/router.py:33-34 | if the original message has a lower-case separator, so does the lower-cased one (so the split can only fail the other way round) |
| PyText.Find | midterm_test_all_fixed/router.py:19 | returns the first occurrence when there is one, and nothing exactly when the pattern does not occur |
| PyText.Contains | midterm_test_all_fixed/router.py:19-23 | `pat in s` holds exactly when some index is an occurrence |
| PyText.FirstOccurrenceUnique | midterm_test_all_fixed/router.py:34 | a first occurrence is unique |
| PyText.AfterFirst | midterm_test_all_fixed/router.py:34 | `split(sep, 1)[1]` fails exactly when `sep` does not occur; otherwise it is everything after the first occurrence |
| PyText.RStrip | midterm_test_all_fixed/router.py:34 | the result is a prefix, everything dropped is in the class, and the result does not end with a class character |
| PyText.LStrip | midterm_test_all_fixed/router.py:34 | the result is a suffix, everything dropped is in the class, and the result does not start with a class character |
| PyText.RStripExact | midterm_test_all_fixed/router.py:34 | a cut point with only class characters after it and a non-class character before it is the result of `rstrip` |
| PyText.LStripExact | midterm_test_all_fixed/router.py:34 | a cut point with only class characters before it and a non-class character at it is the result of `lstrip` |
| PyText.Strip | midterm_test_fixed/router.py:38 | `strip()` is a slice of its input with only whitespace before and after it, and it neither begins nor ends with whitespace |
| PyText.TrimArgument | midterm_test_all_fixed/router.py:34 | `strip().rstrip("? .")` is a prefix of the stripped text, drops only `?`, space and `.`, and ends with none of them |
| PyText.LastWordUnique | midterm_test_all_fixed/router.py:36 | a string has at most one last word in the sense of `split()` |
| PyText.LastWordSpan | midterm_test_all_fixed/router.py:36 | `split()[-1]` fails exactly when the text is all whitespace; otherwise it is the last maximal run of non-whitespace |
| PyText.Join | midterm_test_fixed/router.py:33 | `"\n".join` of no parts is empty; otherwise the result begins with the first part |
| PyText.JoinSnoc | midterm_test_fixed/router.py:88-90 | `"\n".join` of one more line adds the separator and that line |
| ArithPattern.MatchStartsWithDigit | midterm_test_all_fixed/router.py:39 | every match of the pattern starts with a digit |
| ArithPattern.NoMatchBeforeDigit | midterm_test_all_fixed/router.py:39 | no match starts before the first digit of the text |
| ArithPattern.MatchEnd | midterm_test_all_fixed/router.py:39 | a greedy match found from a start lies inside the text and starts and ends with a digit |
| ArithPattern.RunEnd | midterm_test_all_fixed/router.py:39 | a greedy `\d+` or `\s*` stops at the end of the longest run of its class |
| ArithPattern.RunEndExact | midterm_test_all_fixed/router.py:39 | a maximal run ends exactly where `RunEnd` says |
| ArithPattern.RunEndCovers | midterm_test_all_fixed/router.py:39 | every run from the same start ends at or before `RunEnd` |
| ArithPattern.MatchEndSound | midterm_test_all_fixed/router.py:39 | the greedy end found from a start is a match |
| ArithPattern.RunsOfMatch | midterm_test_all_fixed/router.py:39 | a match from a start consists of exactly the digit, whitespace and digit runs the greedy scan finds around one operator |
| ArithPattern.MatchWithinMatchEnd | midterm_test_all_fixed/router.py:39 | a match from a start ends at or before the greedy end, which exists |
| ArithPattern.MatchEndComplete | midterm_test_all_fixed/router.py:39 | every match from a start ends at or before the greedy end, and exists only when the greedy end does |
| ArithPattern.SearchFrom | midterm_test_all_fixed/router.py:39 | scanning from `i`, the first start with a match and its longest end, or no match from `i` on |
| ArithPattern.LeftmostLongestUnique | midterm_test_all_fixed/router.py:39 | the leftmost-longest match is unique |
| ArithPattern.Search | midterm_test_all_fixed/router.py:39 | `re.search` returns the leftmost-longest match, and nothing exactly when no substring matches |
| Registry.BuildToolMap | midterm_test_all_fixed/router.py:15 | the loop builds the same map as `{tool.name: tool for tool in tools}` |
| Registry.ToolMapKeys | midterm_test_all_fixed/router.py:15 | the keys of the map are exactly the names of the tools |
| Registry.ToolMapLastWins | midterm_test_all_fixed/router.py:15 | each name maps to the last tool in the list carrying it |
| Registry.ToolMapOf | midterm_test_all_fixed/router.py:15 | `{tool.name: tool for tool in tools}` built left to right; every tool in the map is stored under its own name |
| Registry.RunTool | midterm_test_all_fixed/router.py:48-51 | a tool's result is returned, and a tool's exception becomes `"Error executing tool: " + str(e)` and never escapes |
| History.PairedAlternates | midterm_test_fixed/router.py:78-84 | a history of complete exchanges has even length, user turns at even positions and assistant turns at odd ones |
| History.ExchangeKeepsWellFormed | midterm_test_all_fixed/router.py:60-68 | appending a user turn, answered or not, keeps every assistant turn right after a user turn |
| History.ExchangeKeepsPaired | midterm_test_fixed/router.py:78-84 | appending a user turn and its answer keeps the history a sequence of complete exchanges |
| KeywordRouter.RouteQuery | midterm_test_all_fixed/router.py:17-25 | the result is one of the four intents, and it is registered or `general_chat`; weather is chosen exactly when it is registered and cued; calculator exactly when registered, cued and not weather-cued; news exactly when registered, cued and neither earlier intent is cued |
| KeywordRouter.WeatherArgument | midterm_test_all_fixed/router.py:31-36 | raises `IndexError` exactly when only the lower-cased message has `" in "` or when the message is all whitespace; otherwise the trimmed text after the first `" in "` of the original message, or else the trimmed last word of the lower-cased message |
| KeywordRouter.CalculatorArgument | midterm_test_all_fixed/router.py:37-40 | never raises; gives the leftmost-longest pattern match in the lower-cased message, or the whole original message when nothing matches |
| KeywordRouter.NewsArgument | midterm_test_all_fixed/router.py:41-45 | raises `IndexError` exactly when only the lower-cased message has `"about"`; otherwise the trimmed text after the first `"about"` of the original message, or the whole message when there is no `"about"` |
| KeywordRouter.ToolArgument | midterm_test_all_fixed/router.py:32-47 | weather, calculator and news use their own extraction; only the weather and news extractions can raise, and only `IndexError`; other tools get the message unchanged |
| KeywordRouter.ExecuteTool | midterm_test_all_fixed/router.py:27-51 | an unregistered name gets the apology; for a registered tool the extraction's `IndexError` escapes and is the only exception that does; otherwise the wrapped tool run on the extracted argument |
| KeywordRouter.WeatherMessageHasWord | midterm_test_all_fixed/router.py:19-36 | a message routed to weather has a last word, so `split()[-1]` cannot fail there |
| KeywordRouter.Respond | midterm_test_all_fixed/router.py:61-67 | general chat gives the placeholder or the mock sentence, depending on whether a model is present; any other intent gives `ExecuteTool` of that intent; the reply raises exactly for weather or news messages whose separator occurs only in the lower-cased form |
| KeywordRouter.ConversationRouter.constructor | midterm_test_all_fixed/router.py:54-57 | the tool map is that of the tool list, and the history is empty |
| KeywordRouter.ConversationRouter.ProcessMessage | midterm_test_all_fixed/router.py:59-69 | returns `Respond`'s reply; the history gains the user turn, and the answer only on a tool path that did not raise; well-formed histories stay so; a paired history stays paired when a tool path did not raise |
| KeywordExamples.WeatherDemoSeparator | midterm_test_all_fixed/router.py:34 | the first `" in "` of `"What's the weather like in Tokyo?"` is at index 23 |
| KeywordExamples.TrimDropsQuestionMark | midterm_test_all_fixed/router.py:34 | trimming `"Tokyo?"` gives `"Tokyo"` |
| KeywordExamples.WeatherDemo | midterm_test_all_fixed/router.py:32-34 | `"What's the weather like in Tokyo?"` gives the argument `"Tokyo"` |
| KeywordExamples.CalculatorDemo | midterm_test_all_fixed/router.py:37-40 | `"Calculate 5 * 3"` gives the argument `"5 * 3"` |
| KeywordExamples.CalculatorFallbackKeepsCase | midterm_test_all_fixed/router.py:40 | `"What is love?"` passes the whole message, in its original case, to the calculator |
| KeywordExamples.NewsDemoSeparator | midterm_test_all_fixed/router.py:43 | the first `"about"` of `"Find me news about machine learning"` is at index 13 |
| KeywordExamples.TrimDropsLeadingSpace | midterm_test_all_fixed/router.py:43 | trimming `" machine learning"` gives `"machine learning"` |
| KeywordExamples.NewsDemo | midterm_test_all_fixed/router.py:41-43 | `"Find me news about machine learning"` gives the argument `"machine learning"` |
| KeywordExamples.CaseMismatchRoutesToWeather | midterm_test_all_fixed/router.py:18-20 | with the weather tool registered, `"Weather IN Paris"` is routed to it |
| KeywordExamples.CaseMismatchArgumentRaises | midterm_test_all_fixed/router.py:31-34 | the weather extraction of `"Weather IN Paris"` raises `IndexError` |
| KeywordExamples.CaseMismatchRaises | midterm_test_all_fixed/router.py:31-34 | with the weather tool registered, `"Weather IN Paris"` makes the reply raise `IndexError` |
| ModelRouter.Describe | midterm_test_fixed/router.py:61 | `f"{tool.name}: {tool.description}"`: the name, then `": "`, then the description |
| ModelRouter.ToolListing | midterm_test_fixed/router.py:32-33 | the listing is empty exactly when there are no tools; otherwise it begins with the first tool's `- name: description` line (`ListingLine`, built by `Describe`) |
| ModelRouter.ToolListingSnoc | midterm_test_fixed/router.py:32-33 | one line per tool in list order: one more tool adds its line after a newline |
| ModelRouter.Normalize | midterm_test_fixed/router.py:38 | `strip().lower()` is the slice of the lower-cased reply with only whitespace before and after it; it is lower-case and has no whitespace at either end |
| PyText.StrippedLowered | midterm_test_fixed/router.py:38 | lower-casing a whitespace-framed slice gives the same slice of the lower-cased text, so `strip().lower()` equals `lower().strip()` |
| ModelRouter.NormalizeIdempotent | midterm_test_fixed/router.py:38 | normalising a normalised reply changes nothing |
| ModelRouter.RouteQuery | midterm_test_fixed/router.py:31-39 | raises exactly when the routing call raises, with its exception; otherwise the normalised reply when it is a registered name, else `general_chat` |
| ModelRouter.ExecuteTool | midterm_test_fixed/router.py:41-67 | an unregistered name gets the apology with no model call; for a registered tool the extraction call's exception escapes and is the only exception that does; otherwise the wrapped tool run on the stripped extraction reply |
| ModelRouter.LastTurns | midterm_test_fixed/router.py:89 | the last `min(n, len)` turns, that is `history[-n:]` for `n > 0` |
| ModelRouter.RenderTurns | midterm_test_fixed/router.py:89 | one `role: content` line per turn, in order (`RenderTurn`, with the role's name from `History.RoleName`) |
| ModelRouter.Context | midterm_test_fixed/router.py:88-90 | the joined context is empty exactly when the history is empty or no turn is asked for |
| ModelRouter.RecentContext | midterm_test_fixed/router.py:88-90 | general chat's context is empty exactly when the history is |
| ModelRouter.GeneralChatReply | midterm_test_fixed/router.py:87-101 | the chat reply is the model's answer to a prompt that depends only on the last four turns and the message |
| ModelRouter.Respond | midterm_test_fixed/router.py:79-83 | a routing exception is the reply; `general_chat` gives `GeneralChatReply`; any other tool gives `ExecuteTool`; every exception comes from the routing, extraction or chat model call, never from a tool |
| ModelRouter.ContextSlides | midterm_test_fixed/router.py:88-90 | appending a turn shifts the context window by one line |
| ModelRouter.ContextEndsWithMessage | midterm_test_fixed/router.py:78-90 | general chat's context ends with the `user: message` line just recorded, after at most three earlier turns |
| ModelRouter.ContextIgnoresOlderTurns | midterm_test_fixed/router.py:88-89 | turns older than the last four never reach the context |
| ModelRouter.ConversationRouter.constructor | midterm_test_fixed/router.py:72-75 | keeps the model and tool list, the tool map is that of the list, and the history is empty |
| ModelRouter.ConversationRouter.ProcessMessage | midterm_test_fixed/router.py:77-85 | returns the reply computed over the history holding the user turn; the history gains the user turn and, unless a model call raised, the answer; well-formed histories stay so; a paired history stays paired when no model call raised |

## Left out

- Prompt texts and LangChain chains: only the values each template is filled with are modelled (`ModelRouter.Prompt`).
- The model and `tool._run` are uninterpreted functions of their input. Their nondeterminism (sampling, network, random mock data) is not modelled. Two calls with the same input give the same outcome.
- The tools themselves (`mock_tools.py`, including `eval` in the calculator) are not part of this model. A tool is only its name, description and `_run` outcome.
- `PyText.Lower`: lower-cases ASCII letters only. Python's full Unicode case mapping, which can change a string's length, is not modelled.
- `PyText.IsDigit`: `\d` is modelled as ASCII digits only, not every Unicode decimal digit.
- `QueryRouter(llm, None)` in the keyword router (`tools or []`) is not modelled. The tool list is always a sequence.
- The `BaseTool` import fallback and the module imports are not modelled. They do not affect behaviour.
- `except Exception` is modelled as catching every exception a tool raises. Exceptions outside `Exception`, such as `KeyboardInterrupt`, are not distinguished.
- Both `QueryRouter` classes are folded into their `ConversationRouter`. The tool map is a constant field. `route_query` and `execute_tool` are functions of that map, because the router never updates them after construction.
- The demo script and its mock no-model path (with its `"general"` topic) are not modelled.
