/** The keyword router (`midterm_test_all_fixed/router.py`): a fixed-priority
    substring classifier, per-tool argument extraction by splitting and a
    regular-expression search, dispatch with exception wrapping, and a
    conversation object that records turns. */
module KeywordRouter {
  import opened PyText
  import opened ArithPattern
  import opened Registry
  import opened History

  /** The lower-cased message names the weather. */
  ghost predicate WeatherCue(q: string) {
    Occurs(q, "weather") || Occurs(q, "temperature")
  }

  /** The lower-cased message asks for arithmetic. */
  ghost predicate CalculatorCue(q: string) {
    Occurs(q, "calculate") || Occurs(q, "+") || Occurs(q, "-") || Occurs(q, "*") || Occurs(q, "/")
    || Occurs(q, "what is")
  }

  /** The lower-cased message asks for news. */
  ghost predicate NewsCue(q: string) {
    Occurs(q, "news") || Occurs(q, "headline")
  }

  /** `QueryRouter.route_query`: weather before calculator before news, each
      intent kept only when its tool is registered, `general_chat` otherwise. */
  function RouteQuery(toolMap: map<string, Tool>, query: string): (intent: string)
    ensures intent in toolMap || intent == GeneralChat
    ensures intent in {WeatherSearch, Calculator, NewsSearch, GeneralChat}
    ensures intent == WeatherSearch <==> WeatherSearch in toolMap && WeatherCue(Lower(query))
    ensures intent == Calculator <==>
              Calculator in toolMap && !WeatherCue(Lower(query)) && CalculatorCue(Lower(query))
    ensures intent == NewsSearch <==>
              NewsSearch in toolMap && !WeatherCue(Lower(query)) && !CalculatorCue(Lower(query))
              && NewsCue(Lower(query))
  {
    var q := Lower(query);
    if Contains(q, "weather") || Contains(q, "temperature") then
      (if WeatherSearch in toolMap then WeatherSearch else GeneralChat)
    else if Contains(q, "calculate") || Contains(q, "+") || Contains(q, "-") || Contains(q, "*")
            || Contains(q, "/") || Contains(q, "what is") then
      (if Calculator in toolMap then Calculator else GeneralChat)
    else if Contains(q, "news") || Contains(q, "headline") || (Contains(q, "find") && Contains(q, "news")) then
      (if NewsSearch in toolMap then NewsSearch else GeneralChat)
    else GeneralChat
  }

  const InWord := " in "
  const AboutWord := "about"

  lemma SeparatorsAreLowerCase()
    ensures Lower(InWord) == InWord && Lower(AboutWord) == AboutWord
  {
    assert Lower(InWord) == [LowerChar(' '), LowerChar('i'), LowerChar('n'), LowerChar(' ')];
    assert Lower(AboutWord) == [LowerChar('a'), LowerChar('b'), LowerChar('o'), LowerChar('u'), LowerChar('t')];
  }

  /** The weather argument: the text after the first `" in "` of the original
      message, trimmed; without `" in "` in the lower-cased message, its last
      word, trimmed. Indexing the split raises `IndexError` when the lower-cased
      message has `" in "` but the original does not (as in `"Weather IN
      Paris"`), or when the message has no word at all. */
  function WeatherArgument(query: string): (r: Outcome<string>)
    ensures r.Raised? <==>
              if Occurs(Lower(query), InWord) then !Occurs(query, InWord) else AllIn(query, Space)
    ensures r.Raised? ==> r.error == IndexError
    ensures forall k :: FirstOccursAt(query, InWord, k) ==> r == Returned(TrimArgument(query[k + |InWord|..]))
    ensures !Occurs(Lower(query), InWord) ==>
              forall k, j :: IsLastWord(Lower(query), k, j) ==> r == Returned(TrimArgument(Lower(query)[k..j]))
  {
    var q := Lower(query);
    SeparatorsAreLowerCase();
    LowerKeepsSpaces(query);
    LowerKeepsOccurs(query, InWord);
    if Contains(q, InWord) then
      match AfterFirst(query, InWord)
      case None => Raised(IndexError)
      case Some(rest) => Returned(TrimArgument(rest))
    else
      match LastWordSpan(q)
      case None => Raised(IndexError)
      case Some(span) => Returned(TrimArgument(q[span.0..span.1]))
  }

  /** The calculator argument: the leftmost, longest match of the arithmetic
      pattern in the lower-cased message, or the whole original message when
      nothing matches. It never raises. */
  function CalculatorArgument(query: string): (r: Outcome<string>)
    ensures r.Returned?
    ensures NoMatch(Lower(query)) ==> r.value == query
    ensures forall i, j :: LeftmostLongest(Lower(query), i, j) ==> r.value == Lower(query)[i..j]
  {
    var q := Lower(query);
    match Search(q)
    case None => Returned(query)
    case Some(span) =>
      assert forall i, j :: LeftmostLongest(q, i, j) ==> i == span.0 && j == span.1 by {
        forall i, j | LeftmostLongest(q, i, j) ensures i == span.0 && j == span.1 {
          LeftmostLongestUnique(q, i, j, span.0, span.1);
        }
      }
      Returned(q[span.0..span.1])
  }

  /** The news argument: the text after the first `"about"` of the original
      message, trimmed, or the whole message when the lower-cased message has
      no `"about"`. Indexing the split raises `IndexError` when only the
      lower-cased message has `"about"`. */
  function NewsArgument(query: string): (r: Outcome<string>)
    ensures r.Raised? <==> Occurs(Lower(query), AboutWord) && !Occurs(query, AboutWord)
    ensures r.Raised? ==> r.error == IndexError
    ensures !Occurs(Lower(query), AboutWord) ==> r == Returned(query)
    ensures forall k :: FirstOccursAt(query, AboutWord, k) ==> r == Returned(TrimArgument(query[k + |AboutWord|..]))
  {
    var q := Lower(query);
    SeparatorsAreLowerCase();
    LowerKeepsOccurs(query, AboutWord);
    if Contains(q, AboutWord) then
      match AfterFirst(query, AboutWord)
      case None => Raised(IndexError)
      case Some(rest) => Returned(TrimArgument(rest))
    else Returned(query)
  }

  /** The argument `execute_tool` passes to the named tool; any other tool
      gets the message unchanged. */
  function ToolArgument(toolName: string, query: string): (r: Outcome<string>)
    ensures r.Raised? ==> r.error == IndexError && (toolName == WeatherSearch || toolName == NewsSearch)
    ensures toolName == WeatherSearch ==> r == WeatherArgument(query)
    ensures toolName == Calculator ==> r == CalculatorArgument(query)
    ensures toolName == NewsSearch ==> r == NewsArgument(query)
    ensures toolName !in {WeatherSearch, Calculator, NewsSearch} ==> r == Returned(query)
  {
    if toolName == WeatherSearch then WeatherArgument(query)
    else if toolName == Calculator then CalculatorArgument(query)
    else if toolName == NewsSearch then NewsArgument(query)
    else Returned(query)
  }

  /** `QueryRouter.execute_tool`. An unregistered name gets the apology and no
      tool runs; a tool's exception becomes text; only the `IndexError` of the
      argument extraction, which happens outside the `try`, escapes. */
  function ExecuteTool(toolMap: map<string, Tool>, toolName: string, query: string): (r: Outcome<string>)
    ensures toolName !in toolMap ==> r == Returned(Apology)
    ensures r.Raised? ==>
              r.error == IndexError && toolName in toolMap && (toolName == WeatherSearch || toolName == NewsSearch)
    ensures toolName in toolMap && ToolArgument(toolName, query).Raised? ==> r == ToolArgument(toolName, query)
    ensures toolName in toolMap && ToolArgument(toolName, query).Returned? ==>
              r == Returned(RunTool(toolMap[toolName], ToolArgument(toolName, query).value))
  {
    if toolName !in toolMap then Returned(Apology)
    else
      match ToolArgument(toolName, query)
      case Raised(e) => Raised(e)
      case Returned(arg) => Returned(RunTool(toolMap[toolName], arg))
  }

  const MockChatReply := "I'm a mock assistant (no LLM). I can answer simple questions or use tools."
  const PlaceholderReply := "(LLM response placeholder)"

  /** The reply `process_message` computes: the canned chat reply, or the
      dispatch to the routed tool. Through routing, the extraction can only
      raise because of the case mismatch: a message routed to weather names
      the weather, so it always has a last word. */
  function Respond(llmPresent: bool, toolMap: map<string, Tool>, message: string): (r: Outcome<string>)
    ensures RouteQuery(toolMap, message) == GeneralChat ==>
              r == Returned(if llmPresent then PlaceholderReply else MockChatReply)
    ensures RouteQuery(toolMap, message) != GeneralChat ==>
              r == ExecuteTool(toolMap, RouteQuery(toolMap, message), message)
    ensures r.Raised? <==>
              (RouteQuery(toolMap, message) == WeatherSearch
               && Occurs(Lower(message), InWord) && !Occurs(message, InWord))
              || (RouteQuery(toolMap, message) == NewsSearch
                  && Occurs(Lower(message), AboutWord) && !Occurs(message, AboutWord))
  {
    var intent := RouteQuery(toolMap, message);
    if intent == GeneralChat then
      Returned(if llmPresent then PlaceholderReply else MockChatReply)
    else
      WeatherMessageHasWord(message);
      ExecuteTool(toolMap, intent, message)
  }

  /** A message that names the weather is not all whitespace. */
  lemma WeatherMessageHasWord(message: string)
    ensures WeatherCue(Lower(message)) ==> !AllIn(message, Space)
  {
    LowerKeepsSpaces(message);
    var q := Lower(message);
    if Occurs(q, "weather") {
      var k :| OccursAt(q, "weather", k);
      OccurrenceNotBlank(q, "weather", k);
    } else if Occurs(q, "temperature") {
      var k :| OccursAt(q, "temperature", k);
      OccurrenceNotBlank(q, "temperature", k);
    }
  }

  /** A text holding a word that starts with a non-space is not all whitespace. */
  lemma OccurrenceNotBlank(q: string, w: string, k: int)
    requires OccursAt(q, w, k) && |w| > 0 && !IsSpace(w[0])
    ensures !AllIn(q, Space)
  {
    assert q[k] == q[k..k + |w|][0];
  }

  /** `ConversationRouter` of the keyword router. */
  class ConversationRouter {
    /** Whether an `llm` object was supplied (its truthiness). */
    const llmPresent: bool
    /** The `tool_map` of the router's `QueryRouter`. */
    const toolMap: map<string, Tool>
    var history: seq<Turn>

    constructor(llmPresent: bool, tools: seq<Tool>)
      ensures this.llmPresent == llmPresent && toolMap == ToolMapOf(tools) && history == []
    {
      this.llmPresent := llmPresent;
      var m := BuildToolMap(tools);
      toolMap := m;
      history := [];
    }

    /** `process_message`: records the user turn, answers, and records the
        answer only on the tool path and only if extraction did not raise. */
    method ProcessMessage(message: string) returns (r: Outcome<string>)
      modifies this
      ensures r == Respond(llmPresent, toolMap, message)
      ensures history == old(history) + [Turn(User, message)]
                         + (if r.Returned? && RouteQuery(toolMap, message) != GeneralChat
                            then [Turn(Assistant, r.value)] else [])
      ensures WellFormed(old(history)) ==> WellFormed(history)
      ensures Paired(old(history)) && r.Returned? && RouteQuery(toolMap, message) != GeneralChat ==> Paired(history)
    {
      ghost var before := history;
      history := history + [Turn(User, message)];
      var toolName := RouteQuery(toolMap, message);
      if toolName == GeneralChat {
        if !llmPresent {
          r := Returned(MockChatReply);
        } else {
          r := Returned(PlaceholderReply);
        }
        if WellFormed(before) { ExchangeKeepsWellFormed(before, message, []); }
        return;
      }
      r := ExecuteTool(toolMap, toolName, message);
      if r.Raised? {
        if WellFormed(before) { ExchangeKeepsWellFormed(before, message, []); }
        return;
      }
      history := history + [Turn(Assistant, r.value)];
      if WellFormed(before) { ExchangeKeepsWellFormed(before, message, [Turn(Assistant, r.value)]); }
      if Paired(before) { ExchangeKeepsPaired(before, message, r.value); }
    }
  }
}
