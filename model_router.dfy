/** The model-assisted router (`midterm_test_fixed/router.py`): a language
    model picks the tool and extracts its argument; the code around those calls
    normalises and checks the model's answers, wraps tool exceptions, and keeps
    a history whose last four turns are the context of general chat. */
module ModelRouter {
  import opened PyText
  import opened Registry
  import opened History

  /** The variables each chain's prompt template is filled with; the template
      text itself is not modelled. */
  datatype Prompt =
    | RoutingPrompt(query: string, availableTools: string)
    | ExtractionPrompt(query: string, toolDescription: string)
    | ChatPrompt(context: string, message: string)

  /** One invocation of a chain `prompt | llm | StrOutputParser()`: the
      model's text, or the exception the call raises. */
  type LanguageModel = Prompt -> Outcome<string>

  /** `f"{tool.name}: {tool.description}"`: the name, then `": "`, then the description. */
  function Describe(tool: Tool): (r: string)
    ensures |r| == |tool.name| + 2 + |tool.description|
    ensures r[..|tool.name|] == tool.name && r[|tool.name|..|tool.name| + 2] == ": "
    ensures r[|tool.name| + 2..] == tool.description
  {
    tool.name + ": " + tool.description
  }

  /** The `available_tools` text: one `- name: description` line per tool, in
      list order (duplicates included). */
  function ToolListing(tools: seq<Tool>): (r: string)
    ensures r == [] <==> tools == []
    ensures tools != [] ==> |ListingLine(tools[0])| <= |r| && r[..|ListingLine(tools[0])|] == ListingLine(tools[0])
  {
    Join("\n", ListingLines(tools))
  }

  /** `f"- {tool.name}: {tool.description}"`. */
  function ListingLine(tool: Tool): string {
    "- " + Describe(tool)
  }

  function ListingLines(tools: seq<Tool>): (r: seq<string>)
    ensures |r| == |tools|
    ensures forall i :: 0 <= i < |tools| ==> r[i] == ListingLine(tools[i])
  {
    seq(|tools|, i requires 0 <= i < |tools| => ListingLine(tools[i]))
  }

  /** The listing has one line per tool, in list order: one more tool adds its
      line at the end. */
  lemma ToolListingSnoc(tools: seq<Tool>, tool: Tool)
    ensures ToolListing(tools + [tool]) ==
              if tools == [] then ListingLine(tool) else ToolListing(tools) + "\n" + ListingLine(tool)
  {
    assert ListingLines(tools + [tool]) == ListingLines(tools) + [ListingLine(tool)];
    JoinSnoc("\n", ListingLines(tools), ListingLine(tool));
  }

  /** `result.strip().lower()`: the lower-cased reply with the whitespace at
      both ends removed. */
  function Normalize(reply: string): (r: string)
    ensures |r| <= |reply|
    ensures Lower(r) == r
    ensures r == [] || (!IsSpace(r[0]) && !IsSpace(r[|r| - 1]))
    ensures exists i :: StrippedAt(Lower(reply), r, i)
  {
    var stripped := Strip(reply);
    LowerIdempotent(stripped);
    LowerKeepsEnds(stripped);
    StrippedThenLowered(reply);
    Lower(stripped)
  }

  lemma StrippedThenLowered(reply: string)
    ensures exists i :: StrippedAt(Lower(reply), Lower(Strip(reply)), i)
  {
    var i :| StrippedAt(reply, Strip(reply), i);
    StrippedLowered(reply, Strip(reply), i);
  }

  /** Normalising a normalised reply changes nothing. */
  lemma NormalizeIdempotent(reply: string)
    ensures Normalize(Normalize(reply)) == Normalize(reply)
  {
    var z := Normalize(reply);
    if z != [] {
      LStripExact(z, 0, Space);
      assert z[0..] == z;
      RStripExact(z, |z|, Space);
      assert z[..|z|] == z;
    }
  }

  /** `QueryRouter.route_query`: the model's reply, normalised, is the route
      when it is a registered tool name and `general_chat` otherwise; a failing
      model call propagates. */
  function RouteQuery(llm: LanguageModel, tools: seq<Tool>, toolMap: map<string, Tool>, query: string)
    : (r: Outcome<string>)
    ensures r.Raised? <==> llm(RoutingPrompt(query, ToolListing(tools))).Raised?
    ensures r.Raised? ==> r == llm(RoutingPrompt(query, ToolListing(tools)))
    ensures r.Returned? ==> r.value in toolMap || r.value == GeneralChat
    ensures r.Returned? ==>
              var name := Normalize(llm(RoutingPrompt(query, ToolListing(tools))).value);
              (name in toolMap ==> r.value == name) && (name !in toolMap ==> r.value == GeneralChat)
  {
    match llm(RoutingPrompt(query, ToolListing(tools)))
    case Raised(e) => Raised(e)
    case Returned(result) =>
      var name := Normalize(result);
      Returned(if name in toolMap then name else GeneralChat)
  }

  /** `QueryRouter.execute_tool`. An unregistered name gets the apology, with no
      model call and no tool run. Otherwise the model's reply, stripped, is the
      tool's argument; a tool's exception becomes text, and only a failing model
      call propagates. */
  function ExecuteTool(llm: LanguageModel, toolMap: map<string, Tool>, toolName: string, query: string)
    : (r: Outcome<string>)
    ensures toolName !in toolMap ==> r == Returned(Apology)
    ensures r.Raised? ==>
              toolName in toolMap && r == llm(ExtractionPrompt(query, Describe(toolMap[toolName])))
    ensures toolName in toolMap && llm(ExtractionPrompt(query, Describe(toolMap[toolName]))).Raised? ==>
              r == llm(ExtractionPrompt(query, Describe(toolMap[toolName])))
    ensures toolName in toolMap ==>
              var answer := llm(ExtractionPrompt(query, Describe(toolMap[toolName])));
              answer.Returned? ==> r == Returned(RunTool(toolMap[toolName], Strip(answer.value)))
  {
    if toolName !in toolMap then Returned(Apology)
    else
      var tool := toolMap[toolName];
      match llm(ExtractionPrompt(query, Describe(tool)))
      case Raised(e) => Raised(e)
      case Returned(reply) => Returned(RunTool(tool, Strip(reply)))
  }

  /** `history[-n:]`. */
  function LastTurns(h: seq<Turn>, n: nat): (r: seq<Turn>)
    ensures |r| == if |h| < n then |h| else n
    ensures r == h[|h| - |r|..]
  {
    if |h| <= n then h else h[|h| - n..]
  }

  /** `f"{msg['role']}: {msg['content']}"`. */
  function RenderTurn(t: Turn): string {
    RoleName(t.role) + ": " + t.content
  }

  function RenderTurns(turns: seq<Turn>): (r: seq<string>)
    ensures |r| == |turns|
    ensures forall i :: 0 <= i < |turns| ==> r[i] == RenderTurn(turns[i])
  {
    seq(|turns|, i requires 0 <= i < |turns| => RenderTurn(turns[i]))
  }

  /** The last `n` turns, rendered and joined by newlines: empty exactly when
      there is no turn to show. */
  function Context(h: seq<Turn>, n: nat): (r: string)
    ensures r == [] <==> h == [] || n == 0
  {
    var turns := LastTurns(h, n);
    assert turns != [] ==> |RenderTurn(turns[0])| >= 2;
    Join("\n", RenderTurns(turns))
  }

  /** The window general chat sees. */
  const ContextSize := 4

  /** The context of `_handle_general_chat`. */
  function RecentContext(h: seq<Turn>): (r: string)
    ensures r == [] <==> h == []
  {
    Context(h, ContextSize)
  }

  /** Appending a turn slides the window: the context of `n + 1` turns after
      appending `t` is the context of the last `n` turns before, then `t`'s line. */
  lemma ContextSlides(h: seq<Turn>, t: Turn, n: nat)
    ensures Context(h + [t], n + 1) ==
              if h == [] || n == 0 then RenderTurn(t) else Context(h, n) + "\n" + RenderTurn(t)
  {
    var w := LastTurns(h, n);
    assert LastTurns(h + [t], n + 1) == w + [t];
    assert RenderTurns(w + [t]) == RenderTurns(w) + [RenderTurn(t)];
    JoinSnoc("\n", RenderTurns(w), RenderTurn(t));
  }

  /** General chat sees the user turn just appended as the last context line,
      after at most three earlier turns. */
  lemma ContextEndsWithMessage(h: seq<Turn>, message: string)
    ensures RecentContext(h + [Turn(User, message)]) ==
              if h == [] then RenderTurn(Turn(User, message))
              else Context(h, 3) + "\n" + RenderTurn(Turn(User, message))
  {
    ContextSlides(h, Turn(User, message), 3);
  }

  /** Turns older than the last four never reach the context. */
  lemma ContextIgnoresOlderTurns(older: seq<Turn>, h: seq<Turn>)
    requires |h| >= ContextSize
    ensures RecentContext(older + h) == RecentContext(h)
  {
    assert LastTurns(older + h, ContextSize) == LastTurns(h, ContextSize);
  }

  /** `_handle_general_chat`: the model's raw reply to the recent context and
      the message, which depends on the last four turns only. */
  function GeneralChatReply(llm: LanguageModel, h: seq<Turn>, message: string): (r: Outcome<string>)
    ensures r == llm(ChatPrompt(RecentContext(LastTurns(h, ContextSize)), message))
  {
    assert LastTurns(LastTurns(h, ContextSize), ContextSize) == LastTurns(h, ContextSize);
    llm(ChatPrompt(RecentContext(h), message))
  }

  /** The reply `process_message` computes from the history that already holds
      the user turn. A tool's exception never escapes: every exception comes
      from one of the three model calls. */
  function Respond(llm: LanguageModel, tools: seq<Tool>, toolMap: map<string, Tool>, h: seq<Turn>, message: string)
    : (r: Outcome<string>)
    ensures RouteQuery(llm, tools, toolMap, message).Raised? ==> r == RouteQuery(llm, tools, toolMap, message)
    ensures RouteQuery(llm, tools, toolMap, message) == Returned(GeneralChat) ==> r == GeneralChatReply(llm, h, message)
    ensures RouteQuery(llm, tools, toolMap, message).Returned? && RouteQuery(llm, tools, toolMap, message).value != GeneralChat ==>
              r == ExecuteTool(llm, toolMap, RouteQuery(llm, tools, toolMap, message).value, message)
    ensures r.Raised? ==>
              r == llm(RoutingPrompt(message, ToolListing(tools)))
              || r == llm(ChatPrompt(RecentContext(h), message))
              || (RouteQuery(llm, tools, toolMap, message).Returned?
                  && RouteQuery(llm, tools, toolMap, message).value in toolMap
                  && r == llm(ExtractionPrompt(message, Describe(toolMap[RouteQuery(llm, tools, toolMap, message).value]))))
  {
    match RouteQuery(llm, tools, toolMap, message)
    case Raised(e) => Raised(e)
    case Returned(toolName) =>
      if toolName == GeneralChat then GeneralChatReply(llm, h, message)
      else ExecuteTool(llm, toolMap, toolName, message)
  }

  /** `ConversationRouter` of the model-assisted router. */
  class ConversationRouter {
    const llm: LanguageModel
    /** The tool list and `tool_map` of the router's `QueryRouter`. */
    const tools: seq<Tool>
    const toolMap: map<string, Tool>
    var history: seq<Turn>

    constructor(llm: LanguageModel, tools: seq<Tool>)
      ensures this.llm == llm && this.tools == tools && toolMap == ToolMapOf(tools) && history == []
    {
      this.llm := llm;
      this.tools := tools;
      var m := BuildToolMap(tools);
      toolMap := m;
      history := [];
    }

    /** `process_message`: records the user turn, then the assistant's answer;
        a model call that raises leaves only the user turn recorded. */
    method ProcessMessage(message: string) returns (r: Outcome<string>)
      modifies this
      ensures r == Respond(llm, tools, toolMap, old(history) + [Turn(User, message)], message)
      ensures history == old(history) + [Turn(User, message)]
                         + (if r.Returned? then [Turn(Assistant, r.value)] else [])
      ensures WellFormed(old(history)) ==> WellFormed(history)
      ensures Paired(old(history)) && r.Returned? ==> Paired(history)
    {
      ghost var before := history;
      history := history + [Turn(User, message)];
      var routed := RouteQuery(llm, tools, toolMap, message);
      if routed.Raised? {
        r := routed;
      } else if routed.value == GeneralChat {
        r := GeneralChatReply(llm, history, message);
      } else {
        r := ExecuteTool(llm, toolMap, routed.value, message);
      }
      assert r == Respond(llm, tools, toolMap, history, message);
      if r.Returned? {
        history := history + [Turn(Assistant, r.value)];
        if WellFormed(before) { ExchangeKeepsWellFormed(before, message, [Turn(Assistant, r.value)]); }
        if Paired(before) { ExchangeKeepsPaired(before, message, r.value); }
      } else {
        if WellFormed(before) { ExchangeKeepsWellFormed(before, message, []); }
      }
    }
  }
}
