/** What both routers share: Python's exceptions as values, the tools and the
    `tool_map` dictionary built from them, the intent labels and the fixed
    replies. */
module Registry {

  /** A Python exception: its class name and `str(e)`. */
  datatype Exception = Exception(kind: string, message: string)

  /** A Python call that either returns a value or raises. */
  datatype Outcome<T> = Returned(value: T) | Raised(error: Exception)

  /** What indexing past the end of a `list` raises. */
  const IndexError := Exception("IndexError", "list index out of range")

  /** A tool: its name, its description and its `_run`, an opaque call that
      returns text or raises. */
  datatype Tool = Tool(name: string, description: string, run: string -> Outcome<string>)

  const WeatherSearch := "weather_search"
  const Calculator := "calculator"
  const NewsSearch := "news_search"
  const GeneralChat := "general_chat"

  /** The reply `execute_tool` gives for a name that is not registered. */
  const Apology := "I'm not sure how to help with that. Could you please rephrase your question?"

  const ToolErrorPrefix := "Error executing tool: "

  /** `{tool.name: tool for tool in tools}`: later tools overwrite earlier ones
      with the same name. */
  ghost function ToolMapOf(tools: seq<Tool>): (m: map<string, Tool>)
    ensures forall name :: name in m ==> m[name].name == name
    decreases |tools|
  {
    if tools == [] then map[]
    else ToolMapOf(tools[..|tools| - 1])[tools[|tools| - 1].name := tools[|tools| - 1]]
  }

  /** `tools[i]` is the last tool in `tools` with its name. */
  ghost predicate LastWithName(tools: seq<Tool>, i: int) {
    0 <= i < |tools| && forall j :: i < j < |tools| ==> tools[j].name != tools[i].name
  }

  /** The dictionary comprehension of `QueryRouter.__init__`, run as a loop. */
  method BuildToolMap(tools: seq<Tool>) returns (m: map<string, Tool>)
    ensures m == ToolMapOf(tools)
  {
    m := map[];
    for i := 0 to |tools|
      invariant m == ToolMapOf(tools[..i])
    {
      assert tools[..i + 1][..i] == tools[..i];
      m := m[tools[i].name := tools[i]];
    }
    assert tools[..|tools|] == tools;
  }

  /** The keys of the map are exactly the names of the tools. */
  lemma {:induction false} ToolMapKeys(tools: seq<Tool>)
    ensures forall name :: name in ToolMapOf(tools) <==> exists i :: 0 <= i < |tools| && tools[i].name == name
    decreases |tools|
  {
    if tools != [] {
      var init := tools[..|tools| - 1];
      ToolMapKeys(init);
      forall name | exists i :: 0 <= i < |tools| && tools[i].name == name
        ensures name in ToolMapOf(tools)
      {
        var i :| 0 <= i < |tools| && tools[i].name == name;
        if i < |tools| - 1 {
          assert init[i].name == name;
        }
      }
      forall name | name in ToolMapOf(init)
        ensures exists i :: 0 <= i < |tools| && tools[i].name == name
      {
        var i :| 0 <= i < |init| && init[i].name == name;
        assert tools[i].name == name;
      }
    }
  }

  /** Each name maps to the last tool that carries it. */
  lemma {:induction false} ToolMapLastWins(tools: seq<Tool>)
    ensures forall i :: LastWithName(tools, i) ==> tools[i].name in ToolMapOf(tools) && ToolMapOf(tools)[tools[i].name] == tools[i]
    decreases |tools|
  {
    if tools != [] {
      var init := tools[..|tools| - 1];
      ToolMapLastWins(init);
      forall i | LastWithName(tools, i) && i < |tools| - 1
        ensures LastWithName(init, i)
      {
      }
    }
  }

  /** `try: return tool._run(arg) except Exception as e: return f"Error executing tool: {e}"`:
      a tool's exception never escapes; it becomes text. */
  function RunTool(tool: Tool, arg: string): (r: string)
    ensures tool.run(arg).Returned? ==> r == tool.run(arg).value
    ensures tool.run(arg).Raised? ==> r == ToolErrorPrefix + tool.run(arg).error.message
  {
    match tool.run(arg)
    case Returned(text) => text
    case Raised(e) => ToolErrorPrefix + e.message
  }
}
