/** `tools.go`: the tools the model sees, and the schema its finish call is checked against. */
module Tools {
  import opened Wrappers
  import opened JsonValues
  import opened Messages
  import opened Validate
  import opened Keywords
  import opened Events
  import opened Grammar

  datatype ToolSpec = ToolSpec(name: string, parameters: Schema)

  /** The schema of the output alone: the configured one, or a string when none is set. */
  function OutputSchema(configured: Option<Schema>): Schema {
    if configured.Some? then configured.value else OfType(TString)
  }

  /** `builtinTools`: the arguments of finish are an object with just the output in it. */
  function FinishSchema(configured: Option<Schema>): Schema {
    OfType(TObject).(
      properties := map["output" := Some(OutputSchema(configured))],
      required := ["output"],
      additional := Some(Bool(false)))
  }

  /** The wrapper accepts exactly the one-member objects whose output the inner schema accepts. */
  lemma FinishSchemaAccepts(configured: Option<Schema>, v: Json)
    ensures Accepts(FinishSchema(configured), v) <==>
              && v.Obj? && v.members.Keys == {"output"}
              && Accepts(OutputSchema(configured), v.members["output"])
    ensures configured.None? && Accepts(FinishSchema(configured), v) ==> v.members["output"].Str?
  {
    var s := FinishSchema(configured);
    assert "output" in s.required;
    if v.Obj? && v.members.Keys == {"output"} {
      assert forall name | name in v.members :: name == "output";
    }
  }

  /** What unmarshalling the arguments of finish gives: an error, no output, or its raw text decoded. */
  datatype FinishArguments = Unreadable | Missing | Given(output: Option<Json>)

  function Unmarshalled(v: Json): FinishArguments {
    match v
    case Obj(members) => if "output" in members then Given(Some(members["output"])) else Missing
    case Null => Missing
    case _ => Unreadable
  }

  /** finish takes this output: anything at all without a schema, otherwise what the schema accepts. */
  ghost predicate Takes(configured: Option<Schema>, given: FinishArguments) {
    && !given.Unreadable?
    && (configured.Some? ==>
          given.Given? && given.output.Some? && Accepts(configured.value, given.output.value))
  }

  /** `builtinTools`. */
  function BuiltinTools(configured: Option<Schema>): seq<ToolSpec> {
    [ ToolSpec("shell", OfType(TObject).(
        properties := map["command" := Some(OfType(TString))],
        required := ["command"],
        additional := Some(Bool(false)))),
      ToolSpec("tool_list", OfType(TObject)),
      ToolSpec("finish", FinishSchema(configured)) ]
  }

  /** The first tool of that name. */
  function Find(tools: seq<ToolSpec>, name: string): Option<ToolSpec> {
    if tools == [] then None
    else if tools[0].name == name then Some(tools[0])
    else Find(tools[1..], name)
  }

  /** `findTool`. */
  method FindTool(tools: seq<ToolSpec>, name: string) returns (tool: Option<ToolSpec>)
    ensures tool == Find(tools, name)
    ensures tool.Some? ==> exists i | 0 <= i < |tools| ::
              tools[i] == tool.value && tools[i].name == name && forall j | 0 <= j < i :: tools[j].name != name
    ensures tool.None? ==> forall i | 0 <= i < |tools| :: tools[i].name != name
  {
    for i := 0 to |tools|
      invariant forall j | 0 <= j < i :: tools[j].name != name
      invariant Find(tools, name) == Find(tools[i..], name)
    {
      if tools[i].name == name {
        return Some(tools[i]);
      }
      assert tools[i..][1..] == tools[i + 1..];
    }
    return None;
  }

  /** The tools of a run and the way its texts decode. */
  datatype Toolbox = Toolbox(configured: Option<Schema>, codec: Codec) {
    function Tools(): seq<ToolSpec> {
      BuiltinTools(configured)
    }
  }

  /** Validation decides what becomes of a call. */
  ghost function Judge(tb: Toolbox, tc: ToolCall): Verdict {
    match Find(tb.Tools(), tc.name)
    case None => Unknown
    case Some(tool) =>
      if Passes(Some(tool.parameters), tb.codec.Decode(tc.arguments)) then Runnable else Rejected
  }

  ghost function RulesOf(tb: Toolbox): Rules {
    Rules(tc => Judge(tb, tc), tb.codec, "finish")
  }

  /** A call is to an unknown tool exactly if its name is none of the three. */
  lemma UnknownTools(tb: Toolbox, tc: ToolCall)
    ensures Judge(tb, tc) == Unknown <==> tc.name != "shell" && tc.name != "tool_list" && tc.name != "finish"
  {
    FindAmongTools(tb, tc.name);
  }

  lemma FindAmongTools(tb: Toolbox, name: string)
    ensures var tools := BuiltinTools(tb.configured);
            Find(tools, name) ==
              if name == "shell" then Some(tools[0])
              else if name == "tool_list" then Some(tools[1])
              else if name == "finish" then Some(tools[2])
              else None
  {
    var tools := BuiltinTools(tb.configured);
    assert tools[1..][1..] == [tools[2]] && [tools[2]][1..] == [];
    assert Find(tools[1..], name) == if tools[1].name == name then Some(tools[1]) else Find(tools[1..][1..], name);
    assert Find([tools[2]], name) == if tools[2].name == name then Some(tools[2]) else Find([], name);
  }

  /** A shell call runs exactly when its arguments are an object with just a command line in it. */
  lemma ShellRunsOnCommands(tb: Toolbox, tc: ToolCall)
    requires tc.name == "shell"
    ensures Judge(tb, tc) == Runnable <==>
              && tb.codec.parse(tc.arguments).Parsed?
              && var v := tb.codec.parse(tc.arguments).value;
                 v.Obj? && v.members.Keys == {"command"} && v.members["command"].Str?
  {
    hide Accepts, Find;
    FindAmongTools(tb, "shell");
    if tb.codec.Decode(tc.arguments).Some? {
      ShellSchemaAccepts(tb, tb.codec.Decode(tc.arguments).value);
    }
  }

  lemma ShellSchemaAccepts(tb: Toolbox, v: Json)
    ensures Accepts(BuiltinTools(tb.configured)[0].parameters, v) <==>
              v.Obj? && v.members.Keys == {"command"} && v.members["command"].Str?
  {
    var s := BuiltinTools(tb.configured)[0].parameters;
    var open := OfType(TObject).(properties := map["command" := Some(OfType(TString))]);
    AdditionalIsExact(open.(required := ["command"]), v, Bool(false));
    assert [] + ["command"] == ["command"];
    RequiredIsExact(open, v, "command");
    PropertyIsExact(OfType(TObject), v, "command", OfType(TString));
    assert map[]["command" := Some(OfType(TString))] == map["command" := Some(OfType(TString))];
    PlainTypes(v, "");
    if v.Obj? && "command" in v.members {
      PlainTypes(v.members["command"], "");
    }
    assert s == open.(required := ["command"], additional := Some(Bool(false)));
  }

  /** A call of tool_list runs exactly when its arguments are an object, whatever is in it. */
  lemma ToolListRunsOnObjects(tb: Toolbox, tc: ToolCall)
    requires tc.name == "tool_list"
    ensures Judge(tb, tc) == Runnable <==>
              tb.codec.parse(tc.arguments).Parsed? && tb.codec.parse(tc.arguments).value.Obj?
  {
    hide Accepts, Find;
    FindAmongTools(tb, "tool_list");
    if tb.codec.Decode(tc.arguments).Some? {
      PlainTypes(tb.codec.Decode(tc.arguments).value, "");
    }
  }

  /** A finish call runs exactly when its arguments are an output the schema accepts, and nothing else. */
  lemma FinishRunsOnAcceptedOutput(tb: Toolbox, tc: ToolCall)
    requires tc.name == "finish"
    ensures Judge(tb, tc) == Runnable <==>
              && tb.codec.parse(tc.arguments).Parsed?
              && var v := tb.codec.parse(tc.arguments).value;
                 && v.Obj? && v.members.Keys == {"output"}
                 && Accepts(OutputSchema(tb.configured), v.members["output"])
  {
    var tools := tb.Tools();
    assert tools[1..][1..] == [tools[2]];
    assert Find(tools, "finish") == Find(tools[1..], "finish") == Find(tools[1..][1..], "finish") == Some(tools[2]);
    if tb.codec.Decode(tc.arguments).Some? {
      FinishSchemaAccepts(tb.configured, tb.codec.Decode(tc.arguments).value);
    }
  }
}
