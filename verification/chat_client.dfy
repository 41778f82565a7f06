/**
 * The decision logic of the command-line MCP chat client, separated from its
 * console, network and logging: reading the server configuration, listing the
 * tools in the agent's prompt, naming a tool's arguments, classifying what
 * the user typed, and choosing the reply to show.
 */
module ChatClient {
  import opened Wrappers
  import opened Text
  import opened Json

  // ---------------------------------------------------------------- configuration

  datatype ConfigError = NotAnObject | ServersNotAnObject

  /**
   * `data.get("mcpServers", {})` on the parsed configuration file, followed
   * by the log line that evaluates `len(servers)` and `servers.keys()` when
   * the servers are truthy. A top-level value that is not an object has no
   * `.get` and fails; a truthy "mcpServers" value that is not an object fails
   * in that log line; a falsy one is returned as it is.
   */
  function ServersFromConfig(data: Json): (r: Result<Json, ConfigError>)
    requires data.JObject? ==> DistinctKeys(data.members)
    ensures r == Failure(NotAnObject) <==> !data.JObject?
    ensures r == Failure(ServersNotAnObject) <==>
              data.JObject? && Lookup(data.members, "mcpServers").Some?
              && Truthy(Lookup(data.members, "mcpServers").value) && !Lookup(data.members, "mcpServers").value.JObject?
    ensures r.Success? ==> Lookup(data.members, "mcpServers").Some? ==> r.value == Lookup(data.members, "mcpServers").value
    ensures r.Success? ==> Lookup(data.members, "mcpServers").None? ==> r.value == JObject([])
    ensures r.Success? ==> r.value.JObject? || !Truthy(r.value)
  {
    match data
    case JObject(members) =>
      var servers := Lookup(members, "mcpServers").GetOr(JObject([]));
      if Truthy(servers) && !servers.JObject? then Failure(ServersNotAnObject) else Success(servers)
    case _ => Failure(NotAnObject)
  }

  /** A configuration without the "mcpServers" key leaves the client with no servers, so it stops. */
  lemma MissingServersIsEmpty(members: seq<(string, Json)>)
    requires DistinctKeys(members)
    requires forall i :: 0 <= i < |members| ==> members[i].0 != "mcpServers"
    ensures ServersFromConfig(JObject(members)) == Success(JObject([]))
    ensures !Truthy(ServersFromConfig(JObject(members)).value)
  {
  }

  // ---------------------------------------------------------------- tools as the client sees them

  /**
   * A tool's `args_schema` attribute: missing or falsy, present without a
   * `.schema()` method (it then counts as `{}`), or the dict `.schema()` gives.
   */
  datatype SchemaAttr = NoSchema | WithoutSchemaMethod | Schema(doc: Json)

  /** A discovered tool; a `None` name or description is a missing attribute. */
  datatype ToolInfo = ToolInfo(name: Option<string>, description: Option<string>, argsSchema: SchemaAttr)

  /** The schema dict, and its "properties" dict when it has one, have distinct keys. */
  predicate WellFormedSchema(tool: ToolInfo) {
    match tool.argsSchema
    case Schema(JObject(members)) =>
      DistinctKeys(members) && (Lookup(members, "properties").Some? && Lookup(members, "properties").value.JObject? ==>
                                DistinctKeys(Lookup(members, "properties").value.members))
    case _ => true
  }

  /** The properties object of a tool's schema, when its schema has one. */
  function Properties(tool: ToolInfo): (props: Option<seq<(string, Json)>>)
    requires WellFormedSchema(tool)
    ensures props.Some? ==> DistinctKeys(props.value)
    ensures props.Some? <==> tool.argsSchema.Schema? && tool.argsSchema.doc.JObject?
                             && Lookup(tool.argsSchema.doc.members, "properties").Some?
                             && Lookup(tool.argsSchema.doc.members, "properties").value.JObject?
    ensures props.Some? ==> props.value == Lookup(tool.argsSchema.doc.members, "properties").value.members
  {
    match tool.argsSchema
    case Schema(JObject(members)) =>
      (match Lookup(members, "properties")
       case Some(JObject(props)) => Some(props)
       case _ => None)
    case _ => None
  }

  /**
   * The argument names `print_tool_info` lists: the keys of the schema's
   * "properties", in order. A schema that is not a dict, or properties that
   * are not one, raise inside the `try` and yield no names.
   */
  function ArgNames(tool: ToolInfo): (names: seq<string>)
    requires WellFormedSchema(tool)
    ensures Properties(tool).None? ==> names == []
    ensures Properties(tool).Some? ==> |names| == |Properties(tool).value|
    ensures Properties(tool).Some? ==> forall i :: 0 <= i < |names| ==> names[i] == Properties(tool).value[i].0
    ensures forall i, j :: 0 <= i < j < |names| ==> names[i] != names[j]
  {
    match Properties(tool)
    case Some(props) => Keys(props)
    case None => []
  }

  /** The "参数: a, b" line, printed only when there is at least one argument name. */
  function ArgsLine(tool: ToolInfo): (line: Option<string>)
    requires WellFormedSchema(tool)
    ensures line.Some? <==> ArgNames(tool) != []
    ensures line.Some? ==> line.value == "参数: " + Join(ArgNames(tool), ", ")
  {
    var names := ArgNames(tool);
    if names == [] then None else Some("参数: " + Join(names, ", "))
  }

  /** A schema dict carrying one property yields exactly that argument name. */
  lemma OneArgument(name: string, spec: Json, rest: seq<(string, Json)>)
    requires DistinctKeys([("properties", JObject([(name, spec)]))] + rest)
    ensures ArgNames(ToolInfo(None, None, Schema(JObject([("properties", JObject([(name, spec)]))] + rest)))) == [name]
    ensures ArgsLine(ToolInfo(None, None, Schema(JObject([("properties", JObject([(name, spec)]))] + rest)))) == Some("参数: " + name)
  {
    var props := [(name, spec)];
    assert Keys(props) == [name];
  }

  /** Every argument name appears in the "参数: …" line. */
  lemma ArgNamesInLine(tool: ToolInfo, k: nat)
    requires WellFormedSchema(tool)
    requires k < |ArgNames(tool)|
    ensures ArgsLine(tool).Some?
    ensures exists o :: OccursAt(ArgsLine(tool).value, ArgNames(tool)[k], o)
  {
    var names := ArgNames(tool);
    var joined := Join(names, ", ");
    JoinContains(names, ", ", k);
    var o: nat :| OccursAt(joined, names[k], o);
    var line := "参数: " + joined;
    var at := |"参数: "| + o;
    assert ArgsLine(tool).value == line;
    assert line[at..at + |names[k]|] == joined[o..o + |names[k]|];
    assert OccursAt(line, names[k], at);
  }

  // ---------------------------------------------------------------- the tool list in the prompt

  /** At most this many tools are listed in the agent's prompt. */
  const MaxListed := 10

  /** `f"{i}. {tool_name} - {tool_desc}"`, with the fallbacks for missing attributes. */
  function ToolLine(i: nat, tool: ToolInfo): string {
    var name := tool.name.GetOr("tool_" + NatToString(i));
    var desc := tool.description.GetOr("无描述");
    NatToString(i) + (". " + name + " - " + desc)
  }

  /** `f"... 还有 {n} 个工具"`. */
  function OverflowLine(n: nat): string {
    "... 还有 " + NatToString(n) + " 个工具"
  }

  /** The number a tool line starts with is the tool's position. */
  lemma ToolLineNumber(i: nat, tool: ToolInfo)
    ensures LeadingNumber(ToolLine(i, tool)) == Some(i)
  {
    var rest := ". " + tool.name.GetOr("tool_" + NatToString(i)) + " - " + tool.description.GetOr("无描述");
    NumberedLine(i, rest);
  }

  /**
   * Builds `tool_descriptions`: a numbered line for each of the first ten
   * tools, then one line counting the rest when there are more than ten.
   */
  method DescribeTools(tools: seq<ToolInfo>) returns (lines: seq<string>)
    ensures |lines| == (if |tools| > MaxListed then MaxListed + 1 else |tools|)
    ensures forall i :: 0 <= i < |tools| && i < MaxListed ==> lines[i] == ToolLine(i + 1, tools[i])
    ensures forall i :: 0 <= i < |tools| && i < MaxListed ==> LeadingNumber(lines[i]) == Some(i + 1)
    ensures |tools| > MaxListed ==> lines[MaxListed] == OverflowLine(|tools| - MaxListed)
  {
    var shown := if |tools| < MaxListed then tools else tools[..MaxListed];
    lines := [];
    var i := 0;
    while i < |shown|
      invariant 0 <= i <= |shown|
      invariant |lines| == i
      invariant forall j :: 0 <= j < i ==> lines[j] == ToolLine(j + 1, shown[j])
    {
      lines := lines + [ToolLine(i + 1, shown[i])];
      i := i + 1;
    }
    forall j | 0 <= j < i
      ensures LeadingNumber(lines[j]) == Some(j + 1)
    {
      ToolLineNumber(j + 1, shown[j]);
    }
    if |tools| > MaxListed {
      lines := lines + [OverflowLine(|tools| - MaxListed)];
    }
  }

  // ---------------------------------------------------------------- what the user typed

  datatype Command = Skip | Exit | ListTools | Help | Ask(question: string)

  /**
   * One pass of the input loop: the line is stripped; an empty line is
   * skipped; "quit", "exit", "q", "tools" and "help" are commands in any
   * case; anything else goes to the agent as typed (stripped, not lowered).
   */
  function Classify(line: string): (c: Command)
    ensures c == Skip <==> Strip(line) == []
    ensures c == Exit <==> Lower(Strip(line)) in {"quit", "exit", "q"}
    ensures c == ListTools <==> Lower(Strip(line)) == "tools"
    ensures c == Help <==> Lower(Strip(line)) == "help"
    ensures c.Ask? ==> c.question == Strip(line) != []
  {
    var input := Strip(line);
    if input == [] then Skip
    else if Lower(input) in {"quit", "exit", "q"} then Exit
    else if Lower(input) == "tools" then ListTools
    else if Lower(input) == "help" then Help
    else Ask(input)
  }

  /** Surrounding whitespace never changes the command. */
  lemma ClassifyStripped(line: string)
    ensures Classify(Strip(line)) == Classify(line)
  {
    StripIdempotent(line);
  }

  /** The questions the loop sends to the agent: every non-command line up to the first exit. */
  function Questions(inputs: seq<string>): seq<string> {
    if inputs == [] then []
    else match Classify(inputs[0])
      case Exit => []
      case Ask(q) => [q] + Questions(inputs[1..])
      case _ => Questions(inputs[1..])
  }

  /** A line the loop would send to the agent exactly as it is. */
  predicate Settled(q: string) {
    q != [] && Classify(q) == Ask(q)
  }

  /** A question re-classifies as itself. */
  lemma AskIsStable(line: string)
    requires Classify(line).Ask?
    ensures Settled(Classify(line).question)
  {
    ClassifyStripped(line);
  }

  /** Everything sent to the agent is non-empty, already stripped, and not a command. */
  lemma {:induction false} QuestionsAreQueries(inputs: seq<string>)
    ensures forall q :: q in Questions(inputs) ==> Settled(q)
  {
    if inputs != [] {
      var tail := Questions(inputs[1..]);
      QuestionsAreQueries(inputs[1..]);
      var c := Classify(inputs[0]);
      if c.Ask? {
        AskIsStable(inputs[0]);
        assert Questions(inputs) == [c.question] + tail;
      } else if c != Exit {
        assert Questions(inputs) == tail;
      }
    }
  }

  /** Nothing typed after an exit command reaches the agent. */
  lemma {:induction false} QuestionsStopAtExit(inputs: seq<string>, k: nat)
    requires k < |inputs| && Classify(inputs[k]) == Exit
    ensures Questions(inputs) == Questions(inputs[..k])
  {
    if k > 0 {
      assert inputs[1..][..k - 1] == inputs[..k][1..];
      QuestionsStopAtExit(inputs[1..], k - 1);
    }
  }

  /** One step of `Questions`: what the first line contributes, then the rest. */
  lemma QuestionsStep(inputs: seq<string>, i: nat)
    requires i < |inputs|
    ensures Classify(inputs[i]) == Exit ==> Questions(inputs[i..]) == []
    ensures Classify(inputs[i]).Ask? ==> Questions(inputs[i..]) == [Classify(inputs[i]).question] + Questions(inputs[i + 1..])
    ensures Classify(inputs[i]) != Exit && !Classify(inputs[i]).Ask? ==> Questions(inputs[i..]) == Questions(inputs[i + 1..])
  {
    assert inputs[i..][0] == inputs[i];
    assert inputs[i..][1..] == inputs[i + 1..];
  }

  /**
   * The loop invariant after one more line, stated on sequences alone: `rest`
   * is what the remaining lines will ask and `tail` what the lines after the
   * current one will ask.
   */
  lemma LoopStep(asked: seq<string>, rest: seq<string>, tail: seq<string>, command: Command, total: seq<string>)
    requires asked + rest == total
    requires command == Exit ==> rest == []
    requires command.Ask? ==> rest == [command.question] + tail
    requires command != Exit && !command.Ask? ==> rest == tail
    ensures command == Exit ==> asked == total
    ensures command.Ask? ==> (asked + [command.question]) + tail == total
    ensures command != Exit && !command.Ask? ==> asked + tail == total
  {
    if command.Ask? {
      assert (asked + [command.question]) + tail == asked + ([command.question] + tail);
    }
  }

  /** The `while True` input loop, fed the lines the user types; returns what reached the agent. */
  method ChatLoop(inputs: seq<string>) returns (asked: seq<string>)
    ensures asked == Questions(inputs)
  {
    asked := [];
    var i := 0;
    assert inputs[0..] == inputs;
    while i < |inputs|
      invariant 0 <= i <= |inputs|
      invariant asked + Questions(inputs[i..]) == Questions(inputs)
    {
      var command := Classify(inputs[i]);
      QuestionsStep(inputs, i);
      LoopStep(asked, Questions(inputs[i..]), Questions(inputs[i + 1..]), command, Questions(inputs));
      if command == Exit {
        return;
      }
      if command.Ask? {
        asked := asked + [command.question];
      }
      i := i + 1;
    }
    assert inputs[i..] == [];
  }

  // ---------------------------------------------------------------- the reply shown

  /** A message of the agent's result: its `content` attribute if it has one, and its `str()`. */
  datatype AgentMessage = AgentMessage(content: Option<string>, repr: string)

  /** The agent's result: nothing, or a dict that may hold a "messages" list. */
  datatype AgentResult = NoResult | Output(messages: Option<seq<AgentMessage>>)

  datatype Reply = AiReply(text: string) | NoResponse

  function Shown(m: AgentMessage): string {
    m.content.GetOr(m.repr)
  }

  /** The last message's content when the result has a non-empty "messages" list; otherwise no response. */
  function SelectReply(result: AgentResult): (r: Reply)
    ensures r.AiReply? <==> result.Output? && result.messages.Some? && result.messages.value != []
    ensures r.AiReply? ==> r.text == Shown(result.messages.value[|result.messages.value| - 1])
  {
    match result
    case Output(Some(ms)) => if ms == [] then NoResponse else AiReply(Shown(ms[|ms| - 1]))
    case _ => NoResponse
  }

  /** Only the newest message matters: earlier history never changes the reply. */
  lemma ReplyIsNewest(history: seq<AgentMessage>, last: AgentMessage)
    ensures SelectReply(Output(Some(history + [last]))) == AiReply(Shown(last))
  {
  }
}
