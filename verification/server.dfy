/** The dispatcher of src/mcp/server.rs: `handle_request` and its three
    handlers, as a total function from a registry and a request to a
    response. The line loop around it (`run`) is not modelled. */
module Server {

  import opened Wrappers
  import opened CommandTypes
  import opened JsonValue
  import opened Loader
  import opened Protocol
  import opened McpViews

  const ProtocolVersion: string := "2024-11-05"
  const ServerName: string := "rapid-mcp-server-rust"
  const ServerVersion: string := "0.1.0"

  /** `handle_initialize`: a fixed answer, whatever is registered. */
  function HandleInitialize(): (res: Result<Json, string>)
    ensures res.Success?
    ensures ProtocolVersionOf(res.value) == Some(ProtocolVersion)
    ensures ServerInfoOf(res.value) == Some(ServerInfo(ServerName, ServerVersion))
    ensures DeclaresTools(res.value)
  {
    var serverInfo := Object(map["name" := String(ServerName), "version" := String(ServerVersion)]);
    Success(Object(map[
      "protocolVersion" := String(ProtocolVersion),
      "capabilities" := Object(map["tools" := Object(map[])]),
      "serverInfo" := serverInfo
    ]))
  }

  /** The descriptor `tools/list` publishes for one command: its name and
      description, and an input schema that is always the empty object schema
      (the command's parameters are not compiled into it). */
  function ToolDescriptor(c: Command): (t: Json)
    ensures DecodeTool(t) == Some(ToolInfo(c.name, c.description))
    ensures HasEmptyObjectSchema(t)
  {
    var schema := Object(map[
      "type" := String("object"),
      "properties" := Object(map[]),
      "required" := Array([])
    ]);
    Object(map[
      "name" := String(c.name),
      "description" := String(c.description),
      "inputSchema" := schema
    ])
  }

  /** `t` is the published descriptor of command `c`, as a client reads it. */
  predicate Describes(t: Json, c: Command) {
    DecodeTool(t) == Some(ToolInfo(c.name, c.description)) && HasEmptyObjectSchema(t)
  }

  /** The descriptors of `cmds`, position by position. */
  function Descriptors(cmds: seq<Command>): (tools: seq<Json>)
    ensures |tools| == |cmds|
    ensures forall i :: 0 <= i < |cmds| ==> Describes(tools[i], cmds[i])
  {
    seq(|cmds|, i requires 0 <= i < |cmds| => ToolDescriptor(cmds[i]))
  }

  /** `handle_tools_list`: one descriptor per registered command, in the
      registry's iteration order, and every registered name described. */
  function HandleToolsList(r: CommandRegistry, order: seq<string>): (res: Result<Json, string>)
    requires IsIterationOrder(r, order)
    ensures res.Success? && ToolsOf(res.value).Some?
    ensures |ToolsOf(res.value).value| == |order| == |r.commands|
    ensures forall i :: 0 <= i < |order| ==>
              Describes(ToolsOf(res.value).value[i], r.commands[order[i]])
    ensures forall k :: k in r.commands ==>
              exists i :: 0 <= i < |ToolsOf(res.value).value| && Describes(ToolsOf(res.value).value[i], r.commands[k])
  {
    var tools := Descriptors(List(r, order));
    DescriptorsComplete(r, order);
    Success(Object(map["tools" := Array(tools)]))
  }

  /** Every registered name has a published descriptor. */
  lemma DescriptorsComplete(r: CommandRegistry, order: seq<string>)
    requires IsIterationOrder(r, order)
    ensures var tools := Descriptors(List(r, order));
      forall k :: k in r.commands ==> exists i :: 0 <= i < |tools| && Describes(tools[i], r.commands[k])
  {
    var tools := Descriptors(List(r, order));
    forall k | k in r.commands
      ensures exists i :: 0 <= i < |tools| && Describes(tools[i], r.commands[k])
    {
      var i :| 0 <= i < |order| && order[i] == k;
      assert Describes(tools[i], r.commands[k]);
    }
  }

  /** `params["name"].as_str()`: the tool name, if `params` is an object whose
      `name` field is a string. */
  function ToolNameOf(params: Json): (name: Option<string>)
    ensures name.Some? <==> params.Object? && "name" in params.fields && params.fields["name"].String?
    ensures name.Some? ==> params.fields["name"] == String(name.value)
  {
    AsStr(Index(params, "name"))
  }

  /** `handle_tools_call`: the registered command's prompt, verbatim, as a
      single text item. `arguments` are never read. */
  function HandleToolsCall(r: CommandRegistry, params: Option<Json>): (res: Result<Json, string>)
    ensures params.None? ==> res == Failure("Missing params")
    ensures params.Some? && ToolNameOf(params.value).None? ==> res == Failure("Missing tool name")
    ensures params.Some? && ToolNameOf(params.value).Some? && ToolNameOf(params.value).value !in r.commands ==>
              res == Failure("Unknown tool: " + ToolNameOf(params.value).value)
    ensures res.Success? <==>
              params.Some? && ToolNameOf(params.value).Some? && ToolNameOf(params.value).value in r.commands
    ensures res.Success? ==> ContentText(res.value) == Some(r.commands[ToolNameOf(params.value).value].prompt)
  {
    match params
    case None => Failure("Missing params")
    case Some(p) =>
      match ToolNameOf(p)
      case None => Failure("Missing tool name")
      case Some(name) =>
        match Get(r, name)
        case None => Failure("Unknown tool: " + name)
        case Some(command) =>
          Success(Object(map["content" := Array([
            Object(map["type" := String("text"), "text" := String(command.prompt)])
          ])]))
  }

  /** The methods the dispatcher answers; every other one is an error. */
  const KnownMethods: set<string> := {"initialize", "tools/list", "tools/call"}

  /** The first half of `handle_request`: route on the method string. */
  function Dispatch(r: CommandRegistry, order: seq<string>, methodName: string, params: Option<Json>): (res: Result<Json, string>)
    requires IsIterationOrder(r, order)
    ensures methodName !in KnownMethods ==> res == Failure("Unknown method: " + methodName)
    ensures methodName in KnownMethods && methodName != "tools/call" ==> res.Success?
  {
    match methodName
    case "initialize" => HandleInitialize()
    case "tools/list" => HandleToolsList(r, order)
    case "tools/call" => HandleToolsCall(r, params)
    case _ => Failure("Unknown method: " + methodName)
  }

  /** `handle_request`: every request, whatever its method, gets exactly one
      response, version "2.0", carrying the request's id. */
  function HandleRequest(r: CommandRegistry, order: seq<string>, req: Request): (resp: Response)
    requires IsIterationOrder(r, order)
    ensures resp.jsonrpc == "2.0" && resp.id == req.id
    ensures resp.result.Some? != resp.error.Some?
    ensures resp.error.Some? ==> resp.error.value.code == -32603
    ensures req.methodName !in KnownMethods ==>
              resp.error == Some(RpcError(-32603, "Unknown method: " + req.methodName))
    ensures req.methodName == "initialize" ==>
              resp.result.Some? && ProtocolVersionOf(resp.result.value) == Some("2024-11-05")
              && ServerInfoOf(resp.result.value) == Some(ServerInfo("rapid-mcp-server-rust", "0.1.0"))
    ensures req.methodName == "tools/list" ==>
              resp.result.Some? && ToolsOf(resp.result.value).Some?
              && |ToolsOf(resp.result.value).value| == |r.commands|
    ensures req.methodName == "tools/list" ==> Outcome(resp) == Some(HandleToolsList(r, order))
    ensures req.methodName == "tools/call" ==> Outcome(resp) == Some(HandleToolsCall(r, req.params))
  {
    Envelope(req.id, Dispatch(r, order, req.methodName, req.params))
  }
}
