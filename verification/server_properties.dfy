/** Properties of the dispatcher that relate several requests, or the
    dispatcher and the loader. */
module ServerProperties {

  import opened Wrappers
  import opened JsonValue
  import opened Loader
  import opened LoaderProperties
  import opened Protocol
  import opened McpViews
  import opened Server

  /** The `tools/call` params an MCP client sends: a name and arguments. */
  function CallParams(name: string, arguments: Json): Json {
    Object(map["name" := String(name), "arguments" := arguments])
  }

  /** `initialize` is answered the same way for every registry, including an
      empty one, and whatever params come with it. */
  lemma InitializeAlwaysAnswered(r: CommandRegistry, order: seq<string>, id: Option<int>, params: Option<Json>)
    requires IsIterationOrder(r, order)
    ensures HandleRequest(r, order, Request(id, "initialize", params))
              == HandleRequest(New(), [], Request(id, "initialize", None))
    ensures DeclaresTools(HandleRequest(r, order, Request(id, "initialize", params)).result.value)
  {
  }

  /** The four outcomes of `tools/call`, as the client sees them in the response. */
  lemma ToolsCallResponse(r: CommandRegistry, order: seq<string>, id: Option<int>, params: Option<Json>)
    requires IsIterationOrder(r, order)
    ensures var resp := HandleRequest(r, order, Request(id, "tools/call", params));
      && (params.None? ==> resp.error == Some(RpcError(-32603, "Missing params")))
      && (params.Some? && ToolNameOf(params.value).None? ==>
            resp.error == Some(RpcError(-32603, "Missing tool name")))
      && (params.Some? && ToolNameOf(params.value).Some? && Get(r, ToolNameOf(params.value).value).None? ==>
            resp.error == Some(RpcError(-32603, "Unknown tool: " + ToolNameOf(params.value).value)))
      && (params.Some? && ToolNameOf(params.value).Some? && Get(r, ToolNameOf(params.value).value).Some? ==>
            resp.result.Some?
            && ContentText(resp.result.value) == Some(Get(r, ToolNameOf(params.value).value).value.prompt))
  {
  }

  /** Only the `name` field of the params matters: two calls naming the same
      tool get the same response, whatever their `arguments`. */
  lemma ArgumentsIgnored(r: CommandRegistry, order: seq<string>, id: Option<int>, name: string, args1: Json, args2: Json)
    requires IsIterationOrder(r, order)
    ensures HandleRequest(r, order, Request(id, "tools/call", Some(CallParams(name, args1))))
              == HandleRequest(r, order, Request(id, "tools/call", Some(CallParams(name, args2))))
  {
  }

  /** The `i`-th published tool carries the `i`-th registered name. */
  lemma PublishedTool(r: CommandRegistry, order: seq<string>, i: int)
    requires WellKeyed(r) && IsIterationOrder(r, order)
    requires 0 <= i < |order|
    ensures order[i] in r.commands
    ensures DecodeTool(ToolsOf(HandleToolsList(r, order).value).value[i])
              == Some(ToolInfo(order[i], r.commands[order[i]].description))
  {
  }

  /** Every tool `tools/list` publishes can be called by the name it is
      published under, and the call returns the prompt of the command whose
      description was published with it. */
  lemma ListedToolsAreCallable(r: CommandRegistry, order: seq<string>, i: int, id: Option<int>, arguments: Json)
    requires WellKeyed(r) && IsIterationOrder(r, order)
    requires 0 <= i < |order|
    ensures DecodeTool(ToolsOf(HandleToolsList(r, order).value).value[i]).Some?
    ensures var info := DecodeTool(ToolsOf(HandleToolsList(r, order).value).value[i]).value;
            var call := HandleRequest(r, order, Request(id, "tools/call", Some(CallParams(info.name, arguments))));
      && info.name in r.commands
      && r.commands[info.name].description == info.description
      && call.result.Some?
      && ContentText(call.result.value) == Some(r.commands[info.name].prompt)
  {
    PublishedTool(r, order, i);
    CallRegistered(r, order, order[i], id, arguments);
  }

  /** A call naming a registered tool succeeds with that tool's prompt. */
  lemma CallRegistered(r: CommandRegistry, order: seq<string>, name: string, id: Option<int>, arguments: Json)
    requires IsIterationOrder(r, order)
    requires name in r.commands
    ensures HandleRequest(r, order, Request(id, "tools/call", Some(CallParams(name, arguments)))).result.Some?
    ensures ContentText(HandleRequest(r, order, Request(id, "tools/call", Some(CallParams(name, arguments)))).result.value)
              == Some(r.commands[name].prompt)
  {
  }

  /** Loading a directory and then calling a tool: the call succeeds exactly
      when some loaded command has that name, returns the prompt of the last
      such command, and otherwise reports the unknown tool. */
  lemma LoadThenCall(entries: seq<DirEntry>, r: CommandRegistry, order: seq<string>, id: Option<int>, name: string, arguments: Json)
    requires r == LoadFromDir(New(), entries).registry
    requires IsIterationOrder(r, order)
    ensures var call := HandleRequest(r, order, Request(id, "tools/call", Some(CallParams(name, arguments))));
      && (call.result.Some? <==> exists j :: 0 <= j < |Inserted(entries)| && Inserted(entries)[j].name == name)
      && (call.result.Some? ==>
            LastNamed(Inserted(entries), name).Some? &&
            ContentText(call.result.value) == Some(LastNamed(Inserted(entries), name).value.prompt))
      && (call.result.None? ==> call.error == Some(RpcError(-32603, "Unknown tool: " + name)))
  {
    LoadedGet(entries, name);
    assert ToolNameOf(CallParams(name, arguments)) == Some(name);
    ToolsCallResponse(r, order, id, Some(CallParams(name, arguments)));
  }

  /** With nothing registered, `tools/list` publishes no tool and every
      `tools/call` naming a tool reports it unknown. */
  lemma EmptyRegistry(id: Option<int>, name: string, arguments: Json)
    ensures ToolsOf(HandleRequest(New(), [], Request(id, "tools/list", None)).result.value) == Some([])
    ensures HandleRequest(New(), [], Request(id, "tools/call", Some(CallParams(name, arguments)))).error
              == Some(RpcError(-32603, "Unknown tool: " + name))
  {
  }
}
