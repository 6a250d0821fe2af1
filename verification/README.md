# rapid-mcp-server-rust, modelled in Dafny

This project models the two pure pieces of an MCP (Model Context Protocol)
server that publishes YAML-defined prompt commands as tools:

- the **command registry** (`CommandRegistry` in `src/command/loader.rs`): a map
  from command name to command. A directory scan fills it. Only files with the
  exact extension `yaml` are inserted, and a later command silently replaces an
  earlier one with the same name;
- the **JSON-RPC dispatcher** (`handle_request` and its three handlers in
  `src/mcp/server.rs`): a total function from a registry and a request to a
  response envelope. It routes on the method string and folds every failure
  into one error shape with code -32603.

Files and modules:

| file | module | models |
|---|---|---|
| `wrappers.dfy` | `Wrappers` | `Option`, `Result` |
| `command_types.dfy` | `CommandTypes` | `Command`, `Parameter` of `src/command/types.rs` |
| `loader.dfy` | `Loader` | `new`, `get`, `list`, the insert and extension filter of `load_from_dir` |
| `loader_properties.dfy` | `LoaderProperties` | what a loaded registry holds, against an independent "last command with this name" definition |
| `json.dfy` | `JsonValue` | the JSON values the server reads and builds |
| `protocol.dfy` | `Protocol` | request and response envelopes |
| `mcp_views.dfy` | `McpViews` | how a client reads the result objects (used to state the contracts) |
| `server.dfy` | `Server` | `handle_request`, `handle_initialize`, `handle_tools_list`, `handle_tools_call` |
| `server_properties.dfy` | `ServerProperties` | properties that span several requests, or the loader and the dispatcher |

Modelling decisions:

- The directory scan is a sequence of `DirEntry` values. An entry is either
  `Unlisted(reason)`, where the directory iterator failed, or
  `File(extension, parsed)`. `parsed` is what reading and YAML-parsing the file
  would give. The loader reads it only when the extension is exactly `yaml`.
  A failure stops the scan with an error. Commands inserted before the failure
  stay registered, as they do in the mutated `self`. The entries come in
  `fs::read_dir` order, which the platform chooses. "The last one loaded"
  therefore means the last one in that order.
- `HashMap::values()` visits each key once, in an order the hash table chooses.
  `List`, `HandleToolsList`, `Dispatch` and `HandleRequest` take that order as a
  parameter `order`. `IsIterationOrder` constrains it to be any duplicate-free
  enumeration of the registered names. This is the only precondition of the
  dispatcher, and it does not exclude any request.
- Results are described by reading them back with the client-side decoders in
  `McpViews` (`ToolsOf`, `DecodeTool`, `ContentText`, ...), not by restating
  the `json!` literals.
- The request and response structs are declared in `src/mcp/types.rs`, which
  is not part of this model. Only the fields the server uses appear. The id is
  copied and never inspected, so it is modelled as an optional integer. The
  `method` field is called `methodName`, because `method` is a Dafny keyword.
- `JsonValue.Index` and `JsonValue.AsStr` stand in for the `serde_json` library
  calls `value["key"]` and `as_str()`. They model the library, not this
  repository, so they have no row below.

Behaviour a JSON-RPC/MCP reader might expect that the code does not have:

- `handle_request` has no special case for notifications. A request whose
  method is `notifications/initialized` is not a known method, so it gets an
  error response `"Unknown method: notifications/initialized"`. Whether a
  line without an `id` reaches `handle_request` at all depends on the type
  of `id`, which is not part of this model.
- Every error uses code -32603. The codes -32601 and -32602 are never used.
- Duplicate command names are not rejected: the last one loaded wins. When two
  `.yaml` files declare the same name, that means the last in `fs::read_dir`
  order, which the platform chooses. The program does not specify which one
  wins.
- There is no parameter validator and no template renderer. `tools/call`
  returns the prompt text verbatim and ignores `arguments`.
- Parameters are not compiled into a schema. `inputSchema` is always
  `{type: "object", properties: {}, required: []}`.
- `tools/list` follows hash-map order, not load order.

## Model

| member | source | states |
|---|---|---|
| Loader.New | src/command/loader.rs:13-17 | a new registry is empty: `get` finds nothing under any name |
| Loader.Get | src/command/loader.rs:43-45 | lookup is exact-match: it finds a command exactly when its name is a key, and in a well-keyed registry the command found carries the name it was looked up by |
| Loader.Insert | src/command/loader.rs:36 | after inserting, `get` of the command's name returns it (a previous entry with that name is overwritten); every other name is unaffected; the key set grows by exactly that name |
| Loader.List | src/command/loader.rs:47-49 | `list` has one entry per registered name; every listed command is registered, every registered command is listed, and in a well-keyed registry each listed command is found by `get` under its own name |
| Loader.LoadEntry | src/command/loader.rs:25-37 | one scan step fails exactly when the entry cannot be listed or is a `yaml` file that does not parse; a non-`yaml` file leaves the registry unchanged; a parsed `yaml` file is inserted |
| LoaderProperties.NewIsEmpty | src/command/loader.rs:13-17 | `list` of a new registry is empty |
| LoaderProperties.LoadGet | src/command/loader.rs:19-45 | after loading on top of a registry, `get(n)` returns the last loaded command named `n`, and otherwise what the registry held before |
| LoaderProperties.LoadedGet | src/command/loader.rs:19-45 | after loading into a new registry, `get(n)` is the last loaded command named `n`; it is none exactly when no loaded command has the exact name `n` |
| Loader.LoadFromDir | src/command/loader.rs:19-41 | a load only adds names and never removes one; it keeps every command stored under its own `name`; a scan that meets only files whose extension is not exactly `yaml` leaves the registry unchanged and succeeds |
| LoaderProperties.LoadKeys | src/command/loader.rs:28-36 | the registered names after a load are the earlier ones plus the names of the loaded commands |
| LoaderProperties.NamesBound | src/command/loader.rs:36 | a sequence of commands has at most as many distinct names as commands, which bounds the registry size |
| LoaderProperties.LoadedList | src/command/loader.rs:36-49 | after loading into a new registry, `list` has one entry per distinct loaded name, so at most as many entries as commands loaded, and every listed command is returned by `get` under its own name |
| LoaderProperties.LoadError | src/command/loader.rs:22-33 | the scan succeeds exactly when no entry aborts it; otherwise the reported error is the reason of the first entry that aborts |
| LoaderProperties.NonYamlIgnored | src/command/loader.rs:28 | a file whose extension is not exactly `yaml` (e.g. `yml`, `YAML`, none) can be removed from the scan without changing the registry or the error, even if its contents would not parse |
| Protocol.Envelope | src/mcp/server.rs:44-60 | a response has version "2.0", echoes the request id, carries exactly one of result and error, uses code -32603 for every error, and gives back exactly the handler's `Ok` value or `Err` message |
| Protocol.EnvelopeOfOutcome | src/mcp/server.rs:44-60 | every response of that shape is the envelope of the outcome a client reads from it (the envelope loses nothing) |
| Server.HandleInitialize | src/mcp/server.rs:63-74 | `initialize` succeeds with protocolVersion "2024-11-05", serverInfo name "rapid-mcp-server-rust" and version "0.1.0", and a `tools` capability |
| Server.ToolDescriptor | src/mcp/server.rs:79-89 | a published tool decodes to the command's name and description, and its input schema is an object schema with no properties and no required fields |
| Server.Descriptors | src/mcp/server.rs:77-90 | the mapped list has one descriptor per listed command, and the i-th descriptor publishes the i-th command's name and description with the empty object schema |
| Server.HandleToolsList | src/mcp/server.rs:76-93 | `tools/list` succeeds with one tool per registered command: the i-th tool describes the command under the i-th name in iteration order, and every registered name is described |
| Server.ToolNameOf | src/mcp/server.rs:97 | a tool name is read exactly when `params` is an object whose `name` field is a string, and it is that string |
| Server.HandleToolsCall | src/mcp/server.rs:95-111 | `tools/call` fails with "Missing params" when there are no params, with "Missing tool name" when `name` is not a string, and with "Unknown tool: " + name when the name is not registered; it succeeds exactly when the name is registered, with one text item holding that command's prompt |
| Server.Dispatch | src/mcp/server.rs:37-42 | a method other than `initialize`, `tools/list` and `tools/call` fails with "Unknown method: " + method; `initialize` and `tools/list` never fail |
| Server.HandleRequest | src/mcp/server.rs:36-61 | every request gets a response with version "2.0" and the request's id, exactly one of result and error, and code -32603 on every error; unknown methods, `notifications/initialized` included, get "Unknown method: " + method; `initialize` reports the fixed protocol version and server info; `tools/list` lists one tool per registered command |
| ServerProperties.InitializeAlwaysAnswered | src/mcp/server.rs:63-74 | the `initialize` response is the same for every registry (including an empty one) and every params value, and declares tool support |
| ServerProperties.ToolsCallResponse | src/mcp/server.rs:95-111 | in the response envelope, the three `tools/call` failures carry code -32603 and their messages, and a call naming a registered tool has a result whose text is that tool's prompt |
| ServerProperties.ArgumentsIgnored | src/mcp/server.rs:95-110 | two calls that name the same tool get the same response whatever their `arguments` |
| ServerProperties.PublishedTool | src/mcp/server.rs:76-93 | in a well-keyed registry the i-th published tool carries the i-th registered name and that command's description |
| ServerProperties.ListedToolsAreCallable | src/mcp/server.rs:76-110 | every tool `tools/list` publishes can be called by its published name, and the call returns the prompt of the registered command with that name and description |
| ServerProperties.CallRegistered | src/mcp/server.rs:99-110 | a call naming a registered tool succeeds, and its text is that command's prompt |
| ServerProperties.LoadThenCall | src/mcp/server.rs:95-110 | after a load, a call succeeds exactly when some loaded command has that exact name; it then returns the prompt of the last such command, and otherwise reports "Unknown tool: " + name |
| ServerProperties.EmptyRegistry | src/mcp/server.rs:76-100 | with nothing registered, `tools/list` publishes no tool and every call naming a tool reports it unknown |

## Left out

- `McpServer::run` (src/mcp/server.rs:17-34) is not modelled. It covers the stdin line loop, the JSON parsing of each line, the silent dropping of lines that do not parse, serialisation, writing and flushing. This is I/O.
- The filesystem side of `load_from_dir` is an input, not a model. Listing the directory, reading files, computing the extension and parsing YAML with `serde_yaml` arrive pre-computed in each `DirEntry`. A failure to open the directory itself is not represented. The `eprintln!` diagnostics are left out.
- Error texts from reading and parsing files are opaque strings. The `anyhow` context wrapping ("Failed to read ...", "Failed to parse ...") is not modelled.
- `src/main.rs` is process wiring only.
- The field types of `JsonRpcRequest` are assumed, because `src/mcp/types.rs` is not part of this model: `id` is an optional integer and `params` an optional JSON value.
- The serde attributes of `src/command/types.rs` (the `type` rename and field defaults) are not modelled. The datatypes mirror the parsed structs.
- The exact JSON text produced by `serde_json::to_string` is not modelled. Responses are structural values.
- JSON numbers are integers only. Floating point is left out, and the server never reads a number.
- JSON objects are maps, which matches `serde_json`'s default object type: keys are unique and there is no meaningful order.
- `tools/list` order is left to the `order` parameter, as in the source, where hash-map iteration order is unspecified.
