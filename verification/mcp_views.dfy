/** How an MCP client reads the result objects this server produces. These
    readers are written independently of the server: the server's contracts
    are stated by decoding its output with them. */
module McpViews {

  import opened Wrappers
  import opened JsonValue

  /** The string field `key` of an object. */
  function StringField(v: Json, key: string): Option<string> {
    if v.Object? && key in v.fields && v.fields[key].String? then Some(v.fields[key].s) else None
  }

  /** `protocolVersion` of an `initialize` result. */
  function ProtocolVersionOf(v: Json): Option<string> {
    StringField(v, "protocolVersion")
  }

  datatype ServerInfo = ServerInfo(name: string, version: string)

  /** `serverInfo.{name, version}` of an `initialize` result. */
  function ServerInfoOf(v: Json): Option<ServerInfo> {
    if v.Object? && "serverInfo" in v.fields then
      var info := v.fields["serverInfo"];
      match (StringField(info, "name"), StringField(info, "version"))
      case (Some(n), Some(ver)) => Some(ServerInfo(n, ver))
      case _ => None
    else None
  }

  /** The result declares tool support: `capabilities.tools` is an object. */
  predicate DeclaresTools(v: Json) {
    && v.Object? && "capabilities" in v.fields
    && v.fields["capabilities"].Object? && "tools" in v.fields["capabilities"].fields
    && v.fields["capabilities"].fields["tools"].Object?
  }

  /** The `tools` array of a `tools/list` result. */
  function ToolsOf(v: Json): Option<seq<Json>> {
    if v.Object? && "tools" in v.fields && v.fields["tools"].Array? then Some(v.fields["tools"].items)
    else None
  }

  datatype ToolInfo = ToolInfo(name: string, description: string)

  /** `name` and `description` of one tool descriptor. */
  function DecodeTool(t: Json): Option<ToolInfo> {
    match (StringField(t, "name"), StringField(t, "description"))
    case (Some(n), Some(d)) => Some(ToolInfo(n, d))
    case _ => None
  }

  /** The descriptor's `inputSchema` accepts an object and declares no
      properties and no required fields. */
  predicate HasEmptyObjectSchema(t: Json) {
    && t.Object? && "inputSchema" in t.fields
    && StringField(t.fields["inputSchema"], "type") == Some("object")
    && t.fields["inputSchema"].fields.Keys == {"type", "properties", "required"}
    && t.fields["inputSchema"].fields["properties"] == Object(map[])
    && t.fields["inputSchema"].fields["required"] == Array([])
  }

  /** The text of a `tools/call` result holding exactly one `text` content item. */
  function ContentText(v: Json): Option<string> {
    if v.Object? && "content" in v.fields && v.fields["content"].Array?
       && |v.fields["content"].items| == 1
       && StringField(v.fields["content"].items[0], "type") == Some("text")
    then StringField(v.fields["content"].items[0], "text")
    else None
  }
}
