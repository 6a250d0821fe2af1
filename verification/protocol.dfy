/** The JSON-RPC envelope as src/mcp/server.rs uses it. The request and
    response structs are declared in src/mcp/types.rs, which is not part of
    this model; only the fields the server reads or writes appear here. The
    request id is copied from request to response and never inspected, so it
    is modelled as an optional integer. */
module Protocol {

  import opened Wrappers
  import opened JsonValue

  datatype Request = Request(id: Option<int>, methodName: string, params: Option<Json>)

  datatype RpcError = RpcError(code: int, message: string)

  datatype Response = Response(
    jsonrpc: string,
    id: Option<int>,
    result: Option<Json>,
    error: Option<RpcError>
  )

  const JsonRpcVersion: string := "2.0"

  /** JSON-RPC "internal error": the only code this server ever sends. */
  const InternalErrorCode: int := -32603

  /** The shape of every response the server builds: version "2.0", exactly
      one of `result` and `error`, and an error always carrying code -32603. */
  predicate WellFormed(resp: Response) {
    && resp.jsonrpc == JsonRpcVersion
    && resp.result.Some? != resp.error.Some?
    && (resp.error.Some? ==> resp.error.value.code == InternalErrorCode)
  }

  /** What a client reads back from a response: the result value, or the
      error message; nothing when both or neither field is set. */
  function Outcome(resp: Response): Option<Result<Json, string>> {
    if resp.result.Some? && resp.error.None? then Some(Success(resp.result.value))
    else if resp.result.None? && resp.error.Some? then Some(Failure(resp.error.value.message))
    else None
  }

  /** The second half of `handle_request`: a handler's `Ok` becomes a result,
      its `Err` an error with code -32603, and the request id is echoed. */
  function Envelope(id: Option<int>, outcome: Result<Json, string>): (resp: Response)
    ensures WellFormed(resp)
    ensures resp.id == id
    ensures Outcome(resp) == Some(outcome)
  {
    match outcome
    case Success(value) => Response(JsonRpcVersion, id, Some(value), None)
    case Failure(message) => Response(JsonRpcVersion, id, None, Some(RpcError(InternalErrorCode, message)))
  }

  /** Conversely, every well-formed response is the envelope of what a client
      reads back from it: no information is lost in either direction. */
  lemma EnvelopeOfOutcome(resp: Response)
    requires WellFormed(resp)
    ensures Outcome(resp).Some?
    ensures Envelope(resp.id, Outcome(resp).value) == resp
  {
  }
}
