/** The HTTP layer of the entry binary (entry_node.rs): `handle_rpc` turns
    the JSON-RPC reply that came back through the circuit into an
    `RpcResponse` whose `result` and `error` are absent when the reply's
    fields are null or missing.
 */
module EntryApi {
  import opened Types
  import opened Http
  import Json
  import EntryMocks

  /** `RpcResponse`; `None` is serialised as JSON `null`. */
  datatype RpcResponse = RpcResponse(id: Json.Value, result: Option<Json.Value>, error: Option<Json.Value>)

  /** `if v.is_null() { None } else { Some(v.clone()) }`. */
  function NonNull(v: Json.Value): (r: Option<Json.Value>)
    ensures r.None? <==> v == Json.Null
    ensures r.Some? ==> r.value == v
  {
    if v.Null? then None else Some(v)
  }

  /** The extraction step of `handle_rpc` on the parsed reply. */
  function ExtractRpcResponse(reply: Json.Value): (r: RpcResponse)
    ensures r.id == Json.Index(reply, "id")
    ensures r.result.None? <==> Json.Index(reply, "result") == Json.Null
    ensures r.result.Some? ==> r.result.value == Json.Index(reply, "result")
    ensures r.error.None? <==> Json.Index(reply, "error") == Json.Null
    ensures r.error.Some? ==> r.error.value == Json.Index(reply, "error")
  {
    RpcResponse(Json.Index(reply, "id"), NonNull(Json.Index(reply, "result")), NonNull(Json.Index(reply, "error")))
  }

  /** `Option<Value>` as serde writes it. */
  function OptionToJson(o: Option<Json.Value>): Json.Value
  {
    match o
    case None => Json.Null
    case Some(v) => v
  }

  /** The JSON object serde writes for an `RpcResponse`. */
  function ToJson(r: RpcResponse): (v: Json.Value)
    ensures v.Object? && v.fields.Keys == {"id", "result", "error"}
  {
    Json.Object(map["id" := r.id, "result" := OptionToJson(r.result), "error" := OptionToJson(r.error)])
  }

  /** Extraction undoes serialisation exactly when neither field holds an
      explicit `Some(null)`, which serialisation cannot tell from `None`. */
  lemma ExtractAfterToJson(r: RpcResponse)
    ensures ExtractRpcResponse(ToJson(r)) == r <==> r.result != Some(Json.Null) && r.error != Some(Json.Null)
  {
    var v := ToJson(r);
    assert Json.Index(v, "id") == r.id;
    assert Json.Index(v, "result") == OptionToJson(r.result);
    assert Json.Index(v, "error") == OptionToJson(r.error);
  }

  /** Extraction is idempotent through serialisation: extracting, writing
      and extracting again gives the first extraction. */
  lemma ExtractIsStable(reply: Json.Value)
    ensures ExtractRpcResponse(ToJson(ExtractRpcResponse(reply))) == ExtractRpcResponse(reply)
  {
    ExtractAfterToJson(ExtractRpcResponse(reply));
  }

  /** On the mock router's fixed reply the client sees id 1, result
      "0x123456" and no error. */
  lemma ExtractMockReply()
    ensures ExtractRpcResponse(EntryMocks.MOCK_REPLY) ==
            RpcResponse(Json.Number(1), Some(Json.Str("0x123456")), None)
  {
  }

  /** `handle_rpc` from the point where the service has answered and its
      bytes have been parsed: any failure before (the service's error or a
      reply that is not JSON, both `Err` here) is status 500. */
  function HandleRpc(parsedReply: Result<Json.Value>): (reply: Reply<RpcResponse>)
    ensures reply.Body? <==> parsedReply.Ok?
    ensures parsedReply.Err? ==> reply == Status(INTERNAL_SERVER_ERROR)
    ensures parsedReply.Ok? ==> reply.value == ExtractRpcResponse(parsedReply.value)
  {
    ReplyFor(match parsedReply
             case Ok(v) => Ok(ExtractRpcResponse(v))
             case Err(e) => Err(e))
  }
}
