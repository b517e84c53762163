/** The outbound request frame (src/core/api/request-builder.ts). The frame is
    kept as a JSON object; its serialisation is not modelled. */
module RequestBuilder {
  import opened Base
  import opened Json

  datatype BuiltRequest = BuiltRequest(payload: Value, echo: string)

  function BuildRequestPayload(action: string, params: Value, echo: string): (r: BuiltRequest)
    ensures r.echo == echo
    ensures Keys(r.payload) == ["action", "params", "echo"]
    ensures Get(r.payload, "action") == Some(JStr(action))
    ensures Get(r.payload, "params") == Some(params)
    ensures Get(r.payload, "echo") == Some(JStr(r.echo))
  {
    var fields := [("action", JStr(action)), ("params", params), ("echo", JStr(echo))];
    assert FieldIndex(fields, "params") == Some(1) by { FieldIndexIs(fields, "params", 1); }
    assert FieldIndex(fields, "echo") == Some(2) by { FieldIndexIs(fields, "echo", 2); }
    BuiltRequest(JObj(fields), echo)
  }
}
