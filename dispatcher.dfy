/** Inbound demultiplexing (src/core/dispatcher.ts): a parsed frame with a
    truthy `echo` is a response, except the heartbeat's own replies, which are
    dropped; any other frame is an event. Parsing is outside the model: the
    frame arrives as the value `JSON.parse` produced, or `None` when it threw. */
module Dispatcher {
  import opened Base
  import opened Json
  import opened HeartbeatRunner
  import opened ApiClient

  /** Where one frame goes. `Caught` is the catch block: nothing else runs. */
  datatype Route =
    | Caught
    | Dropped
    | Response(echo: Value, data: Value)
    | Event(data: Value)

  /** `data.echo` throws on `null`; JSON text yields no `undefined`. */
  function Dispatch(parsed: Option<Value>): (r: Route)
    ensures r.Caught? <==> parsed.None? || parsed.value == JNull
    ensures r.Dropped? <==> parsed.Some? && parsed.value != JNull && IsHeartbeatEcho(Get(parsed.value, "echo"))
    ensures r.Response? <==> parsed.Some? && parsed.value != JNull && TruthyOpt(Get(parsed.value, "echo"))
                             && !IsHeartbeatEcho(Get(parsed.value, "echo"))
    ensures r.Response? ==> Some(r.echo) == Get(parsed.value, "echo") && r.data == parsed.value
    ensures r.Event? <==> parsed.Some? && parsed.value != JNull && !TruthyOpt(Get(parsed.value, "echo"))
    ensures r.Event? ==> r.data == parsed.value
  {
    if parsed.None? || parsed.value == JNull then Caught
    else
      var data := parsed.value;
      var echo := Get(data, "echo");
      if TruthyOpt(echo) then
        if IsHeartbeatEcho(echo) then Dropped else Response(echo.value, data)
      else Event(data)
  }

  /** `typeof echo === 'string' && echo.startsWith('heartbeat_')` */
  predicate IsHeartbeatEcho(echo: Option<Value>)
    ensures IsHeartbeatEcho(echo) ==> TruthyOpt(echo)
  {
    echo.Some? && echo.value.JStr? && StartsWith(echo.value.s, HeartbeatEchoPrefix)
  }

  /** Every ping's reply is dropped, whatever else the frame carries. */
  lemma {:induction false} PingRepliesDropped(now: int, rest: seq<(string, Value)>)
    ensures Dispatch(Some(JObj([("echo", JStr(PingEcho(now)))] + rest))) == Dropped
  {
    var fields := [("echo", JStr(PingEcho(now)))] + rest;
    FieldIndexIs(fields, "echo", 0);
  }

  /** The reply to an API request reaches `handleResponse` with its echo: the
      client's ids never look like a heartbeat's. */
  lemma {:induction false} RequestRepliesAnswered(now: int, counter: nat, rest: seq<(string, Value)>)
    ensures var frame := JObj([("echo", JStr(RequestId(now, counter)))] + rest);
      Dispatch(Some(frame)) == Response(JStr(RequestId(now, counter)), frame)
  {
    var fields := [("echo", JStr(RequestId(now, counter)))] + rest;
    FieldIndexIs(fields, "echo", 0);
  }
}
