/** Whether a connection gets a heartbeat, and the ping it sends
    (src/core/connection/heartbeat-runner.ts). */
module HeartbeatRunner {
  import opened Base
  import opened Json
  import opened Config
  import opened RequestBuilder

  const HeartbeatEchoPrefix := "heartbeat_"

  /** `pingInterval || 0` when it is positive and a non-empty heartbeat action
      is configured; `None` means no service is created or started. */
  function HeartbeatInterval(c: ConnectionConfig): (r: Option<int>)
    ensures r.Some? <==> c.pingInterval.Some? && c.pingInterval.value > 0
                          && c.heartbeatAction.Some? && c.heartbeatAction.value.action != ""
    ensures r.Some? ==> r.value == c.pingInterval.value
  {
    var interval := if c.pingInterval.Some? then c.pingInterval.value else 0;
    if interval <= 0 || c.heartbeatAction.None? || c.heartbeatAction.value.action == "" then None
    else Some(interval)
  }

  function PingEcho(now: int): (echo: string)
    ensures StartsWith(echo, HeartbeatEchoPrefix)
  {
    StartsWithConcat(HeartbeatEchoPrefix, IntToString(now));
    HeartbeatEchoPrefix + IntToString(now)
  }

  /** `{action, params: params ?? {}, echo: "heartbeat_" + now}`: the same frame
      shape as an API request. */
  function PingPayload(a: HeartbeatAction, now: int): (v: Value)
    ensures Keys(v) == ["action", "params", "echo"]
    ensures Get(v, "action") == Some(JStr(a.action))
    ensures Get(v, "params") == (if Nullish(a.params) then Some(JObj([])) else a.params)
    ensures Get(v, "echo") == Some(JStr(PingEcho(now)))
  {
    var params := if Nullish(a.params) then JObj([]) else a.params.value;
    BuildRequestPayload(a.action, params, PingEcho(now)).payload
  }
}
