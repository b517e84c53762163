/** The close rule (src/core/connection/close-handler.ts): the heartbeat is
    stopped first; a normal close (code 1000), or any close while already
    DISCONNECTED, ends in DISCONNECTED; any other close hands over to the
    reconnect decision. */
module CloseHandler {
  import opened ConnectionState

  const NormalClosure := 1000

  datatype Step = StopHeartbeat | SetState(state: State) | HandleReconnect

  function HandleCloseEvent(code: int, state: State): (steps: seq<Step>)
    ensures |steps| == 2 && steps[0] == StopHeartbeat
    ensures HandleReconnect in steps <==> code != NormalClosure && state != Disconnected
    ensures HandleReconnect !in steps ==> steps[1] == SetState(Disconnected)
  {
    if code == NormalClosure then [StopHeartbeat, SetState(Disconnected)]
    else if state == Connected || state == Reconnecting || state == Connecting then [StopHeartbeat, HandleReconnect]
    else
      assert state.Disconnected?;
      [StopHeartbeat, SetState(Disconnected)]
  }

  /** A close arriving once `disconnect()` has set DISCONNECTED never leads to a
      reconnect, whatever its code. */
  lemma {:induction false} NoReconnectAfterDisconnect(code: int)
    ensures HandleReconnect !in HandleCloseEvent(code, Disconnected)
  {
    var steps := HandleCloseEvent(code, Disconnected);
    assert steps == [StopHeartbeat, SetState(Disconnected)];
  }
}
