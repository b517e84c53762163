/** The signals a state change raises on the client's emitter
    (src/core/connection/state-handler.ts). */
module StateHandler {
  import opened ConnectionState

  datatype Argument = NoArgument | StateArgument(state: State) | RestoredAt(timestamp: int)

  datatype Emission = Emission(name: string, arg: Argument)

  function Names(es: seq<Emission>): seq<string> {
    seq(|es|, i requires 0 <= i < |es| => es[i].name)
  }

  /** 'state_change' first, then the state's own signal; 'connection:restored'
      follows 'connect' only after a reconnect. */
  function HandleConnectionStateChange(state: State, wasReconnecting: bool, now: int): (es: seq<Emission>)
    ensures |es| >= 1 && es[0] == Emission("state_change", StateArgument(state))
    ensures state == Connecting <==> |es| == 1
  {
    [Emission("state_change", StateArgument(state))] +
      match state
      case Connected =>
        [Emission("connect", NoArgument)] +
          (if wasReconnecting then [Emission("connection:restored", RestoredAt(now))] else [])
      case Disconnected => [Emission("disconnect", NoArgument)]
      case Reconnecting => [Emission("reconnecting", NoArgument)]
      case Connecting => []
  }

  /** Each state's full signal sequence. */
  lemma {:induction false} StateSignals(state: State, wasReconnecting: bool, now: int)
    ensures var names := Names(HandleConnectionStateChange(state, wasReconnecting, now));
      && (state == Connected ==> names == ["state_change", "connect"] + (if wasReconnecting then ["connection:restored"] else []))
      && (state == Disconnected ==> names == ["state_change", "disconnect"])
      && (state == Reconnecting ==> names == ["state_change", "reconnecting"])
      && (state == Connecting ==> names == ["state_change"])
  {
    var es := HandleConnectionStateChange(state, wasReconnecting, now);
    var names := Names(es);
    match state
    case Connected =>
      if wasReconnecting {
        assert names == ["state_change", "connect", "connection:restored"];
      } else {
        assert names == ["state_change", "connect"];
      }
    case Disconnected => assert names == ["state_change", "disconnect"];
    case Reconnecting => assert names == ["state_change", "reconnecting"];
    case Connecting => assert names == ["state_change"];
  }

  /** 'connection:restored' is raised iff the new state is CONNECTED and the
      change came from a reconnect. */
  lemma RestoredIff(state: State, wasReconnecting: bool, now: int)
    ensures "connection:restored" in Names(HandleConnectionStateChange(state, wasReconnecting, now))
        <==> state == Connected && wasReconnecting
  {
    StateSignals(state, wasReconnecting, now);
  }
}
