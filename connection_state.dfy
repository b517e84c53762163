/** The four connection states (src/core/connection/state.ts). */
module ConnectionState {
  datatype State = Disconnected | Connecting | Connected | Reconnecting

  /** The enum's string values. */
  function Name(s: State): string {
    match s
    case Disconnected => "disconnected"
    case Connecting => "connecting"
    case Connected => "connected"
    case Reconnecting => "reconnecting"
  }
}
