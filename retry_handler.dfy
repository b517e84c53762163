/** The reconnect decision taken on an abnormal close
    (src/core/connection/retry-handler.ts). Its inputs are the reconnect
    service's answers: `hasRemainingAttempts()` and, when it is asked, the
    result of `schedule`. */
module RetryHandler {
  import opened ConnectionState

  datatype Step = SetState(state: State) | Schedule | MaxAttemptsReached

  datatype Plan = Plan(steps: seq<Step>, result: bool)

  function GiveUp(hasCallback: bool): seq<Step> {
    [SetState(Disconnected)] + if hasCallback then [MaxAttemptsReached] else []
  }

  function HandleReconnect(hasRemainingAttempts: bool, scheduled: bool, hasCallback: bool): (p: Plan)
    ensures p.result <==> hasRemainingAttempts && scheduled
    ensures Schedule in p.steps <==> hasRemainingAttempts
    ensures hasRemainingAttempts ==> |p.steps| >= 2 && p.steps[..2] == [SetState(Reconnecting), Schedule]
    ensures !p.result ==> |p.steps| >= (if hasCallback then 2 else 1)
                          && p.steps[|p.steps| - (if hasCallback then 2 else 1)] == SetState(Disconnected)
    ensures MaxAttemptsReached in p.steps <==> hasCallback && !p.result
    ensures multiset(p.steps)[MaxAttemptsReached] <= 1
  {
    if !hasRemainingAttempts then Plan(GiveUp(hasCallback), false)
    else if !scheduled then Plan([SetState(Reconnecting), Schedule] + GiveUp(hasCallback), false)
    else Plan([SetState(Reconnecting), Schedule], true)
  }
}
