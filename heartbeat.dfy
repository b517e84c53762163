/** The heartbeat service (src/core/heartbeat.ts): an interval timer that
    counts ticks overdue by more than three intervals since the last pong and
    gives up on the third. Intervals are handles in `armed`; an interval that
    `start` overwrites without clearing stays armed. */
module Heartbeat {
  import opened Base

  const MaxMissedPings := 3

  datatype TickAction = Ping | TimedOut

  predicate Overdue(elapsed: int, interval: int) {
    elapsed > interval * MaxMissedPings
  }

  /** One tick: the new miss count, and whether it gives up. */
  function TickStep(missed: nat, elapsed: int, interval: int): (r: (nat, TickAction))
    ensures r.1 == TimedOut <==> Overdue(elapsed, interval) && r.0 >= MaxMissedPings
    ensures r.0 == if Overdue(elapsed, interval) then missed + 1 else missed
  {
    if Overdue(elapsed, interval) then
      (missed + 1, if missed + 1 >= MaxMissedPings then TimedOut else Ping)
    else (missed, Ping)
  }

  /** The actions of successive ticks (given each tick's time since the last
      pong), up to the one that gives up and stops the interval. */
  function Run(missed: nat, elapsed: seq<int>, interval: int): seq<TickAction>
    decreases |elapsed|
  {
    if elapsed == [] then []
    else
      var (m, a) := TickStep(missed, elapsed[0], interval);
      if a == TimedOut then [TimedOut] else [Ping] + Run(m, elapsed[1..], interval)
  }

  function OverdueCount(elapsed: seq<int>, interval: int): nat {
    if elapsed == [] then 0
    else (if Overdue(elapsed[0], interval) then 1 else 0) + OverdueCount(elapsed[1..], interval)
  }

  /** Without a pong, the heartbeat gives up exactly when three ticks in all
      (counting earlier misses) have been overdue, and only on its last tick. */
  lemma {:induction false} GivesUpOnThirdMiss(missed: nat, elapsed: seq<int>, interval: int)
    requires missed < MaxMissedPings
    ensures TimedOut in Run(missed, elapsed, interval) <==> missed + OverdueCount(elapsed, interval) >= MaxMissedPings
    ensures forall i :: 0 <= i < |Run(missed, elapsed, interval)| - 1 ==> Run(missed, elapsed, interval)[i] == Ping
    decreases |elapsed|
  {
    if elapsed != [] {
      var (m, a) := TickStep(missed, elapsed[0], interval);
      if a != TimedOut {
        GivesUpOnThirdMiss(m, elapsed[1..], interval);
      }
    }
  }

  class HeartbeatService {
    const interval: int
    /** `timer`: the latest interval's handle. */
    var timer: Option<nat>
    var armed: set<nat>
    var nextTimer: nat
    var lastPongTime: int
    var missedPings: nat

    ghost predicate Valid()
      reads this
    {
      && (forall id :: id in armed ==> id < nextTimer)
      && (timer.Some? ==> timer.value in armed)
    }

    constructor(interval: int)
      ensures Valid() && this.interval == interval
      ensures timer == None && armed == {} && lastPongTime == 0 && missedPings == 0
    {
      this.interval := interval;
      timer := None;
      armed := {};
      nextTimer := 0;
      lastPongTime := 0;
      missedPings := 0;
    }

    /** A non-positive interval arms nothing. */
    method Start(now: int)
      requires Valid()
      modifies this
      ensures Valid()
      ensures interval <= 0 ==> unchanged(this)
      ensures interval > 0 ==>
        && lastPongTime == now && missedPings == 0
        && timer == Some(old(nextTimer)) && old(nextTimer) !in old(armed)
        && armed == old(armed) + {old(nextTimer)}
    {
      if interval <= 0 {
        return;
      }
      lastPongTime := now;
      missedPings := 0;
      armed := armed + {nextTimer};
      timer := Some(nextTimer);
      nextTimer := nextTimer + 1;
    }

    /** A tick of interval `id`: the caller sends a ping on `Ping` and runs the
        timeout handler on `TimedOut`, after the latest interval is stopped. */
    method Tick(id: nat, now: int) returns (action: TickAction)
      requires Valid() && id in armed
      modifies this
      ensures Valid()
      ensures (missedPings, action) == TickStep(old(missedPings), now - old(lastPongTime), interval)
      ensures lastPongTime == old(lastPongTime)
      ensures action == Ping ==> timer == old(timer) && armed == old(armed)
      ensures action == TimedOut ==>
                (timer == None && armed == if old(timer).Some? then old(armed) - {old(timer).value} else old(armed))
    {
      var elapsed := now - lastPongTime;
      if elapsed > interval * MaxMissedPings {
        missedPings := missedPings + 1;
        if missedPings >= MaxMissedPings {
          Stop();
          return TimedOut;
        }
      }
      return Ping;
    }

    method Stop()
      requires Valid()
      modifies this
      ensures Valid()
      ensures timer == None
      ensures armed == if old(timer).Some? then old(armed) - {old(timer).value} else old(armed)
      ensures lastPongTime == old(lastPongTime) && missedPings == old(missedPings)
    {
      if timer.Some? {
        armed := armed - {timer.value};
        timer := None;
      }
    }

    method RecordPong(now: int)
      requires Valid()
      modifies this
      ensures Valid()
      ensures lastPongTime == now && missedPings == 0
      ensures timer == old(timer) && armed == old(armed)
    {
      lastPongTime := now;
      missedPings := 0;
    }

    predicate IsActive()
      reads this
      ensures IsActive() && Valid() ==> timer.Some? && timer.value in armed
    {
      timer.Some?
    }
  }
}
