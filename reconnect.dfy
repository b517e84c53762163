/** The reconnect scheduler with exponential backoff (src/core/reconnect.ts).
    A timer is a handle in `armed`, mapped to the time it is due; the timer's
    callback is split in two steps: `Fire` (the timer runs and the caller
    starts the reconnect) and `AttemptSettled` (the reconnect's promise has
    settled). */
module Reconnect {
  import opened Base
  import opened Config

  /** `Math.min(backoffMs * multiplier, max)` */
  function NextBackoff(b: Backoff, current: int): (r: int)
    ensures r <= b.max
    ensures r == b.max || r == current * b.multiplier
    ensures r == b.max <==> current * b.multiplier >= b.max
  {
    if current * b.multiplier < b.max then current * b.multiplier else b.max
  }

  /** The backoff after `failures` failed reconnects since the last reset. */
  function BackoffAfter(b: Backoff, failures: nat): int {
    if failures == 0 then b.initial else NextBackoff(b, BackoffAfter(b, failures - 1))
  }

  function Pow(m: nat, k: nat): nat {
    if k == 0 then 1 else m * Pow(m, k - 1)
  }

  lemma MulGrows(a: int, m: nat)
    requires a >= 0 && m >= 1
    ensures a * m >= a
  {
  }

  lemma PowStep(i: int, m: nat, k: nat)
    requires k >= 1
    ensures i * Pow(m, k) == (i * Pow(m, k - 1)) * m
  {
    var p := Pow(m, k - 1);
    assert Pow(m, k) == m * p;
    assert i * (m * p) == (i * p) * m;
  }

  /** The backoff is `min(initial * multiplier^k, max)` for a sane
      configuration. */
  lemma {:induction false} BackoffClosedForm(b: Backoff, k: nat)
    requires 0 <= b.initial <= b.max && b.multiplier >= 1
    ensures BackoffAfter(b, k) == Min(b.initial * Pow(b.multiplier, k), b.max)
  {
    if k > 0 {
      BackoffClosedForm(b, k - 1);
      var q := b.initial * Pow(b.multiplier, k - 1);
      PowStep(b.initial, b.multiplier, k);
      assert b.initial * Pow(b.multiplier, k) == q * b.multiplier;
      PowNonNegative(b.initial, b.multiplier, k - 1);
      MulGrows(q, b.multiplier);
      if q <= b.max {
        assert BackoffAfter(b, k - 1) == q;
      } else {
        assert BackoffAfter(b, k - 1) == b.max;
        MulGrows(b.max, b.multiplier);
      }
    }
  }

  lemma PowNonNegative(i: int, m: nat, k: nat)
    requires i >= 0
    ensures i * Pow(m, k) >= 0
  {
  }

  /** Each failure waits at least as long as the previous one, and never
      longer than the configured maximum. */
  lemma {:induction false} BackoffMonotone(b: Backoff, k: nat)
    requires 0 <= b.initial <= b.max && b.multiplier >= 1
    ensures BackoffAfter(b, k) <= BackoffAfter(b, k + 1) <= b.max
  {
    BackoffClosedForm(b, k);
    BackoffClosedForm(b, k + 1);
    var q := b.initial * Pow(b.multiplier, k);
    PowStep(b.initial, b.multiplier, k + 1);
    PowNonNegative(b.initial, b.multiplier, k);
    MulGrows(q, b.multiplier);
  }

  /** The service's fields as a value, so that a run of settled reconnects
      can be said to fold `AttemptSettled` over their outcomes. */
  datatype Snapshot = Snapshot(currentAttempt: nat, backoffMs: int, armed: map<nat, int>,
                               reconnectTimer: Option<nat>, nextTimer: nat)

  /** `scheduleReconnect` on a snapshot: the attempt counts and a timer is
      armed after the current backoff, unless disabled or used up. */
  function Scheduled(c: ReconnectConfig, s: Snapshot, now: int): Snapshot {
    if c.enabled && s.currentAttempt < c.maxAttempts then
      s.(currentAttempt := s.currentAttempt + 1,
         armed := s.armed[s.nextTimer := now + TimerDelay(Some(s.backoffMs))],
         reconnectTimer := Some(s.nextTimer), nextTimer := s.nextTimer + 1)
    else s
  }

  /** `reset()` on a snapshot: counters back to the start, latest timer cleared. */
  function Restarted(c: ReconnectConfig, s: Snapshot): Snapshot {
    s.(currentAttempt := 0, backoffMs := c.backoff.initial,
       armed := if s.reconnectTimer.Some? then s.armed - {s.reconnectTimer.value} else s.armed,
       reconnectTimer := None)
  }

  /** The continuation of one reconnect: success resets, failure raises the
      backoff and schedules again. */
  function Settled(c: ReconnectConfig, s: Snapshot, succeeded: bool, now: int): Snapshot {
    if succeeded then Restarted(c, s)
    else Scheduled(c, s.(backoffMs := NextBackoff(c.backoff, s.backoffMs)), now)
  }

  /** The continuations of several reconnects, in the order they ran. */
  function SettledAll(c: ReconnectConfig, s: Snapshot, outcomes: seq<bool>, now: int): Snapshot
    decreases |outcomes|
  {
    if outcomes == [] then s
    else Settled(c, SettledAll(c, s, outcomes[..|outcomes| - 1], now), outcomes[|outcomes| - 1], now)
  }

  /** One more continuation after a run of them. */
  lemma SettledAllStep(c: ReconnectConfig, s: Snapshot, outcomes: seq<bool>, ok: bool, now: int)
    ensures SettledAll(c, s, outcomes + [ok], now) == Settled(c, SettledAll(c, s, outcomes, now), ok, now)
  {
    assert (outcomes + [ok])[..|outcomes|] == outcomes;
  }

  /** Failed reconnects since the last success in `outcomes`, on top of
      `failures` when there was none. */
  function FailuresSince(outcomes: seq<bool>, failures: nat): nat
    decreases |outcomes|
  {
    if outcomes == [] then failures
    else if outcomes[|outcomes| - 1] then 0
    else FailuresSince(outcomes[..|outcomes| - 1], failures) + 1
  }

  /** After a run of continuations the backoff is the one reached by the
      failures since the last success. */
  lemma {:induction false} SettledAllBackoff(c: ReconnectConfig, s: Snapshot, outcomes: seq<bool>, failures: nat, now: int)
    requires s.backoffMs == BackoffAfter(c.backoff, failures)
    ensures SettledAll(c, s, outcomes, now).backoffMs == BackoffAfter(c.backoff, FailuresSince(outcomes, failures))
  {
    if outcomes != [] {
      SettledAllBackoff(c, s, outcomes[..|outcomes| - 1], failures, now);
    }
  }

  /** Continuations never count an attempt beyond `maxAttempts`, and a run
      that ends in a success leaves the count at zero with no timer held. */
  lemma {:induction false} SettledAllBounded(c: ReconnectConfig, s: Snapshot, outcomes: seq<bool>, now: int)
    requires s.currentAttempt == 0 || s.currentAttempt <= c.maxAttempts
    ensures var r := SettledAll(c, s, outcomes, now); r.currentAttempt == 0 || r.currentAttempt <= c.maxAttempts
    ensures outcomes != [] && outcomes[|outcomes| - 1] ==>
      var r := SettledAll(c, s, outcomes, now);
      r.currentAttempt == 0 && r.backoffMs == c.backoff.initial && r.reconnectTimer == None
  {
    if outcomes != [] {
      SettledAllBounded(c, s, outcomes[..|outcomes| - 1], now);
    }
  }

  class ReconnectService {
    const config: ReconnectConfig
    var currentAttempt: nat
    var backoffMs: int
    /** Failed reconnects since the last reset. */
    ghost var failures: nat
    /** Armed one-shot timers: handle to due time. */
    var armed: map<nat, int>
    /** `reconnectTimer`: the handle of the latest timer, kept after it ran. */
    var reconnectTimer: Option<nat>
    var nextTimer: nat

    ghost predicate Valid()
      reads this
    {
      && (currentAttempt == 0 || currentAttempt <= config.maxAttempts)
      && backoffMs == BackoffAfter(config.backoff, failures)
      && (forall id :: id in armed ==> id < nextTimer)
      && (reconnectTimer.Some? ==> reconnectTimer.value < nextTimer)
    }

    constructor(config: ReconnectConfig)
      ensures Valid() && this.config == config
      ensures currentAttempt == 0 && backoffMs == config.backoff.initial
      ensures armed == map[] && reconnectTimer == None
    {
      this.config := config;
      currentAttempt := 0;
      backoffMs := config.backoff.initial;
      failures := 0;
      armed := map[];
      reconnectTimer := None;
      nextTimer := 0;
    }

    /** The fields as a value. */
    function Current(): (s: Snapshot)
      reads this
      ensures s.currentAttempt == currentAttempt && s.backoffMs == backoffMs && s.armed == armed
      ensures s.reconnectTimer == reconnectTimer && s.nextTimer == nextTimer
    {
      Snapshot(currentAttempt, backoffMs, armed, reconnectTimer, nextTimer)
    }

    /** `hasRemainingAttempts()`: with a maximum of zero or less no attempt
        is ever left. */
    predicate HasRemainingAttempts()
      reads this
      ensures config.maxAttempts <= 0 ==> !HasRemainingAttempts()
    {
      currentAttempt < config.maxAttempts
    }

    /** Arms a reconnect after the current backoff, unless reconnecting is
        disabled or the attempts are used up. An earlier timer is overwritten,
        not cleared. */
    method Schedule(now: int) returns (scheduled: bool)
      requires Valid()
      modifies this
      ensures Valid()
      ensures scheduled <==> config.enabled && old(currentAttempt) < config.maxAttempts
      ensures scheduled ==>
        && currentAttempt == old(currentAttempt) + 1
        && reconnectTimer == Some(old(nextTimer))
        && old(nextTimer) !in old(armed)
        && armed == old(armed)[old(nextTimer) := now + TimerDelay(Some(old(backoffMs)))]
      ensures !scheduled ==> currentAttempt == old(currentAttempt) && armed == old(armed)
                             && reconnectTimer == old(reconnectTimer)
      ensures backoffMs == old(backoffMs) && failures == old(failures)
      ensures nextTimer == if scheduled then old(nextTimer) + 1 else old(nextTimer)
    {
      if !config.enabled {
        return false;
      }
      if currentAttempt >= config.maxAttempts {
        return false;
      }
      currentAttempt := currentAttempt + 1;
      armed := armed[nextTimer := now + TimerDelay(Some(backoffMs))];
      reconnectTimer := Some(nextTimer);
      nextTimer := nextTimer + 1;
      scheduled := true;
    }

    /** The timer `id` runs; the caller then starts a reconnect. */
    method Fire(id: nat, now: int)
      requires Valid() && id in armed && armed[id] <= now
      modifies this
      ensures Valid()
      ensures armed == old(armed) - {id}
      ensures currentAttempt == old(currentAttempt) && backoffMs == old(backoffMs)
      ensures reconnectTimer == old(reconnectTimer) && nextTimer == old(nextTimer)
    {
      armed := armed - {id};
    }

    /** The reconnect started by a fired timer has settled: success resets,
        failure raises the backoff and schedules again. */
    method AttemptSettled(succeeded: bool, now: int)
      requires Valid()
      modifies this
      ensures Valid()
      ensures Current() == Settled(config, old(Current()), succeeded, now)
      ensures succeeded ==> currentAttempt == 0 && backoffMs == config.backoff.initial && reconnectTimer == None
      ensures succeeded ==> armed == if old(reconnectTimer).Some? then old(armed) - {old(reconnectTimer).value} else old(armed)
      ensures !succeeded ==> backoffMs == NextBackoff(config.backoff, old(backoffMs))
      ensures !succeeded && config.enabled && old(currentAttempt) < config.maxAttempts ==>
        && currentAttempt == old(currentAttempt) + 1
        && reconnectTimer == Some(old(nextTimer))
        && armed == old(armed)[old(nextTimer) := now + TimerDelay(Some(backoffMs))]
      ensures !succeeded && !(config.enabled && old(currentAttempt) < config.maxAttempts) ==>
        currentAttempt == old(currentAttempt) && armed == old(armed) && reconnectTimer == old(reconnectTimer)
    {
      if succeeded {
        Reset();
      } else {
        backoffMs := NextBackoff(config.backoff, backoffMs);
        failures := failures + 1;
        ghost var raised := Current();
        var _ := Schedule(now);
        assert Current() == Scheduled(config, raised, now);
      }
    }

    method Reset()
      requires Valid()
      modifies this
      ensures Valid()
      ensures currentAttempt == 0 && backoffMs == config.backoff.initial && failures == 0
      ensures reconnectTimer == None
      ensures armed == if old(reconnectTimer).Some? then old(armed) - {old(reconnectTimer).value} else old(armed)
      ensures nextTimer == old(nextTimer)
    {
      currentAttempt := 0;
      backoffMs := config.backoff.initial;
      failures := 0;
      Cancel();
    }

    /** Clears the latest timer only. */
    method Cancel()
      requires Valid()
      modifies this
      ensures Valid()
      ensures reconnectTimer == None
      ensures armed == if old(reconnectTimer).Some? then old(armed) - {old(reconnectTimer).value} else old(armed)
      ensures nextTimer == old(nextTimer)
      ensures currentAttempt == old(currentAttempt) && backoffMs == old(backoffMs) && failures == old(failures)
    {
      if reconnectTimer.Some? {
        armed := armed - {reconnectTimer.value};
        reconnectTimer := None;
      }
    }
  }
}
