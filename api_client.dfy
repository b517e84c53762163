/** The API client (src/core/api-client.ts): it allocates request ids,
    registers each request in its response table before sending the frame,
    settles a request when its response arrives and sweeps stale requests
    once a minute. Requests are numbered promises; their settlements are the
    table's `effects`. */
module ApiClient {
  import opened Base
  import opened Json
  import opened Errors
  import opened Config
  import opened RequestBuilder
  import opened ResponseRegistry
  import opened HeartbeatRunner
  import opened Manager
  import opened Retry

  const RequestIdPrefix := "naplink_"
  const NotConnectedReason := "连接未建立，请先调用 connect()"
  const DestroyedReason := "API客户端已销毁"
  /** The period of the stale-request sweep, in ms. */
  const CleanupPeriod := 60000

  /** `naplink_${Date.now()}_${counter}` */
  function RequestId(now: int, counter: nat): (id: string)
    ensures StartsWith(id, RequestIdPrefix)
    ensures !StartsWith(id, HeartbeatEchoPrefix)
  {
    StartsWithConcat(RequestIdPrefix, IntToString(now) + "_" + NatToString(counter));
    var id := RequestIdPrefix + IntToString(now) + "_" + NatToString(counter);
    assert id == RequestIdPrefix + (IntToString(now) + "_" + NatToString(counter));
    assert id[0] == 'n' != HeartbeatEchoPrefix[0];
    RequestIdPrefix + IntToString(now) + "_" + NatToString(counter)
  }

  /** A string ends after its last `_`: the parts on either side are unique. */
  lemma {:induction false} SplitAtLastSeparator(x: string, y: string, x2: string, y2: string)
    requires '_' !in y && '_' !in y2
    requires x + "_" + y == x2 + "_" + y2
    ensures x == x2 && y == y2
  {
    var s := x + "_" + y;
    if |y| < |y2| {
      SeparatorAt(x, y);
      assert false;
    } else if |y2| < |y| {
      SeparatorAt(x2, y2);
      assert false;
    }
    assert x == s[..|x|] && x2 == s[..|x2|];
    assert y == s[|x| + 1..] && y2 == s[|x2| + 1..];
  }

  lemma SeparatorAt(x: string, y: string)
    ensures (x + "_" + y)[|x|] == '_'
  {
  }

  lemma {:induction false} IntToStringInjective(a: int, b: int)
    requires IntToString(a) == IntToString(b)
    ensures a == b
  {
    if a >= 0 && b >= 0 {
      NatToStringInjective(a, b);
    } else if a < 0 && b < 0 {
      assert NatToString(-a) == IntToString(a)[1..];
      assert NatToString(-b) == IntToString(b)[1..];
      NatToStringInjective(-a, -b);
    }
  }

  lemma NoSeparatorInDigits(s: string)
    requires AllDigits(s)
    ensures '_' !in s
  {
  }

  /** Two ids are equal only if clock and counter were: distinct counter
      values give distinct ids whatever the clock says. */
  lemma {:induction false} RequestIdInjective(now1: int, c1: nat, now2: int, c2: nat)
    requires RequestId(now1, c1) == RequestId(now2, c2)
    ensures now1 == now2 && c1 == c2
  {
    var y1, y2 := NatToString(c1), NatToString(c2);
    NoSeparatorInDigits(y1);
    NoSeparatorInDigits(y2);
    SplitAtLastSeparator(RequestIdPrefix + IntToString(now1), y1, RequestIdPrefix + IntToString(now2), y2);
    assert IntToString(now1) == (RequestIdPrefix + IntToString(now1))[|RequestIdPrefix|..];
    assert IntToString(now2) == (RequestIdPrefix + IntToString(now2))[|RequestIdPrefix|..];
    IntToStringInjective(now1, now2);
    NatToStringInjective(c1, c2);
  }

  /** Each issued id was made from the clock reading and counter recorded
      for it, and the counter has moved past all of them. */
  ghost predicate IdsIssued(issued: map<string, (int, nat)>, counter: nat) {
    forall e :: e in issued ==> e == RequestId(issued[e].0, issued[e].1) && issued[e].1 < counter
  }

  /** Every id in the table was issued. */
  ghost predicate Covered(pending: map<string, Pending>, issued: map<string, (int, nat)>) {
    forall e :: e in pending ==> e in issued
  }

  /** The counter has moved past every issued id. */
  ghost predicate CountedBelow(issued: map<string, (int, nat)>, counter: nat) {
    forall e :: e in issued ==> issued[e].1 < counter
  }

  /** Every pending request's promise was handed out already. */
  ghost predicate PromisedBelow(pending: map<string, Pending>, next: nat) {
    forall e :: e in pending ==> pending[e].request.promise < next
  }

  /** A counter value not used before gives an id not issued before, and
      recording it keeps the bookkeeping of issued ids. */
  lemma IssueKeeps(pending: map<string, Pending>, issued: map<string, (int, nat)>, counter: nat, now: int, id: string)
    requires IdsIssued(issued, counter) && Covered(pending, issued)
    requires id == RequestId(now, counter)
    ensures id !in issued
    ensures var issued' := issued[id := (now, counter)];
      && IdsIssued(issued', counter + 1)
      && Covered(pending, issued') && CountedBelow(issued', counter + 1)
  {
    if id in issued {
      RequestIdInjective(now, counter, issued[id].0, issued[id].1);
      assert false;
    }
  }

  /** Entries that survive a sweep keep their issued ids and promises. */
  lemma SubTableKeeps(p0: map<string, Pending>, p1: map<string, Pending>, issued: map<string, (int, nat)>, nextPromise: nat)
    requires forall e :: e in p1 ==> e in p0 && p1[e] == p0[e]
    requires Covered(p0, issued) && PromisedBelow(p0, nextPromise)
    ensures Covered(p1, issued) && PromisedBelow(p1, nextPromise)
  {
  }

  /** A new entry under an issued id, with a promise below the next one,
      keeps the table's bookkeeping. */
  lemma PutKeeps(p0: map<string, Pending>, echo: string, entry: Pending, issued: map<string, (int, nat)>,
                 promise0: nat, nextPromise: nat)
    requires Covered(p0, issued) && PromisedBelow(p0, promise0)
    requires echo in issued && promise0 <= entry.request.promise < nextPromise
    ensures Covered(p0[echo := entry], issued) && PromisedBelow(p0[echo := entry], nextPromise)
  {
  }

  /** `response.status === 'ok' || response.retcode === 0` */
  predicate Succeeded(response: Value) {
    Get(response, "status") == Some(JStr("ok")) || Get(response, "retcode") == Some(JNum(0))
  }

  /** How a response settles the request it matched. */
  function Settlement(request: Request, response: Value): (e: Effect)
    ensures !e.Stale? && e.promise == request.promise
    ensures e.Resolved? <==> Succeeded(response)
    ensures e.Resolved? ==> e.data == Get(response, "data")
    ensures e.Rejected? ==> e.error == ApiError(request.action, Get(response, "retcode"), Get(response, "message"), Get(response, "wording"))
  {
    if Succeeded(response) then Resolved(request.promise, Get(response, "data"))
    else Rejected(request.promise, ApiError(request.action, Get(response, "retcode"), Get(response, "message"), Get(response, "wording")))
  }

  /** A failed response rejects with an ApiError that `withRetry` retries and
      whose message names the action and the server's message and wording. */
  lemma SettlementRejects(request: Request, response: Value)
    requires !Succeeded(response)
    ensures var e := Settlement(request, response);
      && e.Rejected? && e.error.ApiError? && e.error.action == request.action && IsRetryable(e.error)
      && Message(e.error) == ApiErrorText(request.action, Get(response, "message"), Get(response, "wording"))
  {
  }

  /** A response carrying retcode 0 succeeds whatever its status says. */
  lemma {:induction false} RetcodeZeroSucceeds(request: Request, status: Value, data: Value)
    ensures Settlement(request, JObj([("status", status), ("retcode", JNum(0)), ("data", data)]))
         == Resolved(request.promise, Some(data))
  {
    var r := JObj([("status", status), ("retcode", JNum(0)), ("data", data)]);
    FieldIndexIs(r.fields, "retcode", 1);
    FieldIndexIs(r.fields, "data", 2);
  }

  /** `timeout ?? config.api.timeout` and `retries ?? config.api.retries`. */
  datatype CallOptions = CallOptions(timeout: Option<int>, retries: Option<int>)

  function EffectiveTimeout(options: Option<CallOptions>, api: ApiConfig): (t: int)
    ensures options.Some? && options.value.timeout.Some? ==> t == options.value.timeout.value
    ensures options.None? || options.value.timeout.None? ==> t == api.timeout
  {
    if options.Some? && options.value.timeout.Some? then options.value.timeout.value else api.timeout
  }

  function EffectiveRetries(options: Option<CallOptions>, api: ApiConfig): (n: int)
    ensures options.Some? && options.value.retries.Some? ==> n == options.value.retries.value
    ensures options.None? || options.value.retries.None? ==> n == api.retries
  {
    if options.Some? && options.value.retries.Some? then options.value.retries.value else api.retries
  }

  /** `call(method, params, options)`: `withRetry` over attempts that each
      send the request with the effective timeout; `outcome(k)` is how
      attempt `k`, a `sendRequest` with that timeout, ended. An explicit
      `retries: 0` or `timeout: 0` is kept (`??`). */
  method Call(api: ApiConfig, options: Option<CallOptions>, outcome: nat -> Result<Value, Failure>)
    returns (timeout: int, result: Result<Value, Option<Failure>>, calls: nat, delays: seq<int>)
    ensures options.Some? && options.value.timeout.Some? ==> timeout == options.value.timeout.value
    ensures options.None? || options.value.timeout.None? ==> timeout == api.timeout
    ensures var n := EffectiveRetries(options, api);
      && (n >= 0 ==> 1 <= calls <= n + 1 && delays == Delays(calls - 1))
      && (n < 0 ==> result == Err(None) && calls == 0 && delays == [])
    ensures options.Some? && options.value.retries == Some(0) ==> calls == 1
    ensures (options.None? || options.value.retries.None?) && api.retries >= 0 ==> calls <= api.retries + 1
    ensures forall k :: 0 <= k < calls - 1 ==> outcome(k).Err? && IsRetryable(outcome(k).error)
    ensures calls >= 1 ==>
      result == (if outcome(calls - 1).Ok? then Ok(outcome(calls - 1).value) else Err(Some(outcome(calls - 1).error)))
  {
    timeout := EffectiveTimeout(options, api);
    result, calls, delays := WithRetry(EffectiveRetries(options, api), outcome);
  }

  /** Adding a new key and removing it again leaves the map as it was. */
  lemma PutThenRemove(m: map<string, Pending>, k: string, v: Pending)
    requires k !in m
    ensures m[k := v] - {k} == m
  {
  }

  /** The same for the timer table. */
  lemma ArmThenClear(m: map<nat, Timer>, k: nat, v: Timer)
    requires k !in m
    ensures m[k := v] - {k} == m
  {
  }

  class Client {
    const config: NapLinkConfig
    const registry: Registry
    const connection: ConnectionManager
    var requestIdCounter: nat
    /** The next promise number `sendRequest` creates. */
    var nextPromise: nat
    /** The sweep interval's next run, while it is armed. */
    var cleanupTimer: Option<int>
    /** The clock reading and counter each issued id was made from. */
    ghost var issued: map<string, (int, nat)>

    ghost predicate Valid()
      reads this, registry
    {
      && registry.Valid() && registry.Tidy()
      && Covered(registry.pending, issued)
      && CountedBelow(issued, requestIdCounter)
      && PromisedBelow(registry.pending, nextPromise)
    }

    /** The table starts empty and the sweep is armed. */
    constructor(connection: ConnectionManager, config: NapLinkConfig, now: int)
      ensures Valid() && IdsIssued(issued, requestIdCounter) && this.connection == connection && this.config == config && fresh(registry)
      ensures registry.pending == map[] && registry.effects == []
      ensures requestIdCounter == 0 && nextPromise == 0 && cleanupTimer == Some(now + CleanupPeriod)
    {
      this.config := config;
      this.connection := connection;
      registry := new Registry();
      requestIdCounter := 0;
      nextPromise := 0;
      cleanupTimer := Some(now + CleanupPeriod);
      issued := map[];
    }

    /** `generateRequestId()` */
    method GenerateRequestId(now: int) returns (id: string)
      requires Valid() && IdsIssued(issued, requestIdCounter)
      modifies this`requestIdCounter, this`issued
      ensures Valid() && IdsIssued(issued, requestIdCounter)
      ensures id == RequestId(now, old(requestIdCounter)) && requestIdCounter == old(requestIdCounter) + 1
      ensures id !in old(issued) && issued == old(issued)[id := (now, old(requestIdCounter))]
    {
      ghost var pending, order, timers, nextTimer := registry.pending, registry.order, registry.timers, registry.nextTimer;
      ghost var promise := nextPromise;
      id := RequestId(now, requestIdCounter);
      IssueKeeps(pending, issued, requestIdCounter, now, id);
      issued := issued[id := (now, requestIdCounter)];
      requestIdCounter := requestIdCounter + 1;
      assert registry.pending == pending && registry.order == order && registry.timers == timers
        && registry.nextTimer == nextTimer && nextPromise == promise;
    }

    /** `sendRequest`: the request is registered under a fresh id, so no
        pending request is displaced; then it is sent if the connection is
        up. If the connection is down, or the socket library's `send`
        throws `sendError`, the request is rejected at once and taken out
        again. */
    method SendRequest(action: string, params: Value, timeout: int, now: int, sendError: Option<Failure>)
      returns (promise: nat, echo: string)
      requires Valid() && IdsIssued(issued, requestIdCounter) && connection.Valid()
      modifies this`requestIdCounter, this`issued, this`nextPromise, registry, connection`sockets
      ensures Valid() && IdsIssued(issued, requestIdCounter) && connection.Valid()
      ensures promise == old(nextPromise) && nextPromise == promise + 1
      ensures echo == RequestId(now, old(requestIdCounter)) && echo !in old(registry.pending)
      ensures old(connection.IsConnected()) && sendError.None? ==>
        && registry.pending == old(registry.pending)[echo := Pending(Request(promise, action, now, None), old(registry.nextTimer))]
        && registry.timers == old(registry.timers)[old(registry.nextTimer) :=
             Timer(echo, promise, action, Some(timeout), now + TimerDelay(Some(timeout)))]
        && registry.effects == old(registry.effects)
        && connection.sockets == old(connection.sockets)[connection.ws.value :=
             Transmitted(old(connection.sockets)[connection.ws.value], BuildRequestPayload(action, params, echo).payload)]
      ensures old(connection.IsConnected()) && sendError.Some? ==>
        && registry.pending == old(registry.pending) && registry.timers == old(registry.timers)
        && connection.sockets == old(connection.sockets)
        && registry.effects == old(registry.effects) + [Rejected(promise, sendError.value)]
      ensures !old(connection.IsConnected()) ==>
        && registry.pending == old(registry.pending) && registry.timers == old(registry.timers)
        && connection.sockets == old(connection.sockets)
        && registry.effects == old(registry.effects) + [Rejected(promise, ConnectionClosedError(-1, NotConnectedReason))]
    {
      promise, echo := Register(action, timeout, now);
      ghost var registered, armed := registry.pending, registry.timers;
      TrySend(echo, action, params, sendError);
      PutThenRemove(old(registry.pending), echo, registered[echo]);
      ArmThenClear(old(registry.timers), old(registry.nextTimer), armed[old(registry.nextTimer)]);
    }

    /** The first half of `sendRequest`: a fresh id and promise, and the
        request stored under that id with its timeout armed. */
    method Register(action: string, timeout: int, now: int) returns (promise: nat, echo: string)
      requires Valid() && IdsIssued(issued, requestIdCounter)
      modifies this`requestIdCounter, this`issued, this`nextPromise, registry
      ensures Valid() && IdsIssued(issued, requestIdCounter)
      ensures promise == old(nextPromise) && nextPromise == promise + 1
      ensures echo == RequestId(now, old(requestIdCounter)) && echo !in old(registry.pending)
      ensures registry.pending == old(registry.pending)[echo := Pending(Request(promise, action, now, None), old(registry.nextTimer))]
      ensures old(registry.nextTimer) !in old(registry.timers)
      ensures registry.timers == old(registry.timers)[old(registry.nextTimer) :=
                Timer(echo, promise, action, Some(timeout), now + TimerDelay(Some(timeout)))]
      ensures registry.effects == old(registry.effects)
    {
      echo := GenerateRequestId(now);
      promise := nextPromise;
      nextPromise := nextPromise + 1;
      ghost var p0, ids, counter := registry.pending, issued, requestIdCounter;
      var entry := registry.Add(echo, Request(promise, action, now, None), timeout, now);
      PutKeeps(p0, echo, entry, issued, promise, nextPromise);
      assert issued == ids && requestIdCounter == counter && nextPromise == promise + 1;
    }

    /** The `try` block of `sendRequest` and its `catch`: the frame goes out
        while the connection is up; otherwise the request is rejected with a
        connection-closed error, and a `send` that throws rejects it with
        the thrown error. A rejected request is taken out of the table. */
    method TrySend(echo: string, action: string, params: Value, sendError: Option<Failure>)
      requires Valid() && connection.Valid() && echo in registry.pending
      modifies registry, connection`sockets
      ensures Valid() && connection.Valid()
      ensures old(connection.IsConnected()) && sendError.None? ==>
        && registry.pending == old(registry.pending) && registry.effects == old(registry.effects)
        && registry.timers == old(registry.timers)
        && connection.sockets == old(connection.sockets)[connection.ws.value :=
             Transmitted(old(connection.sockets)[connection.ws.value], BuildRequestPayload(action, params, echo).payload)]
      ensures old(connection.IsConnected()) && sendError.Some? ==>
        && registry.pending == old(registry.pending) - {echo} && connection.sockets == old(connection.sockets)
        && registry.timers == old(registry.timers) - {old(registry.pending)[echo].timer}
        && registry.effects == old(registry.effects) + [Rejected(old(registry.pending)[echo].request.promise, sendError.value)]
      ensures !old(connection.IsConnected()) ==>
        && registry.pending == old(registry.pending) - {echo} && connection.sockets == old(connection.sockets)
        && registry.timers == old(registry.timers) - {old(registry.pending)[echo].timer}
        && registry.effects == old(registry.effects)
             + [Rejected(old(registry.pending)[echo].request.promise, ConnectionClosedError(-1, NotConnectedReason))]
    {
      if !connection.IsConnected() {
        Drop(echo, ConnectionClosedError(-1, NotConnectedReason));
      } else {
        SendConnected(echo, BuildRequestPayload(action, params, echo).payload, sendError);
      }
    }

    /** The connected case of the `try`: the frame goes out, unless the
        library's `send` throws, and then the `catch` rejects with its error. */
    method SendConnected(echo: string, payload: Value, sendError: Option<Failure>)
      requires Valid() && connection.Valid() && echo in registry.pending && connection.IsConnected()
      modifies registry, connection`sockets
      ensures Valid() && connection.Valid()
      ensures sendError.None? ==>
        && registry.pending == old(registry.pending) && registry.effects == old(registry.effects)
        && registry.timers == old(registry.timers)
        && connection.sockets == old(connection.sockets)[connection.ws.value :=
             Transmitted(old(connection.sockets)[connection.ws.value], payload)]
      ensures sendError.Some? ==>
        && registry.pending == old(registry.pending) - {echo} && connection.sockets == old(connection.sockets)
        && registry.timers == old(registry.timers) - {old(registry.pending)[echo].timer}
        && registry.effects == old(registry.effects) + [Rejected(old(registry.pending)[echo].request.promise, sendError.value)]
    {
      var sent := connection.Send(payload, sendError);
      if sent.Fail? {
        assert sent == Fail(sendError.value);
        Drop(echo, sent.error);
      }
    }

    /** The body of the `catch`: the request is rejected with the error and
        taken out of the table. */
    method Drop(echo: string, error: Failure)
      requires Valid() && echo in registry.pending
      modifies registry
      ensures Valid()
      ensures registry.pending == old(registry.pending) - {echo}
      ensures registry.timers == old(registry.timers) - {old(registry.pending)[echo].timer}
      ensures registry.effects == old(registry.effects) + [Rejected(old(registry.pending)[echo].request.promise, error)]
    {
      ghost var p0 := registry.pending;
      var _ := registry.Reject(echo, error);
      SubTableKeeps(p0, registry.pending, issued, nextPromise);
    }

    /** `handleResponse`: the matching request is taken out of the table and
        settled by the response; a response nobody waits for changes
        nothing, and so does a second response with the same echo. */
    method HandleResponse(echo: string, response: Value)
      requires Valid()
      modifies registry
      ensures Valid()
      ensures echo !in registry.pending
      ensures echo !in old(registry.pending) ==>
        && registry.pending == old(registry.pending) && registry.timers == old(registry.timers)
        && registry.effects == old(registry.effects)
      ensures echo in old(registry.pending) ==>
        && registry.pending == old(registry.pending) - {echo}
        && registry.timers == old(registry.timers) - {old(registry.pending)[echo].timer}
        && registry.effects == old(registry.effects) + [Settlement(old(registry.pending)[echo].request, response)]
    {
      ghost var p0 := registry.pending;
      var request := registry.Take(echo);
      SubTableKeeps(p0, registry.pending, issued, nextPromise);
      if request.None? {
        return;
      }
      registry.Record(Settlement(request.value.request, response));
    }

    /** `destroy()`: every pending request is rejected and the sweep stops. */
    method Destroy()
      requires Valid()
      modifies registry, this`cleanupTimer
      ensures Valid()
      ensures registry.pending == map[] && registry.timers == map[] && cleanupTimer == None
      ensures registry.effects == old(registry.effects) + RejectAll(old(registry.order), old(registry.pending), DestroyedReason)
    {
      registry.ClearAll(DestroyedReason);
      cleanupTimer := None;
    }

    /** The sweep interval runs: requests older than twice the API timeout are
        rejected with a timeout error naming that timeout. */
    method Sweep(now: int)
      requires Valid() && cleanupTimer.Some? && cleanupTimer.value <= now
      modifies registry, this`cleanupTimer
      ensures Valid()
      ensures cleanupTimer == Some(old(cleanupTimer).value + CleanupPeriod)
      ensures registry.pending == RemoveStale(old(registry.pending), old(registry.order), now, 2 * config.api.timeout)
      ensures registry.timers == old(registry.timers) - StaleTimers(old(registry.order), old(registry.pending), now, 2 * config.api.timeout)
      ensures registry.effects == old(registry.effects)
        + StaleEffects(old(registry.order), old(registry.pending), now, 2 * config.api.timeout)
    {
      var maxAge := 2 * config.api.timeout;
      ghost var pending0, order0 := registry.pending, registry.order;
      registry.CleanupStale(now, maxAge);
      RemoveStaleShrinks(pending0, order0, now, maxAge);
      SubTableKeeps(pending0, registry.pending, issued, nextPromise);
      cleanupTimer := Some(cleanupTimer.value + CleanupPeriod);
    }

    /** A request's timeout runs. */
    method OnRequestTimeout(t: nat, now: int)
      requires Valid() && t in registry.timers && registry.timers[t].due <= now
      modifies registry
      ensures Valid()
      ensures var tm := old(registry.timers)[t];
        && registry.pending == old(registry.pending) - {tm.echo} && registry.timers == old(registry.timers) - {t}
        && registry.effects == old(registry.effects) + [Rejected(tm.promise, ApiTimeoutError(tm.action, tm.timeout))]
    {
      registry.Fire(t, now);
    }
  }

  /** The sweep's timeout error names the API timeout itself: halving the
      doubled timeout is exact. */
  lemma {:induction false} SweepNamesApiTimeout(p: Pending, echo: string, timeout: int)
    ensures StaleEffectsOf(p, echo, 2 * timeout)[1] == Rejected(p.request.promise, ApiTimeoutError(p.request.action, Some(timeout)))
  {
    assert 2 * timeout / 2 == timeout;
  }
}
