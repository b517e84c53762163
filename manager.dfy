/** The WebSocket connection manager (src/core/connection/manager.ts) with the
    socket handlers it attaches (src/core/connection/handlers.ts).

    Sockets are values in `sockets`, every socket ever created, so that the
    handlers of a socket the manager no longer holds can still run, as they can
    in the source. Each socket remembers the connect promise its handlers
    settle. A promise settles once: `settled` maps it to its first outcome. The
    environment drives the manager by calling the event methods (`OnOpen`,
    `OnError`, `OnClose`, `OnMessage`, `OnConnectTimeout`, the timer methods)
    and `RunContinuations`, which runs the continuations of the reconnect
    timers whose connect promise has settled (a microtask checkpoint). */
module Manager {
  import opened Base
  import opened Json
  import opened Errors
  import opened Config
  import opened ConnectionState
  import opened Url
  import opened HeartbeatRunner
  import opened Reconnect
  import opened Heartbeat
  import RetryHandler

  /** `WebSocket.CONNECTING`, `OPEN`, `CLOSING` and `CLOSED`. */
  const SocketConnecting := 0
  const SocketOpen := 1
  const SocketClosing := 2
  const SocketClosed := 3

  const NormalClosure := 1000
  const HeartbeatTimeoutCode := 4000
  const HeartbeatTimeoutReason := "心跳超时"
  const NotOpenReason := "连接未建立或已关闭"
  const CreateFailedText := "WebSocket 创建失败"
  const SocketErrorText := "WebSocket 错误"

  /** The arguments of one `ws.close(...)` call. */
  datatype CloseCall = CloseCall(code: Option<int>, reason: Option<string>)

  datatype Socket = Socket(url: string, readyState: int, sent: seq<Value>, closeCalls: seq<CloseCall>, promise: nat)

  /** An armed connect timeout: the socket it watches and when it is due. */
  datatype ConnectTimer = ConnectTimer(socket: nat, due: int)

  /** `config.connection.timeout || 30000` */
  function ConnectTimeoutMs(c: ConnectionConfig): (ms: int)
    ensures ms != 0
    ensures c.timeout.Some? && c.timeout.value != 0 ==> ms == c.timeout.value
    ensures c.timeout.None? || c.timeout.value == 0 ==> ms == 30000
  {
    if c.timeout.Some? && c.timeout.value != 0 then c.timeout.value else 30000
  }

  /** Merging keeps an explicit timeout of 0 (`??`), but the handler then
      waits the default 30 s anyway (`||`). */
  lemma {:induction false} ConnectTimeoutOfMerged(user: PartialConfig)
    requires MergeConfig(user).Ok?
    ensures var given := user.connection.value.timeout; var m := MergeConfig(user).value;
      && (given == Some(0) ==> m.connection.timeout == Some(0) && ConnectTimeoutMs(m.connection) == 30000)
      && (given.None? ==> ConnectTimeoutMs(m.connection) == DefaultConnectTimeout)
      && (given.Some? && given.value != 0 ==> ConnectTimeoutMs(m.connection) == given.value)
  {
    MergeKeepsGivenValues(user);
    MergeDefaultsPerField(user);
  }

  function TimeoutText(ms: int): string {
    "连接超时 (" + IntToString(ms) + "ms)"
  }

  /** `this.ws?.readyState || -1`: a socket still connecting (readyState 0)
      reports -1, as a missing socket does. */
  function NotOpenCode(readyState: Option<int>): (code: int)
    ensures code != 0
    ensures readyState.Some? && readyState.value != 0 ==> code == readyState.value
    ensures readyState.None? || readyState.value == 0 ==> code == -1
  {
    if readyState.Some? && readyState.value != 0 then readyState.value else -1
  }

  /** The code `send` reports when it refuses: never OPEN, and -1 both for
      a missing socket and for one still connecting. */
  lemma NotOpenCodes(readyState: Option<int>)
    requires readyState.None? || readyState.value in {SocketConnecting, SocketClosing, SocketClosed}
    ensures NotOpenCode(readyState) != SocketOpen
    ensures NotOpenCode(readyState) in {-1, SocketClosing, SocketClosed}
    ensures NotOpenCode(readyState) == -1 <==> readyState.None? || readyState.value == SocketConnecting
  {
  }

  /** What the observer is told while the manager, in state `from`, carries
      out the steps of a reconnect plan: `setState` reports a state only when
      it differs from the current one. */
  function Notices(from: State, steps: seq<RetryHandler.Step>): seq<State>
    decreases |steps|
  {
    if steps == [] then []
    else if steps[0].SetState? then
      (if steps[0].state != from then [steps[0].state] else []) + Notices(steps[0].state, steps[1..])
    else Notices(from, steps[1..])
  }

  /** The notifications of `handleReconnect` without the exhaustion callback,
      for a manager in state `from`: one that gives up is told DISCONNECTED
      unless it already is; one with attempts left is told RECONNECTING
      unless it already is, and then DISCONNECTED when nothing could be
      scheduled. */
  function ReconnectNotices(from: State, hasRemainingAttempts: bool, scheduled: bool): seq<State> {
    if !hasRemainingAttempts then (if from != Disconnected then [Disconnected] else [])
    else (if from != Reconnecting then [Reconnecting] else []) + (if scheduled then [] else [Disconnected])
  }

  /** Those are exactly the state changes of the reconnect plan. */
  lemma PlanNotices(from: State, hasRemainingAttempts: bool, scheduled: bool)
    ensures Notices(from, RetryHandler.HandleReconnect(hasRemainingAttempts, scheduled, false).steps)
         == ReconnectNotices(from, hasRemainingAttempts, scheduled)
  {
    PlanSteps(hasRemainingAttempts, scheduled);
    if hasRemainingAttempts {
      RetryNotices(from, scheduled);
    } else {
      GiveUpNotices(from);
    }
  }

  lemma PlanSteps(hasRemainingAttempts: bool, scheduled: bool)
    ensures RetryHandler.HandleReconnect(hasRemainingAttempts, scheduled, false).steps
         == if !hasRemainingAttempts then [RetryHandler.SetState(Disconnected)]
            else [RetryHandler.SetState(Reconnecting), RetryHandler.Schedule] + (if scheduled then [] else [RetryHandler.SetState(Disconnected)])
  {
    assert RetryHandler.GiveUp(false) == [RetryHandler.SetState(Disconnected)];
  }

  lemma GiveUpNotices(from: State)
    ensures Notices(from, [RetryHandler.SetState(Disconnected)]) == if from != Disconnected then [Disconnected] else []
  {
    var down := [RetryHandler.SetState(Disconnected)];
    assert down[1..] == [];
    assert Notices(Disconnected, []) == [];
  }

  lemma RetryNotices(from: State, scheduled: bool)
    ensures Notices(from, [RetryHandler.SetState(Reconnecting), RetryHandler.Schedule] + (if scheduled then [] else [RetryHandler.SetState(Disconnected)]))
         == (if from != Reconnecting then [Reconnecting] else []) + (if scheduled then [] else [Disconnected])
  {
    var tail := if scheduled then [] else [RetryHandler.SetState(Disconnected)];
    var steps := [RetryHandler.SetState(Reconnecting), RetryHandler.Schedule] + tail;
    assert steps[1..] == [RetryHandler.Schedule] + tail;
    assert steps[1..][1..] == tail;
    GiveUpNotices(Reconnecting);
    assert Notices(Reconnecting, []) == [];
  }

  /** `ws.close(...)`: a connecting or open socket starts closing; the close
      event comes later. */
  function AfterClose(s: Socket, call: CloseCall): (r: Socket)
    ensures r.closeCalls == s.closeCalls + [call]
    ensures r.url == s.url && r.sent == s.sent && r.promise == s.promise
    ensures r.readyState == if s.readyState in {SocketConnecting, SocketOpen} then SocketClosing else s.readyState
  {
    s.(readyState := if s.readyState in {SocketConnecting, SocketOpen} then SocketClosing else s.readyState,
       closeCalls := s.closeCalls + [call])
  }

  /** `ws.send(data)` on an open socket: the frame goes out. */
  function Transmitted(s: Socket, data: Value): (r: Socket)
    ensures r.sent == s.sent + [data] && |r.sent| == |s.sent| + 1
    ensures r.url == s.url && r.readyState == s.readyState && r.closeCalls == s.closeCalls && r.promise == s.promise
  {
    s.(sent := s.sent + [data])
  }

  /** The connect promises, numbered in order of creation. `inFlight` is
      `this.connectPromise`; `settled` holds the outcome each promise settled
      with first. */
  datatype Promises = Promises(inFlight: Option<nat>, next: nat, settled: map<nat, Outcome<Failure>>) {
    ghost predicate Valid() {
      && (forall p :: p in settled ==> p < next)
      && (inFlight.Some? ==> inFlight.value < next && inFlight.value !in settled)
    }

    /** `performConnect()` creates promise `next`, which `connect()` holds. */
    function Start(): (r: Promises)
      requires Valid() && inFlight.None?
      ensures r.Valid() && r.next == next + 1 && r.inFlight == Some(next) && r.settled == settled
    {
      Promises(Some(next), next + 1, settled)
    }

    /** `resolve()` or `reject(e)` of promise `p`: a settled promise ignores
        it. The `finally` of `connect()` then forgets the promise. */
    function Settle(p: nat, o: Outcome<Failure>): (r: Promises)
      requires Valid() && p < next
      ensures r.Valid() && r.next == next
      ensures p in r.settled && r.settled[p] == if p in settled then settled[p] else o
      ensures forall q :: q in settled ==> q in r.settled && r.settled[q] == settled[q]
      ensures forall q :: q in r.settled ==> q == p || q in settled
      ensures r.inFlight == if inFlight == Some(p) then None else inFlight
    {
      if p in settled then this
      else Promises(if inFlight == Some(p) then None else inFlight, next, settled[p := o])
    }
  }

  /** A promise keeps the outcome it settled with first. */
  lemma {:induction false} SettleKeepsFirst(ps: Promises, p: nat, first: Outcome<Failure>, later: Outcome<Failure>)
    requires ps.Valid() && p < ps.next && p !in ps.settled
    ensures ps.Settle(p, first).Settle(p, later) == ps.Settle(p, first)
    ensures ps.Settle(p, first).Settle(p, later).settled[p] == first
  {
    var once := ps.Settle(p, first);
    assert p in once.settled;
  }

  /** Single flight: while a promise is in flight it has not settled, and
      settling it ends the flight. */
  lemma {:induction false} SettlingEndsFlight(ps: Promises, o: Outcome<Failure>)
    requires ps.Valid() && ps.inFlight.Some?
    ensures ps.inFlight.value !in ps.settled
    ensures ps.Settle(ps.inFlight.value, o).inFlight == None
    ensures ps.Settle(ps.inFlight.value, o).settled[ps.inFlight.value] == o
  {
    assert ps.inFlight.value < ps.next;
  }

  /** The connect timeouts: `latest` is `this.connectTimeout`, `armed` maps
      each armed timeout to the socket it watches. */
  datatype ConnectTimeouts = ConnectTimeouts(latest: Option<nat>, armed: map<nat, ConnectTimer>, next: nat) {
    ghost predicate Valid() {
      && (forall t :: t in armed ==> t < next)
      && (latest.Some? ==> latest.value < next)
    }

    /** `setTimeout(...)` of a new connect timeout, stored as the latest. */
    function Arm(socket: nat, due: int): (r: ConnectTimeouts)
      requires Valid()
      ensures r.Valid() && r.latest == Some(next) && next !in armed
      ensures r.armed == armed[next := ConnectTimer(socket, due)]
    {
      ConnectTimeouts(Some(next), armed[next := ConnectTimer(socket, due)], next + 1)
    }

    /** `clearConnectTimeout()`: clears the latest timeout only. */
    function ClearLatest(): (r: ConnectTimeouts)
      requires Valid()
      ensures r.Valid() && r.latest == None && r.next == next
      ensures r.armed == if latest.Some? then armed - {latest.value} else armed
    {
      ConnectTimeouts(None, if latest.Some? then armed - {latest.value} else armed, next)
    }

    /** Timeout `t` runs; `this.connectTimeout` keeps its handle. */
    function Ran(t: nat): (r: ConnectTimeouts)
      requires Valid()
      ensures r.Valid() && r.latest == latest && r.next == next && r.armed == armed - {t}
    {
      ConnectTimeouts(latest, armed - {t}, next)
    }
  }

  /** The timeout a socket arms is the one its handlers clear, unless a
      newer socket armed another in between: clearing then leaves the older
      timeout armed. */
  lemma {:induction false} ClearingHitsLatestOnly(ts: ConnectTimeouts, a: nat, b: nat, due: int, due2: int)
    requires ts.Valid()
    ensures ts.Arm(a, due).ClearLatest().armed == ts.armed
    ensures var older := ts.Arm(a, due);
      && older.next !in older.Arm(b, due2).ClearLatest().armed
      && ts.next in older.Arm(b, due2).ClearLatest().armed
  {
    assert ts.next !in ts.armed;
    var older := ts.Arm(a, due);
    assert older.next != ts.next;
  }

  /** `onStateChange` has been called exactly on each change of state, with
      the new state. */
  ghost predicate Notified(ns: seq<State>, state: State) {
    && (ns == [] ==> state == Disconnected)
    && (ns != [] ==> ns[0] != Disconnected && ns[|ns| - 1] == state)
    && (forall i :: 0 < i < |ns| ==> ns[i - 1] != ns[i])
  }

  /** The waiting promises that have not settled, in order. */
  function Unsettled(waiters: seq<nat>, settled: map<nat, Outcome<Failure>>): seq<nat> {
    if waiters == [] then []
    else
      var rest := Unsettled(waiters[..|waiters| - 1], settled);
      var p := waiters[|waiters| - 1];
      if p in settled then rest else rest + [p]
  }

  /** Whether each settled waiting promise succeeded, in order. */
  function SettledOutcomes(waiters: seq<nat>, settled: map<nat, Outcome<Failure>>): seq<bool> {
    if waiters == [] then []
    else
      var rest := SettledOutcomes(waiters[..|waiters| - 1], settled);
      var p := waiters[|waiters| - 1];
      if p in settled then rest + [settled[p].Pass?] else rest
  }

  /** One more waiter: it either settled and adds its outcome, or keeps
      waiting. */
  lemma WaitersStep(waiters: seq<nat>, settled: map<nat, Outcome<Failure>>, i: nat)
    requires i < |waiters|
    ensures var p := waiters[i];
      && Unsettled(waiters[..i + 1], settled) == Unsettled(waiters[..i], settled) + (if p in settled then [] else [p])
      && SettledOutcomes(waiters[..i + 1], settled)
         == SettledOutcomes(waiters[..i], settled) + (if p in settled then [settled[p].Pass?] else [])
  {
    assert waiters[..i + 1][..i] == waiters[..i];
  }

  /** Every waiter that has settled gets one continuation, and only those
      that have not settled keep waiting. */
  lemma {:induction false} ContinuationsSplitWaiters(waiters: seq<nat>, settled: map<nat, Outcome<Failure>>)
    ensures |Unsettled(waiters, settled)| + |SettledOutcomes(waiters, settled)| == |waiters|
    ensures forall p :: p in Unsettled(waiters, settled) <==> p in waiters && p !in settled
  {
    if waiters != [] {
      ContinuationsSplitWaiters(waiters[..|waiters| - 1], settled);
      assert waiters == waiters[..|waiters| - 1] + [waiters[|waiters| - 1]];
    }
  }

  class ConnectionManager {
    const config: NapLinkConfig
    var state: State
    /** Calls of `onStateChange`. */
    ghost var notifications: seq<State>
    var sockets: seq<Socket>
    /** `this.ws`: the index of the socket the manager holds. */
    var ws: Option<nat>
    var promises: Promises
    var timeouts: ConnectTimeouts
    const reconnect: ReconnectService
    var heartbeat: HeartbeatService?
    /** Every heartbeat service created; one the manager no longer holds
        keeps ticking until it is stopped. */
    ghost var services: set<HeartbeatService>
    /** Connect promises awaited by reconnect timers that have run. */
    var waiters: seq<nat>
    /** The outcomes the reconnect continuations saw. */
    ghost var continuations: seq<bool>
    /** Calls of `onMessage`. */
    ghost var messages: seq<string>

    ghost predicate Valid()
      reads this, reconnect, heartbeat
    {
      && reconnect.Valid() && reconnect.config == config.reconnect
      && (heartbeat != null ==> heartbeat in services && heartbeat.Valid())
      && (services == {} || HeartbeatInterval(config.connection).Some?)
      && promises.Valid() && timeouts.Valid()
      && (ws.Some? ==> ws.value < |sockets|)
      && (forall i :: 0 <= i < |sockets| ==> sockets[i].promise < promises.next)
      && (forall t :: t in timeouts.armed ==> timeouts.armed[t].socket < |sockets|)
      && Notified(notifications, state)
    }

    constructor(config: NapLinkConfig)
      ensures Valid() && this.config == config && fresh(reconnect)
      ensures state == Disconnected && notifications == [] && sockets == [] && ws == None
      ensures promises == Promises(None, 0, map[]) && timeouts == ConnectTimeouts(None, map[], 0)
      ensures heartbeat == null && services == {} && waiters == [] && continuations == [] && messages == []
      ensures reconnect.currentAttempt == 0 && reconnect.armed == map[]
    {
      this.config := config;
      state := Disconnected;
      notifications := [];
      sockets := [];
      ws := None;
      promises := Promises(None, 0, map[]);
      timeouts := ConnectTimeouts(None, map[], 0);
      reconnect := new ReconnectService(config.reconnect);
      heartbeat := null;
      services := {};
      waiters := [];
      continuations := [];
      messages := [];
    }

    /** `isConnected()`: while it holds, `send` finds the held socket open. */
    predicate IsConnected()
      reads this
      ensures IsConnected() ==> ws.Some? && ws.value < |sockets| && sockets[ws.value].readyState == SocketOpen
      ensures state != Connected ==> !IsConnected()
    {
      state == Connected && ws.Some? && ws.value < |sockets| && sockets[ws.value].readyState == SocketOpen
    }

    /** `setState`: the observer hears of changes only. */
    method SetState(s: State)
      requires Valid()
      modifies this`state, this`notifications
      ensures Valid()
      ensures state == s
      ensures notifications == old(notifications) + if old(state) != s then [s] else []
    {
      if state != s {
        state := s;
        notifications := notifications + [s];
      }
    }

    /** `stopHeartbeat()` */
    method StopHeartbeat()
      requires Valid()
      modifies this`heartbeat, heartbeat
      ensures Valid() && heartbeat == null
      ensures old(heartbeat) != null ==> !old(heartbeat).IsActive() && old(heartbeat).Valid()
                                         && old(heartbeat).missedPings == old(heartbeat.missedPings)
    {
      if heartbeat != null {
        heartbeat.Stop();
        heartbeat := null;
      }
    }

    /** The `startHeartbeat` dependency of the open handler: the new service
        replaces the held one, which is not stopped. */
    method StartHeartbeat(now: int)
      requires Valid()
      modifies this`heartbeat, this`services
      ensures Valid()
      ensures HeartbeatInterval(config.connection).None? ==> heartbeat == null && services == old(services)
      ensures HeartbeatInterval(config.connection).Some? ==>
        && heartbeat != null && fresh(heartbeat) && services == old(services) + {heartbeat}
        && heartbeat.interval == HeartbeatInterval(config.connection).value
        && heartbeat.IsActive() && heartbeat.lastPongTime == now && heartbeat.missedPings == 0
    {
      var interval := HeartbeatInterval(config.connection);
      if interval.None? {
        heartbeat := null;
      } else {
        var h := new HeartbeatService(interval.value);
        h.Start(now);
        services := services + {h};
        heartbeat := h;
      }
    }

    /** `send(data)`: only an open socket takes data. `sendError` is what
        the socket library's own `send` throws, if it throws. */
    method Send(data: Value, sendError: Option<Failure>) returns (r: Outcome<Failure>)
      requires Valid()
      modifies this`sockets
      ensures Valid()
      ensures r.Pass? <==> ws.Some? && old(sockets)[ws.value].readyState == SocketOpen && sendError.None?
      ensures r.Pass? ==> sockets == old(sockets)[ws.value := Transmitted(old(sockets)[ws.value], data)]
      ensures r.Fail? ==> sockets == old(sockets)
      ensures !(ws.Some? && sockets[ws.value].readyState == SocketOpen) ==>
        r == Fail(ConnectionClosedError(NotOpenCode(if ws.Some? then Some(sockets[ws.value].readyState) else None), NotOpenReason))
      ensures ws.Some? && sockets[ws.value].readyState == SocketOpen && sendError.Some? ==> r == Fail(sendError.value)
    {
      if ws.None? || sockets[ws.value].readyState != SocketOpen {
        return Fail(ConnectionClosedError(NotOpenCode(if ws.Some? then Some(sockets[ws.value].readyState) else None), NotOpenReason));
      }
      if sendError.Some? {
        return Fail(sendError.value);
      }
      sockets := sockets[ws.value := Transmitted(sockets[ws.value], data)];
      r := Pass;
    }

    /** `connect()`: while an attempt is in flight every caller gets its
        promise; otherwise a new attempt starts (`performConnect`). A socket
        that cannot be created fails the attempt at once, and the socket held
        before stays; a new socket is held and its connect timeout armed. */
    method Connect(createError: Option<Value>, now: int) returns (p: nat)
      requires Valid()
      modifies this`state, this`notifications, this`promises, this`sockets, this`ws, this`timeouts
      ensures Valid()
      ensures old(promises.inFlight).Some? ==>
        p == old(promises.inFlight).value && state == old(state) && notifications == old(notifications)
        && promises == old(promises) && sockets == old(sockets) && ws == old(ws) && timeouts == old(timeouts)
      ensures old(promises.inFlight).None? ==>
        p == old(promises.next) && state == Connecting
        && notifications == old(notifications) + if old(state) != Connecting then [Connecting] else []
      ensures old(promises.inFlight).None? && createError.Some? ==>
        && promises == old(promises).Start().Settle(p, Fail(ConnectionError(CreateFailedText, createError)))
        && sockets == old(sockets) && ws == old(ws) && timeouts == old(timeouts)
      ensures old(promises.inFlight).None? && createError.None? ==>
        && promises == old(promises).Start()
        && sockets == old(sockets) + [Socket(BuildWebSocketUrl(config.connection), SocketConnecting, [], [], p)]
        && ws == Some(|old(sockets)|)
        && timeouts == old(timeouts).Arm(|old(sockets)|, now + TimerDelay(Some(ConnectTimeoutMs(config.connection))))
    {
      if promises.inFlight.Some? {
        return promises.inFlight.value;
      }
      SetState(Connecting);
      p := promises.next;
      if createError.Some? {
        promises := promises.Start().Settle(p, Fail(ConnectionError(CreateFailedText, createError)));
      } else {
        var i := |sockets|;
        promises, sockets, ws, timeouts :=
          promises.Start(),
          sockets + [Socket(BuildWebSocketUrl(config.connection), SocketConnecting, [], [], p)],
          Some(i),
          timeouts.Arm(i, now + TimerDelay(Some(ConnectTimeoutMs(config.connection))));
      }
    }

    /** `disconnect(code, reason)`: cancels the latest reconnect timer, stops
        the heartbeat, closes and drops the held socket and ends disconnected.
        A `close` that throws is caught. Pending requests and the connect
        attempt are left alone. */
    method Disconnect(code: int := NormalClosure, reason: string := "正常关闭", closeThrows: bool := false)
      requires Valid()
      modifies this`heartbeat, this`sockets, this`ws, this`state, this`notifications, reconnect, heartbeat
      ensures Valid()
      ensures state == Disconnected && ws == None && heartbeat == null && !IsConnected()
      ensures notifications == old(notifications) + if old(state) != Disconnected then [Disconnected] else []
      ensures old(heartbeat) != null ==> !old(heartbeat).IsActive() && old(heartbeat).Valid()
                                         && old(heartbeat).missedPings == old(heartbeat.missedPings)
      ensures reconnect.reconnectTimer == None
      ensures reconnect.armed == if old(reconnect.reconnectTimer).Some? then old(reconnect.armed) - {old(reconnect.reconnectTimer).value}
                                 else old(reconnect.armed)
      ensures reconnect.currentAttempt == old(reconnect.currentAttempt) && reconnect.backoffMs == old(reconnect.backoffMs)
      ensures sockets == if old(ws).Some? && !closeThrows
                         then old(sockets)[old(ws).value := AfterClose(old(sockets)[old(ws).value], CloseCall(Some(code), Some(reason)))]
                         else old(sockets)
    {
      reconnect.Cancel();
      StopHeartbeat();
      if ws.Some? {
        if !closeThrows {
          sockets := sockets[ws.value := AfterClose(sockets[ws.value], CloseCall(Some(code), Some(reason)))];
        }
        ws := None;
      }
      SetState(Disconnected);
    }

    /** The open handler of socket `s`. It clears whatever connect timeout
        the manager holds and leaves an earlier heartbeat service running. */
    method OnOpen(s: nat, now: int)
      requires Valid() && s < |sockets|
      modifies this`sockets, this`timeouts, this`state, this`notifications, this`heartbeat, this`services,
               this`promises, reconnect
      ensures Valid()
      ensures sockets == old(sockets)[s := old(sockets)[s].(readyState := SocketOpen)]
      ensures timeouts == old(timeouts).ClearLatest()
      ensures state == Connected && (old(ws) == Some(s) ==> IsConnected())
      ensures reconnect.currentAttempt == 0 && reconnect.backoffMs == config.reconnect.backoff.initial
      ensures reconnect.reconnectTimer == None
      ensures HeartbeatInterval(config.connection).Some? <==> heartbeat != null
      ensures heartbeat != null ==> fresh(heartbeat) && heartbeat.IsActive() && services == old(services) + {heartbeat}
      ensures promises == old(promises).Settle(old(sockets)[s].promise, Pass)
      ensures notifications == old(notifications) + if old(state) != Connected then [Connected] else []
      ensures reconnect.Current() == Restarted(config.reconnect, old(reconnect.Current()))
    {
      var p := sockets[s].promise;
      sockets, timeouts := sockets[s := sockets[s].(readyState := SocketOpen)], timeouts.ClearLatest();
      SetState(Connected);
      reconnect.Reset();
      StartHeartbeat(now);
      promises := promises.Settle(p, Pass);
    }

    /** The error handler of socket `s`. */
    method OnError(s: nat, event: Value)
      requires Valid() && s < |sockets|
      modifies this`timeouts, this`promises
      ensures Valid()
      ensures timeouts == old(timeouts).ClearLatest()
      ensures promises == old(promises).Settle(sockets[s].promise, Fail(ConnectionError(SocketErrorText, Some(event))))
    {
      timeouts := timeouts.ClearLatest();
      promises := promises.Settle(sockets[s].promise, Fail(ConnectionError(SocketErrorText, Some(event))));
    }

    /** `handleReconnect`, without the exhaustion callback the manager does
        not pass: RECONNECTING and an armed reconnect while attempts remain
        and reconnecting is enabled, DISCONNECTED otherwise. */
    method HandleReconnect(now: int) returns (scheduled: bool)
      requires Valid()
      modifies this`state, this`notifications, reconnect
      ensures Valid()
      ensures scheduled <==> config.reconnect.enabled && old(reconnect.currentAttempt) < config.reconnect.maxAttempts
      ensures state == if scheduled then Reconnecting else Disconnected
      ensures scheduled ==>
        && reconnect.currentAttempt == old(reconnect.currentAttempt) + 1
        && reconnect.armed == old(reconnect.armed)[old(reconnect.nextTimer) := now + TimerDelay(Some(old(reconnect.backoffMs)))]
      ensures !scheduled ==> reconnect.currentAttempt == old(reconnect.currentAttempt) && reconnect.armed == old(reconnect.armed)
      ensures notifications == old(notifications) + ReconnectNotices(old(state), old(reconnect.HasRemainingAttempts()), scheduled)
      ensures reconnect.Current() == Scheduled(config.reconnect, old(reconnect.Current()), now)
    {
      var remaining := reconnect.HasRemainingAttempts();
      if !remaining {
        SetState(Disconnected);
        scheduled := false;
      } else {
        SetState(Reconnecting);
        scheduled := reconnect.Schedule(now);
        if !scheduled {
          SetState(Disconnected);
        }
      }
    }

    /** The close handler of socket `s` (`handleCloseEvent`). It reconnects
        iff the code is not 1000, the manager was not disconnected,
        reconnecting is enabled and attempts remain. The connect promise is
        not settled here. */
    method OnClose(s: nat, code: int, now: int) returns (scheduled: bool)
      requires Valid() && s < |sockets|
      modifies this`sockets, this`timeouts, this`heartbeat, this`state, this`notifications, heartbeat, reconnect
      ensures Valid()
      ensures sockets == old(sockets)[s := old(sockets)[s].(readyState := SocketClosed)]
      ensures timeouts == old(timeouts).ClearLatest() && heartbeat == null
      ensures old(heartbeat) != null ==> !old(heartbeat).IsActive()
      ensures scheduled <==> code != NormalClosure && old(state) != Disconnected
                             && config.reconnect.enabled && old(reconnect.currentAttempt) < config.reconnect.maxAttempts
      ensures state == (if scheduled then Reconnecting else Disconnected) && !IsConnected()
      ensures scheduled ==>
        && reconnect.currentAttempt == old(reconnect.currentAttempt) + 1
        && reconnect.armed == old(reconnect.armed)[old(reconnect.nextTimer) := now + TimerDelay(Some(old(reconnect.backoffMs)))]
      ensures !scheduled ==> reconnect.currentAttempt == old(reconnect.currentAttempt) && reconnect.armed == old(reconnect.armed)
      ensures code == NormalClosure || old(state) == Disconnected ==>
        notifications == old(notifications) + if old(state) != Disconnected then [Disconnected] else []
      ensures code != NormalClosure && old(state) != Disconnected ==>
        notifications == old(notifications) + ReconnectNotices(old(state), old(reconnect.HasRemainingAttempts()), scheduled)
      ensures code != NormalClosure && old(state) != Disconnected ==>
        reconnect.Current() == Scheduled(config.reconnect, old(reconnect.Current()), now)
      ensures code == NormalClosure || old(state) == Disconnected ==> reconnect.Current() == old(reconnect.Current())
    {
      sockets, timeouts := sockets[s := sockets[s].(readyState := SocketClosed)], timeouts.ClearLatest();
      StopHeartbeat();
      if code == NormalClosure || state == Disconnected {
        SetState(Disconnected);
        scheduled := false;
      } else {
        scheduled := HandleReconnect(now);
      }
    }

    /** The message handler of socket `s`: any frame counts as a pong of the
        held heartbeat service, then the frame is handed on. */
    method OnMessage(s: nat, data: string, now: int)
      requires Valid() && s < |sockets|
      modifies this`messages, heartbeat
      ensures Valid()
      ensures messages == old(messages) + [data]
      ensures heartbeat != null ==> heartbeat.lastPongTime == now && heartbeat.missedPings == 0
                                    && heartbeat.timer == old(heartbeat.timer)
    {
      if heartbeat != null {
        heartbeat.RecordPong(now);
      }
      messages := messages + [data];
    }

    /** Connect timeout `t` runs: a socket that is not open is closed and its
        attempt fails. */
    method OnConnectTimeout(t: nat, now: int)
      requires Valid() && t in timeouts.armed && timeouts.armed[t].due <= now
      modifies this`timeouts, this`sockets, this`promises
      ensures Valid()
      ensures timeouts == old(timeouts).Ran(t)
      ensures var i := old(timeouts).armed[t].socket;
        if old(sockets)[i].readyState != SocketOpen then
          && sockets == old(sockets)[i := AfterClose(old(sockets)[i], CloseCall(None, None))]
          && promises == old(promises).Settle(old(sockets)[i].promise,
                           Fail(ConnectionError(TimeoutText(ConnectTimeoutMs(config.connection)), None)))
        else sockets == old(sockets) && promises == old(promises)
    {
      var i := timeouts.armed[t].socket;
      timeouts := timeouts.Ran(t);
      if sockets[i].readyState != SocketOpen {
        sockets := sockets[i := AfterClose(sockets[i], CloseCall(None, None))];
        promises := promises.Settle(sockets[i].promise, Fail(ConnectionError(TimeoutText(ConnectTimeoutMs(config.connection)), None)));
      }
    }

    /** Reconnect timer `id` runs and calls `connect()`; its continuation
        waits for the promise it got. */
    method OnReconnectTimer(id: nat, createError: Option<Value>, now: int) returns (p: nat)
      requires Valid() && id in reconnect.armed && reconnect.armed[id] <= now
      modifies this`state, this`notifications, this`promises, this`sockets, this`ws, this`timeouts, this`waiters, reconnect
      ensures Valid()
      ensures reconnect.armed == old(reconnect.armed) - {id}
      ensures reconnect.Current() == old(reconnect.Current()).(armed := old(reconnect.armed) - {id})
      ensures waiters == old(waiters) + [p]
      ensures old(promises.inFlight).Some? ==>
        p == old(promises.inFlight).value && state == old(state) && notifications == old(notifications)
        && promises == old(promises) && sockets == old(sockets) && ws == old(ws) && timeouts == old(timeouts)
      ensures old(promises.inFlight).None? ==>
        p == old(promises.next) && state == Connecting
        && notifications == old(notifications) + if old(state) != Connecting then [Connecting] else []
      ensures old(promises.inFlight).None? && createError.Some? ==>
        && promises == old(promises).Start().Settle(p, Fail(ConnectionError(CreateFailedText, createError)))
        && sockets == old(sockets) && ws == old(ws) && timeouts == old(timeouts)
      ensures old(promises.inFlight).None? && createError.None? ==>
        && promises == old(promises).Start()
        && sockets == old(sockets) + [Socket(BuildWebSocketUrl(config.connection), SocketConnecting, [], [], p)]
        && ws == Some(|old(sockets)|)
        && timeouts == old(timeouts).Arm(|old(sockets)|, now + TimerDelay(Some(ConnectTimeoutMs(config.connection))))
    {
      reconnect.Fire(id, now);
      p := Connect(createError, now);
      waiters := waiters + [p];
    }

    /** A microtask checkpoint: every reconnect continuation whose promise
        has settled runs. Success resets the reconnect state; failure raises
        the backoff and schedules again. */
    method RunContinuations(now: int)
      requires Valid()
      modifies this`waiters, this`continuations, reconnect
      ensures Valid()
      ensures waiters == Unsettled(old(waiters), promises.settled)
      ensures continuations == old(continuations) + SettledOutcomes(old(waiters), promises.settled)
      ensures reconnect.Current() ==
        SettledAll(config.reconnect, old(reconnect.Current()), SettledOutcomes(old(waiters), promises.settled), now)
    {
      var waiting := waiters;
      var settled := promises.settled;
      ghost var start := reconnect.Current();
      ghost var seen: seq<bool> := [];
      var rest: seq<nat> := [];
      var i := 0;
      while i < |waiting|
        invariant 0 <= i <= |waiting|
        invariant Valid() && waiters == waiting
        invariant rest == Unsettled(waiting[..i], settled) && seen == SettledOutcomes(waiting[..i], settled)
        invariant continuations == old(continuations) + seen
        invariant reconnect.Current() == SettledAll(config.reconnect, start, seen, now)
      {
        var p := waiting[i];
        WaitersStep(waiting, settled, i);
        if p in settled {
          var ok := settled[p].Pass?;
          SettledAllStep(config.reconnect, start, seen, ok, now);
          RunContinuation(ok, now);
          seen := seen + [ok];
        } else {
          rest := rest + [p];
        }
        i := i + 1;
      }
      assert waiting[..i] == waiting;
      waiters := rest;
    }

    /** One reconnect continuation, which saw the outcome `ok`. */
    method RunContinuation(ok: bool, now: int)
      requires Valid()
      modifies this`continuations, reconnect
      ensures Valid()
      ensures continuations == old(continuations) + [ok]
      ensures reconnect.Current() == Settled(config.reconnect, old(reconnect.Current()), ok, now)
    {
      reconnect.AttemptSettled(ok, now);
      continuations := continuations + [ok];
    }

    /** Interval `id` of heartbeat service `h` ticks: a ping goes out through
        `send` (a failure is caught), or after the third miss the manager
        disconnects with code 4000. */
    method OnHeartbeatTick(h: HeartbeatService, id: nat, now: int, sendError: Option<Failure>, closeThrows: bool)
      returns (action: TickAction)
      requires Valid() && h in services && h.Valid() && id in h.armed
      modifies h, this`heartbeat, this`sockets, this`ws, this`state, this`notifications, reconnect, heartbeat
      ensures Valid() && h.Valid()
      ensures (h.missedPings, action) == TickStep(old(h.missedPings), now - old(h.lastPongTime), h.interval)
      ensures action == Ping ==>
        && ws == old(ws) && state == old(state)
        && sockets == if ws.Some? && old(sockets)[ws.value].readyState == SocketOpen && sendError.None?
                      then old(sockets)[ws.value := Transmitted(old(sockets)[ws.value], PingPayload(config.connection.heartbeatAction.value, now))]
                      else old(sockets)
      ensures action == TimedOut ==> !h.IsActive() && state == Disconnected && ws == None && heartbeat == null
      ensures action == TimedOut ==>
        && sockets == (if old(ws).Some? && !closeThrows
                       then old(sockets)[old(ws).value := AfterClose(old(sockets)[old(ws).value],
                                                                     CloseCall(Some(HeartbeatTimeoutCode), Some(HeartbeatTimeoutReason)))]
                       else old(sockets))
        && reconnect.reconnectTimer == None
        && reconnect.armed == (if old(reconnect.reconnectTimer).Some? then old(reconnect.armed) - {old(reconnect.reconnectTimer).value}
                               else old(reconnect.armed))
        && reconnect.currentAttempt == old(reconnect.currentAttempt) && reconnect.backoffMs == old(reconnect.backoffMs)
    {
      action := h.Tick(id, now);
      if action == Ping {
        var _ := Send(PingPayload(config.connection.heartbeatAction.value, now), sendError);
      } else {
        Disconnect(HeartbeatTimeoutCode, HeartbeatTimeoutReason, closeThrows);
      }
    }
  }
}
