/** The table of requests awaiting a response (src/core/api/response-registry.ts).
    `pending` is the Map's content and `order` its insertion order, which is
    the order `clearAll` and `cleanupStale` visit it in. Timers are handles in
    `timers`; a request's continuations are represented by its promise number,
    and each call of one is recorded in the `effects` log. */
module ResponseRegistry {
  import opened Base
  import opened Json
  import opened Errors

  /** What the caller registers: the promise to settle, the API action and
      the request's own re-arm timeout (absent for the client's requests). */
  datatype Request = Request(promise: nat, action: string, createdAt: int, timeoutMs: Option<int>)

  datatype Pending = Pending(request: Request, timer: nat)

  /** An armed timeout: whom it deletes, whom it rejects, and with what. */
  datatype Timer = Timer(echo: string, promise: nat, action: string, timeout: Option<int>, due: int)

  datatype Effect =
    | Resolved(promise: nat, data: Option<Value>)
    | Rejected(promise: nat, error: Failure)
    | Stale(action: string, echo: string)

  predicate Distinct(s: seq<string>) {
    forall i, j :: 0 <= i < j < |s| ==> s[i] != s[j]
  }

  /** `s` with `x` taken out, the others in order. */
  function Without(s: seq<string>, x: string): seq<string> {
    if s == [] then [] else (if s[0] == x then [] else [s[0]]) + Without(s[1..], x)
  }

  lemma {:induction false} WithoutMembers(s: seq<string>, x: string)
    ensures forall y :: y in Without(s, x) <==> y in s && y != x
  {
    if s != [] {
      WithoutMembers(s[1..], x);
      assert s == [s[0]] + s[1..];
    }
  }

  /** Taking an element out keeps a duplicate-free order duplicate-free and
      takes out exactly that element. */
  lemma {:induction false} WithoutDistinct(s: seq<string>, x: string)
    requires Distinct(s)
    ensures Distinct(Without(s, x))
    ensures forall y :: y in Without(s, x) <==> y in s && y != x
  {
    WithoutMembers(s, x);
    if s != [] {
      WithoutDistinct(s[1..], x);
      WithoutMembers(s[1..], x);
      var r := Without(s, x);
      var t := Without(s[1..], x);
      if s[0] != x {
        assert r == [s[0]] + t;
        assert s[0] !in t;
      }
    }
  }

  lemma {:induction false} WithoutAbsent(s: seq<string>, x: string)
    requires x !in s
    ensures Without(s, x) == s
  {
    if s != [] {
      WithoutAbsent(s[1..], x);
    }
  }

  lemma {:induction false} WithoutConcat(a: seq<string>, b: seq<string>, x: string)
    ensures Without(a + b, x) == Without(a, x) + Without(b, x)
  {
    if a != [] {
      assert (a + b)[1..] == a[1..] + b;
      WithoutConcat(a[1..], b, x);
    } else {
      assert a + b == b;
    }
  }

  predicate IsStale(p: Pending, now: int, maxAge: int) {
    now - p.request.createdAt > maxAge
  }

  /** The continuation calls of `clearAll`, in visiting order. */
  function RejectAll(order: seq<string>, pending: map<string, Pending>, reason: string): seq<Effect>
    requires forall e :: e in order ==> e in pending
  {
    if order == [] then []
    else
      var e := order[|order| - 1];
      RejectAll(order[..|order| - 1], pending, reason) + [Rejected(pending[e].request.promise, PlainError(reason))]
  }

  /** The timers of the entries of `order`. */
  function TimersOf(order: seq<string>, pending: map<string, Pending>): set<nat>
    requires forall e :: e in order ==> e in pending
  {
    if order == [] then {}
    else TimersOf(order[..|order| - 1], pending) + {pending[order[|order| - 1]].timer}
  }

  /** `clearAll` rejects every pending request once, in insertion order, with
      the same reason. */
  lemma {:induction false} RejectAllRejectsEach(order: seq<string>, pending: map<string, Pending>, reason: string)
    requires forall e :: e in order ==> e in pending
    ensures |RejectAll(order, pending, reason)| == |order|
    ensures forall i :: 0 <= i < |order| ==>
      RejectAll(order, pending, reason)[i] == Rejected(pending[order[i]].request.promise, PlainError(reason))
  {
    if order != [] {
      var init := order[..|order| - 1];
      RejectAllRejectsEach(init, pending, reason);
    }
  }

  /** The continuation calls of `cleanupStale`: for each stale entry, the stale
      notice and then the timeout rejection. */
  function StaleEffects(order: seq<string>, pending: map<string, Pending>, now: int, maxAge: int): seq<Effect> {
    if order == [] then []
    else
      var e := order[|order| - 1];
      StaleEffects(order[..|order| - 1], pending, now, maxAge) +
        if e in pending && IsStale(pending[e], now, maxAge) then StaleEffectsOf(pending[e], e, maxAge) else []
  }

  /** The stale notice, then the timeout rejection. */
  function StaleEffectsOf(p: Pending, echo: string, maxAge: int): seq<Effect> {
    [Stale(p.request.action, echo), Rejected(p.request.promise, ApiTimeoutError(p.request.action, Some(maxAge / 2)))]
  }

  /** The entries of `order` that `cleanupStale` keeps. */
  function KeepFresh(order: seq<string>, pending: map<string, Pending>, now: int, maxAge: int): seq<string> {
    if order == [] then []
    else
      var e := order[|order| - 1];
      KeepFresh(order[..|order| - 1], pending, now, maxAge) +
        if e in pending && IsStale(pending[e], now, maxAge) then [] else [e]
  }

  /** `cleanupStale` keeps exactly the entries that are not stale. */
  lemma {:induction false} KeepFreshMembers(order: seq<string>, pending: map<string, Pending>, now: int, maxAge: int)
    ensures forall e :: e in KeepFresh(order, pending, now, maxAge) <==> e in order && !(e in pending && IsStale(pending[e], now, maxAge))
  {
    if order != [] {
      assert order == order[..|order| - 1] + [order[|order| - 1]];
      KeepFreshMembers(order[..|order| - 1], pending, now, maxAge);
    }
  }

  function StaleTimers(order: seq<string>, pending: map<string, Pending>, now: int, maxAge: int): set<nat> {
    if order == [] then {}
    else
      var e := order[|order| - 1];
      StaleTimers(order[..|order| - 1], pending, now, maxAge) +
        if e in pending && IsStale(pending[e], now, maxAge) then {pending[e].timer} else {}
  }

  /** Each stale entry yields exactly two effects, and the kept ones none. */
  lemma {:induction false} StaleEffectsCount(order: seq<string>, pending: map<string, Pending>, now: int, maxAge: int)
    ensures |StaleEffects(order, pending, now, maxAge)| == 2 * (|order| - |KeepFresh(order, pending, now, maxAge)|)
  {
    if order != [] {
      StaleEffectsCount(order[..|order| - 1], pending, now, maxAge);
    }
  }

  class Registry {
    var pending: map<string, Pending>
    var order: seq<string>
    var timers: map<nat, Timer>
    var nextTimer: nat
    ghost var effects: seq<Effect>

    ghost predicate Valid()
      reads this
    {
      && Distinct(order)
      && (forall e :: e in order <==> e in pending)
      && (forall t :: t in timers ==> t < nextTimer)
    }

    /** Every armed timer belongs to the entry it would delete, and every entry
        has its timer armed: nothing leaks. */
    ghost predicate Tidy()
      reads this
    {
      TidyMaps(pending, timers)
    }

    constructor()
      ensures Valid() && Tidy()
      ensures pending == map[] && order == [] && timers == map[] && effects == []
    {
      pending := map[];
      order := [];
      timers := map[];
      nextTimer := 0;
      effects := [];
    }

    /** Records how a promise was settled; the table itself is untouched. */
    method Record(e: Effect)
      requires Valid() && Tidy()
      modifies this`effects
      ensures Valid() && Tidy()
      ensures effects == old(effects) + [e]
    {
      effects := effects + [e];
    }

    /** Arms the timeout and stores the entry; an entry already under `echo`
        is replaced in place and its timer is left armed. */
    method Add(echo: string, request: Request, timeout: int, now: int) returns (entry: Pending)
      requires Valid()
      modifies this
      ensures Valid()
      ensures entry == Pending(request, old(nextTimer)) && old(nextTimer) !in old(timers)
      ensures pending == old(pending)[echo := entry]
      ensures Get(echo) == Some(entry)
      ensures order == if echo in old(pending) then old(order) else old(order) + [echo]
      ensures timers == old(timers)[entry.timer := Timer(echo, request.promise, request.action, Some(timeout), now + TimerDelay(Some(timeout)))]
      ensures effects == old(effects)
      ensures old(Tidy()) && echo !in old(pending) ==> Tidy()
    {
      entry := Pending(request, nextTimer);
      timers := timers[nextTimer := Timer(echo, request.promise, request.action, Some(timeout), now + TimerDelay(Some(timeout)))];
      nextTimer := nextTimer + 1;
      if echo !in pending {
        order := order + [echo];
      }
      pending := pending[echo := entry];
    }

    function Get(echo: string): (r: Option<Pending>)
      reads this
      ensures r.Some? <==> echo in pending
      ensures r.Some? ==> r.value == pending[echo]
    {
      if echo in pending then Some(pending[echo]) else None
    }

    /** Restarts an entry's timeout from `now`, with the entry's own
        `timeoutMs`. */
    method Refresh(echo: string, now: int) returns (found: bool)
      requires Valid()
      modifies this
      ensures Valid()
      ensures found <==> echo in old(pending)
      ensures !found ==> pending == old(pending) && timers == old(timers)
      ensures found ==>
        var req := old(pending)[echo].request;
        && pending == old(pending)[echo := Pending(req.(createdAt := now), old(nextTimer))]
        && old(nextTimer) !in old(timers)
        && timers == (old(timers) - {old(pending)[echo].timer})[old(nextTimer) :=
             Timer(echo, req.promise, req.action, req.timeoutMs, now + TimerDelay(req.timeoutMs))]
      ensures order == old(order) && effects == old(effects)
      ensures old(Tidy()) ==> Tidy()
    {
      if echo !in pending {
        return false;
      }
      ghost var wasTidy := Tidy();
      var req := pending[echo];
      timers := timers - {req.timer};
      var request := req.request.(createdAt := now);
      timers := timers[nextTimer := Timer(echo, request.promise, request.action, request.timeoutMs, now + TimerDelay(request.timeoutMs))];
      pending := pending[echo := Pending(request, nextTimer)];
      nextTimer := nextTimer + 1;
      found := true;
      if wasTidy {
        RefreshKeepsTidy(old(pending), old(timers), echo, request, timers[old(nextTimer)], old(nextTimer));
      }
    }

    /** Removes the entry and clears its timer, handing the entry back. */
    method Take(echo: string) returns (r: Option<Pending>)
      requires Valid()
      modifies this
      ensures Valid()
      ensures r == if echo in old(pending) then Some(old(pending)[echo]) else None
      ensures pending == old(pending) - {echo} && order == Without(old(order), echo)
      ensures Get(echo) == None
      ensures timers == if r.Some? then old(timers) - {r.value.timer} else old(timers)
      ensures effects == old(effects)
      ensures old(Tidy()) ==> Tidy()
    {
      if echo in pending {
        r := Some(pending[echo]);
        pending := pending - {echo};
        WithoutDistinct(order, echo);
        order := Without(order, echo);
        timers := timers - {r.value.timer};
      } else {
        r := None;
        WithoutAbsent(order, echo);
      }
    }

    method Resolve(echo: string, data: Option<Value>) returns (found: bool)
      requires Valid()
      modifies this
      ensures Valid()
      ensures found <==> echo in old(pending)
      ensures pending == old(pending) - {echo} && order == Without(old(order), echo)
      ensures found ==> timers == old(timers) - {old(pending)[echo].timer}
                        && effects == old(effects) + [Resolved(old(pending)[echo].request.promise, data)]
      ensures !found ==> timers == old(timers) && effects == old(effects)
      ensures old(Tidy()) ==> Tidy()
    {
      var r := Take(echo);
      if r.None? {
        return false;
      }
      effects := effects + [Resolved(r.value.request.promise, data)];
      found := true;
    }

    method Reject(echo: string, error: Failure) returns (found: bool)
      requires Valid()
      modifies this
      ensures Valid()
      ensures found <==> echo in old(pending)
      ensures pending == old(pending) - {echo} && order == Without(old(order), echo)
      ensures found ==> timers == old(timers) - {old(pending)[echo].timer}
                        && effects == old(effects) + [Rejected(old(pending)[echo].request.promise, error)]
      ensures !found ==> timers == old(timers) && effects == old(effects)
      ensures old(Tidy()) ==> Tidy()
    {
      var r := Take(echo);
      if r.None? {
        return false;
      }
      effects := effects + [Rejected(r.value.request.promise, error)];
      found := true;
    }

    /** A timeout runs: it deletes whatever entry is under its echo and rejects
        the request it was armed for. */
    method Fire(t: nat, now: int)
      requires Valid() && t in timers && timers[t].due <= now
      modifies this
      ensures Valid()
      ensures var tm := old(timers)[t];
        && timers == old(timers) - {t}
        && pending == old(pending) - {tm.echo} && order == Without(old(order), tm.echo)
        && effects == old(effects) + [Rejected(tm.promise, ApiTimeoutError(tm.action, tm.timeout))]
      ensures old(Tidy()) ==> Tidy()
    {
      var tm := timers[t];
      timers := timers - {t};
      if tm.echo in pending {
        pending := pending - {tm.echo};
        WithoutDistinct(order, tm.echo);
        order := Without(order, tm.echo);
      } else {
        WithoutAbsent(order, tm.echo);
      }
      effects := effects + [Rejected(tm.promise, ApiTimeoutError(tm.action, tm.timeout))];
    }

    /** Clears every timer and rejects every request with `new Error(reason)`,
        then empties the table. */
    method ClearAll(reason: string)
      requires Valid()
      modifies this
      ensures Valid()
      ensures pending == map[] && order == []
      ensures timers == old(timers) - TimersOf(old(order), old(pending))
      ensures effects == old(effects) + RejectAll(old(order), old(pending), reason)
      ensures old(Tidy()) ==> timers == map[] && Tidy()
    {
      RejectEach(reason);
      if old(Tidy()) {
        ClearedTimers(order, pending, old(timers));
      }
      pending := map[];
      order := [];
    }

    /** The loop of `clearAll`: each entry's timer cleared and its request
        rejected, in insertion order. */
    method RejectEach(reason: string)
      requires Valid()
      modifies this
      ensures pending == old(pending) && order == old(order) && nextTimer == old(nextTimer)
      ensures timers == old(timers) - TimersOf(order, pending)
      ensures effects == old(effects) + RejectAll(order, pending, reason)
    {
      var order0, pending0 := order, pending;
      ghost var timers0, effects0 := timers, effects;
      assert forall e :: e in order0 ==> e in pending0;
      var i := 0;
      while i < |order0|
        invariant 0 <= i <= |order0|
        invariant pending == pending0 && order == order0 && nextTimer == old(nextTimer)
        invariant timers == timers0 - TimersOf(order0[..i], pending0)
        invariant effects == effects0 + RejectAll(order0[..i], pending0, reason)
      {
        var req := pending0[order0[i]];
        assert order0[..i + 1][..i] == order0[..i];
        timers := timers - {req.timer};
        effects := effects + [Rejected(req.request.promise, PlainError(reason))];
        i := i + 1;
      }
      assert order0[..i] == order0;
    }

    /** Rejects, in insertion order, every request older than `maxAge`, with a
        timeout error carrying `maxAge / 2`. */
    method CleanupStale(now: int, maxAge: int)
      requires Valid()
      modifies this
      ensures Valid()
      ensures pending == RemoveStale(old(pending), old(order), now, maxAge)
      ensures order == KeepFresh(old(order), old(pending), now, maxAge)
      ensures timers == old(timers) - StaleTimers(old(order), old(pending), now, maxAge)
      ensures effects == old(effects) + StaleEffects(old(order), old(pending), now, maxAge)
      ensures old(Tidy()) ==> Tidy()
    {
      var order0 := order;
      var pending0 := pending;
      ghost var timers0, effects0 := timers, effects;
      ghost var wasTidy := Tidy();
      var i := 0;
      SweepStart(order0, pending0, timers0, effects0, now, maxAge);
      while i < |order0|
        invariant 0 <= i <= |order0|
        invariant Valid() && Distinct(order0) && (forall e :: e in order0 <==> e in pending0)
        invariant Swept(order0, i, pending0, timers0, effects0, now, maxAge, pending, order, timers, effects)
        invariant wasTidy ==> Tidy()
      {
        ghost var p0, o0, t0, fx0 := pending, order, timers, effects;
        VisitedEntry(order0, i, pending0, now, maxAge);
        Visit(order0[i], now, maxAge);
        SweepStep(order0, i, pending0, timers0, effects0, now, maxAge, p0, o0, t0, fx0, pending, order, timers, effects);
        i := i + 1;
      }
      SweepEnd(order0, pending0, timers0, effects0, now, maxAge, pending, order, timers, effects);
    }

    /** One step of `cleanupStale`: a stale entry is reported and rejected. */
    method Visit(echo: string, now: int, maxAge: int)
      requires Valid() && echo in pending
      modifies this
      ensures Valid()
      ensures var p := old(pending)[echo];
        if IsStale(p, now, maxAge) then
          && pending == old(pending) - {echo} && order == Without(old(order), echo)
          && timers == old(timers) - {p.timer}
          && effects == old(effects) + StaleEffectsOf(p, echo, maxAge)
        else
          pending == old(pending) && order == old(order) && timers == old(timers) && effects == old(effects)
      ensures old(Tidy()) ==> Tidy()
    {
      var req := pending[echo];
      if now - req.request.createdAt > maxAge {
        effects := effects + [Stale(req.request.action, echo)];
        var _ := Reject(echo, ApiTimeoutError(req.request.action, Some(maxAge / 2)));
      }
    }
  }

  /** The table `cleanupStale` leaves: the stale entries of `order` removed. */
  function RemoveStale(pending: map<string, Pending>, order: seq<string>, now: int, maxAge: int): map<string, Pending> {
    if order == [] then pending
    else
      var e := order[|order| - 1];
      var r := RemoveStale(pending, order[..|order| - 1], now, maxAge);
      if e in pending && IsStale(pending[e], now, maxAge) then r - {e} else r
  }

  /** `cleanupStale` removes exactly the stale entries it visits, and leaves
      the others as they were. */
  lemma {:induction false} RemoveStaleMembers(pending: map<string, Pending>, order: seq<string>, now: int, maxAge: int)
    ensures forall e :: e in RemoveStale(pending, order, now, maxAge) <==> e in pending && !(e in order && IsStale(pending[e], now, maxAge))
    ensures forall e :: e in RemoveStale(pending, order, now, maxAge) ==> RemoveStale(pending, order, now, maxAge)[e] == pending[e]
  {
    if order != [] {
      assert order == order[..|order| - 1] + [order[|order| - 1]];
      RemoveStaleMembers(pending, order[..|order| - 1], now, maxAge);
    }
  }

  /** The sweep only ever removes entries. */
  lemma RemoveStaleShrinks(pending: map<string, Pending>, order: seq<string>, now: int, maxAge: int)
    ensures var p := RemoveStale(pending, order, now, maxAge);
      forall e :: e in p ==> e in pending && p[e] == pending[e]
  {
    RemoveStaleMembers(pending, order, now, maxAge);
  }

  /** `cleanupStale`'s accounts after visiting the first `i` entries. */
  ghost predicate Swept(order0: seq<string>, i: nat, pending0: map<string, Pending>, timers0: map<nat, Timer>,
                        effects0: seq<Effect>, now: int, maxAge: int,
                        p: map<string, Pending>, o: seq<string>, t: map<nat, Timer>, fx: seq<Effect>)
  {
    && i <= |order0|
    && p == RemoveStale(pending0, order0[..i], now, maxAge)
    && o == Remaining(order0, i, pending0, now, maxAge)
    && t == timers0 - StaleTimers(order0[..i], pending0, now, maxAge)
    && fx == effects0 + StaleEffects(order0[..i], pending0, now, maxAge)
  }

  lemma SweepStart(order0: seq<string>, pending0: map<string, Pending>, timers0: map<nat, Timer>,
                   effects0: seq<Effect>, now: int, maxAge: int)
    ensures Swept(order0, 0, pending0, timers0, effects0, now, maxAge, pending0, order0, timers0, effects0)
  {
    assert order0[..0] == [] && order0[0..] == order0;
  }

  lemma SweepEnd(order0: seq<string>, pending0: map<string, Pending>, timers0: map<nat, Timer>,
                 effects0: seq<Effect>, now: int, maxAge: int,
                 p: map<string, Pending>, o: seq<string>, t: map<nat, Timer>, fx: seq<Effect>)
    requires Swept(order0, |order0|, pending0, timers0, effects0, now, maxAge, p, o, t, fx)
    ensures p == RemoveStale(pending0, order0, now, maxAge)
    ensures o == KeepFresh(order0, pending0, now, maxAge)
    ensures t == timers0 - StaleTimers(order0, pending0, now, maxAge)
    ensures fx == effects0 + StaleEffects(order0, pending0, now, maxAge)
  {
    assert order0[..|order0|] == order0;
    assert order0[|order0|..] == [];
  }

  /** Visiting entry `i` extends each account by that entry alone. */
  lemma SweepStep(order0: seq<string>, i: nat, pending0: map<string, Pending>, timers0: map<nat, Timer>,
                  effects0: seq<Effect>, now: int, maxAge: int,
                  p0: map<string, Pending>, o0: seq<string>, t0: map<nat, Timer>, fx0: seq<Effect>,
                  p1: map<string, Pending>, o1: seq<string>, t1: map<nat, Timer>, fx1: seq<Effect>)
    requires i < |order0| && Distinct(order0) && order0[i] in pending0
    requires Swept(order0, i, pending0, timers0, effects0, now, maxAge, p0, o0, t0, fx0)
    requires order0[i] in p0 && p0[order0[i]] == pending0[order0[i]]
    requires var p := p0[order0[i]];
      if IsStale(p, now, maxAge) then
        && p1 == p0 - {order0[i]} && o1 == Without(o0, order0[i])
        && t1 == t0 - {p.timer}
        && fx1 == fx0 + StaleEffectsOf(p, order0[i], maxAge)
      else
        p1 == p0 && o1 == o0 && t1 == t0 && fx1 == fx0
    ensures Swept(order0, i + 1, pending0, timers0, effects0, now, maxAge, p1, o1, t1, fx1)
  {
    var stale := IsStale(pending0[order0[i]], now, maxAge);
    PendingAdvance(order0, i, pending0, now, maxAge, p0, p1);
    TimersAdvance(order0, i, pending0, now, maxAge, timers0, t0, t1);
    EffectsAdvance(order0, i, pending0, now, maxAge, effects0, fx0, fx1);
    RemainingStep(order0, i, pending0, now, maxAge);
  }

  /** The loop step of `cleanupStale`, account by account, on the values
      before and after visiting entry `i`: each grows by that entry alone. */
  lemma PendingAdvance(order0: seq<string>, i: nat, pending0: map<string, Pending>, now: int, maxAge: int,
                       p0: map<string, Pending>, p1: map<string, Pending>)
    requires i < |order0| && order0[i] in pending0
    requires p0 == RemoveStale(pending0, order0[..i], now, maxAge)
    requires p1 == if IsStale(pending0[order0[i]], now, maxAge) then p0 - {order0[i]} else p0
    ensures p1 == RemoveStale(pending0, order0[..i + 1], now, maxAge)
  {
    PrefixStep(order0, i);
  }

  lemma TimersAdvance(order0: seq<string>, i: nat, pending0: map<string, Pending>, now: int, maxAge: int,
                      timers0: map<nat, Timer>, t0: map<nat, Timer>, t1: map<nat, Timer>)
    requires i < |order0| && order0[i] in pending0
    requires t0 == timers0 - StaleTimers(order0[..i], pending0, now, maxAge)
    requires t1 == if IsStale(pending0[order0[i]], now, maxAge) then t0 - {pending0[order0[i]].timer} else t0
    ensures t1 == timers0 - StaleTimers(order0[..i + 1], pending0, now, maxAge)
  {
    PrefixStep(order0, i);
  }

  lemma EffectsAdvance(order0: seq<string>, i: nat, pending0: map<string, Pending>, now: int, maxAge: int,
                       effects0: seq<Effect>, fx0: seq<Effect>, fx1: seq<Effect>)
    requires i < |order0| && order0[i] in pending0
    requires fx0 == effects0 + StaleEffects(order0[..i], pending0, now, maxAge)
    requires fx1 == if IsStale(pending0[order0[i]], now, maxAge) then fx0 + StaleEffectsOf(pending0[order0[i]], order0[i], maxAge) else fx0
    ensures fx1 == effects0 + StaleEffects(order0[..i + 1], pending0, now, maxAge)
  {
    PrefixStep(order0, i);
  }

  /** The entry being visited is still in the table, as it was. */
  lemma VisitedEntry(order0: seq<string>, i: nat, pending0: map<string, Pending>, now: int, maxAge: int)
    requires i < |order0| && Distinct(order0) && order0[i] in pending0
    ensures order0[i] in RemoveStale(pending0, order0[..i], now, maxAge)
    ensures RemoveStale(pending0, order0[..i], now, maxAge)[order0[i]] == pending0[order0[i]]
  {
    RemoveStaleMembers(pending0, order0[..i], now, maxAge);
    DistinctSplit(order0, i);
  }

  lemma PrefixStep(s: seq<string>, i: nat)
    requires i < |s|
    ensures s[..i + 1][..i] == s[..i] && s[..i + 1][i] == s[i] && s[..i + 1] != []
  {
  }

  /** `order` lists each entry of the table once, and every timer handle
      was issued. */
  ghost predicate TableValid(pending: map<string, Pending>, order: seq<string>, timers: map<nat, Timer>, nextTimer: nat) {
    && Distinct(order)
    && (forall e :: e in order <==> e in pending)
    && (forall t :: t in timers ==> t < nextTimer)
  }

  ghost predicate TidyMaps(pending: map<string, Pending>, timers: map<nat, Timer>) {
    && (forall e :: e in pending ==> pending[e].timer in timers && timers[pending[e].timer].echo == e
                                     && timers[pending[e].timer].promise == pending[e].request.promise)
    && (forall t :: t in timers ==> timers[t].echo in pending && pending[timers[t].echo].timer == t)
  }

  /** Re-arming one entry's timer under a fresh handle keeps the table tidy. */
  lemma RefreshKeepsTidy(p0: map<string, Pending>, t0: map<nat, Timer>, echo: string,
                         r: Request, tm: Timer, handle: nat)
    requires TidyMaps(p0, t0) && echo in p0 && handle !in t0
    requires tm.echo == echo && tm.promise == r.promise
    ensures TidyMaps(p0[echo := Pending(r, handle)], (t0 - {p0[echo].timer})[handle := tm])
  {
  }

  /** In a tidy table, clearing the entries' timers clears every timer. */
  lemma ClearedTimers(order: seq<string>, pending: map<string, Pending>, timers: map<nat, Timer>)
    requires TidyMaps(pending, timers)
    requires forall e :: e in order <==> e in pending
    ensures timers - TimersOf(order, pending) == map[]
  {
    forall t | t in timers ensures t in TimersOf(order, pending) {
      TimersOfCovers(order, pending, timers[t].echo);
    }
  }

  /** A tidy table's timers all belong to entries of `order`. */
  lemma {:induction false} TimersOfCovers(order: seq<string>, pending: map<string, Pending>, e: string)
    requires forall x :: x in order ==> x in pending
    requires e in order
    ensures pending[e].timer in TimersOf(order, pending)
  {
    if order[|order| - 1] != e {
      assert e in order[..|order| - 1] by {
        assert order == order[..|order| - 1] + [order[|order| - 1]];
      }
      TimersOfCovers(order[..|order| - 1], pending, e);
    }
  }

  /** Deleting the entry being visited leaves the kept prefix and the rest. */
  /** The Map's order part-way through `cleanupStale`: the kept part of the
      visited prefix, then the entries not yet visited. */
  function Remaining(order0: seq<string>, i: nat, pending0: map<string, Pending>, now: int, maxAge: int): seq<string>
    requires i <= |order0|
  {
    KeepFresh(order0[..i], pending0, now, maxAge) + order0[i..]
  }

  lemma RemainingStep(order0: seq<string>, i: nat, pending0: map<string, Pending>, now: int, maxAge: int)
    requires Distinct(order0) && i < |order0| && order0[i] in pending0
    ensures Remaining(order0, i + 1, pending0, now, maxAge) ==
      if IsStale(pending0[order0[i]], now, maxAge) then Without(Remaining(order0, i, pending0, now, maxAge), order0[i])
      else Remaining(order0, i, pending0, now, maxAge)
  {
    var e := order0[i];
    assert order0[..i + 1][..i] == order0[..i];
    assert order0[..i + 1][i] == e;
    assert order0[i..] == [e] + order0[i + 1..];
    if IsStale(pending0[e], now, maxAge) {
      OrderAfterRemoval(order0, i, pending0, now, maxAge);
    }
  }

  lemma OrderAfterRemoval(order0: seq<string>, i: nat, pending0: map<string, Pending>, now: int, maxAge: int)
    requires Distinct(order0) && i < |order0|
    ensures var kept := KeepFresh(order0[..i], pending0, now, maxAge);
      Without(kept + order0[i..], order0[i]) == kept + order0[i + 1..]
  {
    var kept := KeepFresh(order0[..i], pending0, now, maxAge);
    var x := order0[i];
    DistinctSplit(order0, i);
    KeepFreshMembers(order0[..i], pending0, now, maxAge);
    assert x !in kept;
    assert order0[i..] == [x] + order0[i + 1..];
    RemoveVisited(kept, x, order0[i + 1..]);
  }

  lemma DistinctSplit(s: seq<string>, i: nat)
    requires Distinct(s) && i < |s|
    ensures s[i] !in s[..i] && s[i] !in s[i + 1..]
  {
  }

  lemma RemoveVisited(kept: seq<string>, x: string, rest: seq<string>)
    requires x !in kept && x !in rest
    ensures Without(kept + ([x] + rest), x) == kept + rest
  {
    var tail := [x] + rest;
    assert Without(kept, x) == kept by { WithoutAbsent(kept, x); }
    assert Without(tail, x) == rest by {
      assert tail[0] == x && tail[1..] == rest;
      WithoutAbsent(rest, x);
    }
    WithoutConcat(kept, tail, x);
  }
}
