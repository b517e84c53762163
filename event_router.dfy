/** Event routing (src/core/event-router.ts): the name hierarchy each event
    frame is emitted under, and `emit`, which calls every catch-all listener,
    in registration order, before the emitter's named listeners. Listeners
    are numbered; each call is recorded in `calls`. */
module EventRouter {
  import opened Base
  import opened Json

  datatype Call =
    /** An `onAny` listener called with the event name and the frame. */
    | AnyCall(listener: nat, event: string, data: Value)
    /** `super.emit(event, data)`, which runs the named listeners. */
    | Named(event: string, data: Value)

  /** `${x}` for the property `key` of the frame. */
  function Part(data: Value, key: string): string {
    JsStringOpt(Get(data, key))
  }

  function MetaEventNames(data: Value): (names: seq<string>)
    ensures 2 <= |names| <= 3 && names[..2] == ["meta_event", "meta_event." + Part(data, "meta_event_type")]
    ensures |names| == 3 <==> Get(data, "meta_event_type") == Some(JStr("lifecycle"))
    ensures |names| == 3 ==> names[2] == "meta_event.lifecycle." + Part(data, "sub_type")
  {
    ["meta_event", "meta_event." + Part(data, "meta_event_type")]
      + if Get(data, "meta_event_type") == Some(JStr("lifecycle")) then ["meta_event.lifecycle." + Part(data, "sub_type")] else []
  }

  /** `routeMessage` and `routeMessageSent`: always three names, even when a
      property is missing (it reads as "undefined"). */
  function MessageNames(kind: string, data: Value): (names: seq<string>)
    ensures |names| == 3 && names[0] == kind
    ensures names[1] == kind + "." + Part(data, "message_type")
    ensures names[2] == names[1] + "." + Part(data, "sub_type")
  {
    var t := kind + "." + Part(data, "message_type");
    [kind, t, t + "." + Part(data, "sub_type")]
  }

  /** `routeNotice` and `routeRequest`: the third name only for a truthy
      `sub_type`. */
  function TypedNames(kind: string, typeKey: string, data: Value): (names: seq<string>)
    ensures 2 <= |names| <= 3 && names[..2] == [kind, kind + "." + Part(data, typeKey)]
    ensures |names| == 3 <==> TruthyOpt(Get(data, "sub_type"))
    ensures |names| == 3 ==> names[2] == kind + "." + Part(data, typeKey) + "." + Part(data, "sub_type")
  {
    var t := kind + "." + Part(data, typeKey);
    [kind, t] + if TruthyOpt(Get(data, "sub_type")) then [t + "." + Part(data, "sub_type")] else []
  }

  /** The names `route` emits, in order. */
  function RouteNames(data: Value): (names: seq<string>)
    ensures names == [] <==> !TruthyOpt(Get(data, "post_type"))
    ensures names != [] ==> names[|names| - 1] == "raw"
  {
    var postType := Get(data, "post_type");
    if !TruthyOpt(postType) then []
    else
      (if postType == Some(JStr("meta_event")) then MetaEventNames(data)
       else if postType == Some(JStr("message")) then MessageNames("message", data)
       else if postType == Some(JStr("message_sent")) then MessageNames("message_sent", data)
       else if postType == Some(JStr("notice")) then TypedNames("notice", "notice_type", data)
       else if postType == Some(JStr("request")) then TypedNames("request", "request_type", data)
       else ["unknown"])
      + ["raw"]
  }

  predicate KnownPostType(postType: Option<Value>) {
    postType in {Some(JStr("meta_event")), Some(JStr("message")), Some(JStr("message_sent")),
                 Some(JStr("notice")), Some(JStr("request"))}
  }

  /** A message frame is emitted under its three names and then as 'raw'; an
      unrecognised post type only as 'unknown' and 'raw'. */
  lemma {:induction false} RouteShapes(data: Value)
    ensures Get(data, "post_type") == Some(JStr("message")) ==>
      RouteNames(data) == MessageNames("message", data) + ["raw"] && |RouteNames(data)| == 4
    ensures Get(data, "post_type") == Some(JStr("message_sent")) ==>
      RouteNames(data) == MessageNames("message_sent", data) + ["raw"] && |RouteNames(data)| == 4
    ensures TruthyOpt(Get(data, "post_type")) && !KnownPostType(Get(data, "post_type")) ==>
      RouteNames(data) == ["unknown", "raw"]
    ensures Get(data, "post_type") == Some(JStr("notice")) ==>
      |RouteNames(data)| == (if TruthyOpt(Get(data, "sub_type")) then 4 else 3)
  {
  }

  /** The calls one `emit` makes: each catch-all listener, then the named
      listeners. */
  function EmitCalls(listeners: seq<nat>, event: string, data: Value): (calls: seq<Call>)
    ensures |calls| == |listeners| + 1 && calls[|listeners|] == Named(event, data)
  {
    if listeners == [] then [Named(event, data)]
    else
      var init := EmitCalls(listeners[..|listeners| - 1], event, data);
      init[..|init| - 1] + [AnyCall(listeners[|listeners| - 1], event, data), Named(event, data)]
  }

  /** Every catch-all listener is called before the named listeners, in
      registration order, with the event's name and frame. */
  lemma {:induction false} CatchAllFirst(listeners: seq<nat>, event: string, data: Value)
    ensures forall i :: 0 <= i < |listeners| ==> EmitCalls(listeners, event, data)[i] == AnyCall(listeners[i], event, data)
    decreases |listeners|
  {
    if listeners != [] {
      var init := listeners[..|listeners| - 1];
      CatchAllFirst(init, event, data);
      assert forall i :: 0 <= i < |init| ==> init[i] == listeners[i];
    }
  }

  /** The calls of emitting each name of `names` in turn. */
  function EmitAllCalls(listeners: seq<nat>, names: seq<string>, data: Value): seq<Call> {
    if names == [] then []
    else EmitAllCalls(listeners, names[..|names| - 1], data) + EmitCalls(listeners, names[|names| - 1], data)
  }

  /** The named emissions of a batch are exactly its names, in order. */
  function NamedEvents(calls: seq<Call>): seq<string> {
    if calls == [] then []
    else NamedEvents(calls[..|calls| - 1]) + if calls[|calls| - 1].Named? then [calls[|calls| - 1].event] else []
  }

  lemma {:induction false} NamedEventsConcat(a: seq<Call>, b: seq<Call>)
    ensures NamedEvents(a + b) == NamedEvents(a) + NamedEvents(b)
    decreases |b|
  {
    if b == [] {
      assert a + b == a;
    } else {
      assert (a + b)[..|a + b| - 1] == a + b[..|b| - 1];
      NamedEventsConcat(a, b[..|b| - 1]);
    }
  }

  lemma {:induction false} NamedEventsOfEmit(listeners: seq<nat>, event: string, data: Value)
    ensures NamedEvents(EmitCalls(listeners, event, data)) == [event]
    decreases |listeners|
  {
    var calls := EmitCalls(listeners, event, data);
    if listeners == [] {
      assert NamedEvents(calls) == NamedEvents([]) + [event];
    } else {
      var init := calls[..|calls| - 1];
      CatchAllFirst(listeners, event, data);
      forall i | 0 <= i < |init| ensures !init[i].Named? {
        assert init[i] == calls[i];
      }
      NoNamedEvents(init);
    }
  }

  lemma {:induction false} NoNamedEvents(calls: seq<Call>)
    requires forall i :: 0 <= i < |calls| ==> !calls[i].Named?
    ensures NamedEvents(calls) == []
    decreases |calls|
  {
    if calls != [] {
      NoNamedEvents(calls[..|calls| - 1]);
    }
  }

  /** Whatever catch-all listeners are registered, the named listeners hear
      the names in list order, once each. */
  lemma {:induction false} EmitAllNamesInOrder(listeners: seq<nat>, names: seq<string>, data: Value)
    ensures NamedEvents(EmitAllCalls(listeners, names, data)) == names
    decreases |names|
  {
    if names != [] {
      var init, last := names[..|names| - 1], names[|names| - 1];
      var before, step := EmitAllCalls(listeners, init, data), EmitCalls(listeners, last, data);
      assert EmitAllCalls(listeners, names, data) == before + step;
      EmitAllNamesInOrder(listeners, init, data);
      NamedEventsConcat(before, step);
      NamedEventsOfEmit(listeners, last, data);
      assert names == init + [last];
    }
  }

  /** Each name costs one call per catch-all listener and one named call. */
  lemma {:induction false} EmitAllLength(listeners: seq<nat>, names: seq<string>, data: Value)
    ensures |EmitAllCalls(listeners, names, data)| == |names| * (|listeners| + 1)
    decreases |names|
  {
    if names != [] {
      var init := names[..|names| - 1];
      EmitAllLength(listeners, init, data);
      var m := |listeners| + 1;
      var rest := EmitAllCalls(listeners, init, data);
      assert EmitAllCalls(listeners, names, data) == rest + EmitCalls(listeners, names[|names| - 1], data);
      assert |names| == |init| + 1;
      MulSucc(|init|, m);
    }
  }

  lemma MulSucc(n: nat, m: nat)
    ensures (n + 1) * m == n * m + m
  {
  }

  lemma EmitCallsStep(listeners: seq<nat>, i: nat, event: string, data: Value)
    requires i < |listeners|
    ensures EmitCalls(listeners[..i + 1], event, data)[..i + 1]
         == EmitCalls(listeners[..i], event, data)[..i] + [AnyCall(listeners[i], event, data)]
  {
    assert listeners[..i + 1][..i] == listeners[..i];
  }

  lemma EmitAllStep(listeners: seq<nat>, names: seq<string>, i: nat, data: Value, start: seq<Call>, before: seq<Call>, after: seq<Call>)
    requires i < |names|
    requires before == start + EmitAllCalls(listeners, names[..i], data)
    requires after == before + EmitCalls(listeners, names[i], data)
    ensures after == start + EmitAllCalls(listeners, names[..i + 1], data)
  {
    var prefix := names[..i + 1];
    assert prefix[..|prefix| - 1] == names[..i];
    assert prefix[|prefix| - 1] == names[i];
    var done, step := EmitAllCalls(listeners, names[..i], data), EmitCalls(listeners, names[i], data);
    assert EmitAllCalls(listeners, prefix, data) == done + step;
    assert (start + done) + step == start + (done + step);
  }

  class Router {
    /** `anyListeners` */
    var listeners: seq<nat>
    ghost var calls: seq<Call>

    constructor()
      ensures listeners == [] && calls == []
    {
      listeners := [];
      calls := [];
    }

    /** `onAny(listener)` */
    method OnAny(listener: nat)
      modifies this`listeners
      ensures listeners == old(listeners) + [listener]
    {
      listeners := listeners + [listener];
    }

    /** `emit(event, data)`: a throwing catch-all listener is caught and the
        remaining ones still run. */
    method Emit(event: string, data: Value)
      modifies this`calls
      ensures calls == old(calls) + EmitCalls(listeners, event, data)
    {
      var i := 0;
      while i < |listeners|
        invariant 0 <= i <= |listeners|
        invariant calls == old(calls) + EmitCalls(listeners[..i], event, data)[..i]
      {
        EmitCallsStep(listeners, i, event, data);
        calls := calls + [AnyCall(listeners[i], event, data)];
        i := i + 1;
      }
      assert listeners[..i] == listeners;
      calls := calls + [Named(event, data)];
    }

    /** `route(data)`: the frame's names, emitted in turn. */
    method Route(data: Value)
      modifies this`calls
      ensures calls == old(calls) + EmitAllCalls(listeners, RouteNames(data), data)
    {
      EmitEvents(RouteNames(data), data);
    }

    /** `emitEvents(events, data)` */
    method EmitEvents(names: seq<string>, data: Value)
      modifies this`calls
      ensures calls == old(calls) + EmitAllCalls(listeners, names, data)
    {
      ghost var start := calls;
      var i := 0;
      while i < |names|
        invariant 0 <= i <= |names|
        invariant calls == start + EmitAllCalls(listeners, names[..i], data)
      {
        ghost var before := calls;
        Emit(names[i], data);
        EmitAllStep(listeners, names, i, data, start, before, calls);
        i := i + 1;
      }
      assert names[..i] == names;
    }
  }
}
