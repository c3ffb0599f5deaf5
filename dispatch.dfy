/**
 * The subscription registry and one pass of the streaming dispatcher
 * (`_subscribe_`, `_unsubscribe_` and `_stream_read_` in pyxtb/api.py).
 *
 * A listener is an opaque id; calling it is recorded as a `Delivery` of the
 * frame's data. Whether a call raises (in the record's `from_dict` or in the
 * listener itself) is the parameter `fails`.
 */
module Dispatch {
  import opened Values

  type ListenerId = nat

  /**
   * The closure `_subscribe_` registers. With a record type it calls the
   * listener; without one its body only evaluates to the listener, which is
   * never called.
   */
  datatype Callback = Callback(listener: ListenerId, typed: bool)

  /** `_callbacks`: each topic's callbacks in the order they were registered. */
  type Registry = map<string, seq<Callback>>

  /**
   * One call of a registered closure with a frame's `data`. For a typed
   * callback the closure first builds the record with `from_dict`; when that
   * raises, the call is still recorded although the listener itself is never
   * reached.
   */
  datatype Delivery = Delivery(listener: ListenerId, data: Json)

  /** The registry never holds an empty list: entries are created by an append and removed whole. */
  predicate NoEmptyTopics(registry: Registry)
  {
    forall topic :: topic in registry ==> registry[topic] != []
  }

  /** `_callbacks[topic].append(callback)` on a `defaultdict(list)`. */
  function Register(registry: Registry, topic: string, callback: Callback): (r: Registry)
    ensures r.Keys == registry.Keys + {topic}
    ensures r[topic] == (if topic in registry then registry[topic] else []) + [callback]
    ensures forall t :: t in registry && t != topic ==> r[t] == registry[t]
    ensures NoEmptyTopics(registry) ==> NoEmptyTopics(r)
  {
    registry[topic := (if topic in registry then registry[topic] else []) + [callback]]
  }

  /** `del _callbacks[topic]`: the whole list goes; a missing topic raises `KeyError`. */
  function Unregister(registry: Registry, topic: string): (r: Result<Registry>)
    ensures r.Err? <==> topic !in registry
    ensures r.Err? ==> r.error == KeyError(topic)
    ensures r.Ok? ==> r.value.Keys == registry.Keys - {topic}
    ensures r.Ok? ==> forall t :: t in r.value ==> r.value[t] == registry[t]
    ensures r.Ok? && NoEmptyTopics(registry) ==> NoEmptyTopics(r.value)
  {
    if topic in registry then Ok(registry - {topic}) else Err(KeyError(topic))
  }

  /** Registering twice keeps both callbacks, the earlier first. */
  lemma RegisterTwice(registry: Registry, topic: string, first: Callback, second: Callback)
    requires topic !in registry
    ensures Register(Register(registry, topic, first), topic, second)[topic] == [first, second]
  {
  }

  /** Unregistering removes every callback of the topic, however many were registered. */
  lemma UnregisterRemovesAll(registry: Registry, topic: string, callback: Callback)
    ensures Unregister(Register(registry, topic, callback), topic).Ok?
    ensures topic !in Unregister(Register(registry, topic, callback), topic).value
    ensures Unregister(Register(registry, topic, callback), topic).value == registry - {topic}
  {
  }

  /** What one pass of the `while True` loop does with a parsed frame. */
  datatype Step =
    | Continue                                        // nothing to deliver; the loop goes on
    | Invoke(callbacks: seq<Callback>, data: Json)    // call each callback with `data`, in order
    | Stop(error: Failure)                            // the loop ends with this exception

  /** The frame's `command` is the string `topic`. */
  predicate Names(parsed: Json, topic: string)
  {
    parsed.JObj? && "command" in parsed.fields && parsed.fields["command"] == JStr(topic)
  }

  /**
   * The case split of `_stream_read_` on a parsed frame: a falsy frame, or one
   * whose `command` is missing or falsy, is skipped; a topic with callbacks
   * gets its frame's `data`; a topic without any ends the loop, because the
   * `logging.log` call there lacks its message argument.
   */
  function Route(parsed: Json, registry: Registry): (step: Step)
    ensures !Truthy(parsed) ==> step == Continue
    ensures Truthy(parsed) && !parsed.JObj? ==> step == Stop(AttributeError)
    ensures parsed.JObj? && ("command" !in parsed.fields || !Truthy(parsed.fields["command"])) ==> step == Continue
    ensures step.Invoke? ==>
              (parsed.JObj? && "command" in parsed.fields && parsed.fields["command"].JStr?
               && parsed.fields["command"].s in registry && step.callbacks == registry[parsed.fields["command"].s]
               && "data" in parsed.fields && step.data == parsed.fields["data"])
    ensures forall topic :: topic != [] && topic in registry && registry[topic] != [] && Names(parsed, topic) ==>
              (step == if "data" in parsed.fields then Invoke(registry[topic], parsed.fields["data"]) else Stop(KeyError("data")))
    ensures forall topic :: topic != [] && topic !in registry && Names(parsed, topic) ==>
              (step == if "data" in parsed.fields then Stop(TypeError) else Stop(KeyError("data")))
  {
    if !Truthy(parsed) then Continue
    else match parsed
      case JObj(fields) =>
        var command := if "command" in fields then fields["command"] else JNull;
        if !Truthy(command) then Continue
        else if command.JArr? || command.JObj? then Stop(TypeError)  // unhashable dictionary key
        else
          var callbacks := if command.JStr? && command.s in registry then registry[command.s] else [];
          if !("data" in fields) then Stop(KeyError("data"))
          else if callbacks != [] then Invoke(callbacks, fields["data"])
          else Stop(TypeError)
      case _ => Stop(AttributeError)
  }

  /** The deliveries the `for callback in callbacks` loop makes, and the exception that ended it, if any. */
  datatype Outcome = Outcome(deliveries: seq<Delivery>, failure: Option<Failure>)

  /** Running the callbacks in order; the loop has no handler, so the first exception ends it. */
  function Deliver(callbacks: seq<Callback>, data: Json, fails: (ListenerId, Json) -> Option<Failure>): (out: Outcome)
    ensures |out.deliveries| <= |callbacks|
    ensures out.failure.Some? ==> out.deliveries != []
  {
    if callbacks == [] then Outcome([], None)
    else
      var before := Deliver(callbacks[..|callbacks| - 1], data, fails);
      var last := callbacks[|callbacks| - 1];
      if before.failure.Some? || !last.typed then before
      else Outcome(before.deliveries + [Delivery(last.listener, data)], fails(last.listener, data))
  }

  /** Delivering to one more callback: what `Deliver` does with the next callback in line. */
  lemma DeliverExtend(callbacks: seq<Callback>, i: nat, data: Json, fails: (ListenerId, Json) -> Option<Failure>)
    requires i < |callbacks|
    ensures var before := Deliver(callbacks[..i], data, fails);
            var next := callbacks[i];
            Deliver(callbacks[..i + 1], data, fails)
            == if before.failure.Some? || !next.typed then before
               else Outcome(before.deliveries + [Delivery(next.listener, data)], fails(next.listener, data))
  {
    assert callbacks[..i + 1][..i] == callbacks[..i];
  }

  /** A listener that does not raise. */
  predicate Quiet(fails: (ListenerId, Json) -> Option<Failure>, callback: Callback, data: Json)
  {
    fails(callback.listener, data).None?
  }

  /**
   * The calls the loop makes when no listener raises, defined from the front:
   * one per typed callback, in registration order; an untyped one adds none.
   */
  function Calls(callbacks: seq<Callback>, data: Json): (calls: seq<Delivery>)
    ensures |calls| <= |callbacks|
  {
    if callbacks == [] then []
    else (if callbacks[0].typed then [Delivery(callbacks[0].listener, data)] else []) + Calls(callbacks[1..], data)
  }

  /** The calls for one more callback at the end are those before it, then its own. */
  lemma {:induction false} CallsSnoc(callbacks: seq<Callback>, last: Callback, data: Json)
    ensures Calls(callbacks + [last], data)
            == Calls(callbacks, data) + (if last.typed then [Delivery(last.listener, data)] else [])
  {
    if callbacks != [] {
      assert (callbacks + [last])[1..] == callbacks[1..] + [last];
      CallsSnoc(callbacks[1..], last, data);
    } else {
      assert [last][1..] == [];
    }
  }

  /**
   * When no typed callback's listener raises, the loop finishes, and the
   * listeners called are exactly those of the typed callbacks, each once, in
   * registration order.
   */
  lemma {:induction false} DeliverIsCalls(callbacks: seq<Callback>, data: Json, fails: (ListenerId, Json) -> Option<Failure>)
    requires forall i :: 0 <= i < |callbacks| && callbacks[i].typed ==> Quiet(fails, callbacks[i], data)
    ensures Deliver(callbacks, data, fails) == Outcome(Calls(callbacks, data), None)
  {
    if callbacks != [] {
      var front, last := callbacks[..|callbacks| - 1], callbacks[|callbacks| - 1];
      DeliverIsCalls(front, data, fails);
      assert front + [last] == callbacks;
      CallsSnoc(front, last, data);
    }
  }

  /** With every callback typed, the calls are one per callback, in order. */
  lemma {:induction false} CallsAllTyped(callbacks: seq<Callback>, data: Json)
    requires forall i :: 0 <= i < |callbacks| ==> callbacks[i].typed
    ensures |Calls(callbacks, data)| == |callbacks|
    ensures forall i :: 0 <= i < |callbacks| ==> Calls(callbacks, data)[i] == Delivery(callbacks[i].listener, data)
  {
    if callbacks != [] {
      CallsAllTyped(callbacks[1..], data);
    }
  }

  /**
   * When every callback is typed and none raises, each callback's listener
   * gets the data exactly once, in registration order, and the loop finishes.
   */
  lemma DeliverInOrder(callbacks: seq<Callback>, data: Json, fails: (ListenerId, Json) -> Option<Failure>)
    requires forall i :: 0 <= i < |callbacks| ==> callbacks[i].typed && Quiet(fails, callbacks[i], data)
    ensures Deliver(callbacks, data, fails).failure == None
    ensures |Deliver(callbacks, data, fails).deliveries| == |callbacks|
    ensures forall i :: 0 <= i < |callbacks| ==>
              Deliver(callbacks, data, fails).deliveries[i] == Delivery(callbacks[i].listener, data)
  {
    DeliverIsCalls(callbacks, data, fails);
    CallsAllTyped(callbacks, data);
  }

  /**
   * A raising listener ends delivery: the exception is that of the last call
   * made, every earlier call returned, and at most one call per callback was
   * made.
   */
  lemma {:induction false} DeliverStopsAtFailure(callbacks: seq<Callback>, data: Json, fails: (ListenerId, Json) -> Option<Failure>)
    ensures var out := Deliver(callbacks, data, fails);
            && |out.deliveries| <= |callbacks|
            && (forall i :: 0 <= i < |out.deliveries| ==> out.deliveries[i].data == data)
            && (forall i :: 0 <= i < |out.deliveries| - 1 ==> fails(out.deliveries[i].listener, data).None?)
            && (out.failure.Some? ==>
                  out.deliveries != [] && out.failure == fails(out.deliveries[|out.deliveries| - 1].listener, data))
            && (out.failure.None? ==> forall i :: 0 <= i < |out.deliveries| ==> fails(out.deliveries[i].listener, data).None?)
  {
    if callbacks != [] {
      DeliverStopsAtFailure(callbacks[..|callbacks| - 1], data, fails);
    }
  }

  /** Once a callback has raised, the remaining callbacks add nothing. */
  lemma {:induction false} DeliverAfterFailure(callbacks: seq<Callback>, k: nat, data: Json, fails: (ListenerId, Json) -> Option<Failure>)
    requires k <= |callbacks| && Deliver(callbacks[..k], data, fails).failure.Some?
    ensures Deliver(callbacks, data, fails) == Deliver(callbacks[..k], data, fails)
  {
    if k < |callbacks| {
      assert callbacks[..|callbacks| - 1][..k] == callbacks[..k];
      DeliverAfterFailure(callbacks[..|callbacks| - 1], k, data, fails);
    } else {
      assert callbacks[..k] == callbacks;
    }
  }

  /** A callback registered without a record type is never called. */
  lemma {:induction false} UntypedNeverCalled(callbacks: seq<Callback>, data: Json, fails: (ListenerId, Json) -> Option<Failure>)
    requires forall i :: 0 <= i < |callbacks| ==> !callbacks[i].typed
    ensures Deliver(callbacks, data, fails) == Outcome([], None)
  {
    if callbacks != [] {
      UntypedNeverCalled(callbacks[..|callbacks| - 1], data, fails);
    }
  }
}
