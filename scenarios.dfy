/**
 * Whole-session behaviour of `Api` (pyxtb/api.py), composed from the
 * transitions of `Session`: what a caller and a subscriber observe across
 * several calls.
 */
module Scenarios {
  import opened Values
  import opened Framing
  import opened Commands
  import opened Envelope
  import opened Dispatch
  import opened Session
  import Errors

  /** A streaming push frame `{"command": topic, "data": data}`. */
  function Push(topic: string, data: Json): Json
  {
    JObj(map["command" := JStr(topic), "data" := data])
  }

  /** Keyword arguments that bind without clashes and do not bypass the login guard. */
  predicate PlainKwargs(kwargs: map<string, Json>)
  {
    kwargs.Keys !! {"self", "cmd", "Type", "writer", "command", "unauthenticated"}
  }

  /** Before `login`, every command fails with "Not logged in", and nothing is sent or read. */
  lemma CommandBeforeLogin<R>(cmd: string, convert: Option<Json -> Result<R>>, kwargs: map<string, Json>,
                              loads: Bytes -> Option<Json>)
    requires PlainKwargs(kwargs)
    ensures SendAndRead(Initial, cmd, convert, kwargs, loads) == (Err(Raised(JStr("Not logged in"))), Initial)
  {
  }

  /**
   * `login` then `logout`: the command channel carries exactly the login frame
   * and the logout frame, the object is logged out, and the reading task is
   * still running until `__aexit__` cancels it.
   */
  lemma LoginThenLogout(s: State, creds: Credentials, commandChunks: seq<Bytes>, streamingChunks: seq<Bytes>,
                        loads: Bytes -> Option<Json>)
    requires Accepts(LoginResponse(commandChunks, loads))
    ensures var s1 := Login(s, creds, commandChunks, streamingChunks, loads).1;
            var (out, s2) := Logout(s1);
            && out == Ok(JNull)
            && !s2.loggedIn
            && s2.writer == Some([LoginFrame(creds), LogoutFrame()])
            && s2.readingTask == Running
            && Aexit(s2) == (Ok(JBool(false)), s2.(readingTask := Cancelled))
  {
    var s1 := Login(s, creds, commandChunks, streamingChunks, loads).1;
    assert s1.loggedIn && s1.writer == Some([LoginFrame(creds)]) && s1.readingTask == Running;
    LogoutThenExit(s1);
    var s2 := Logout(s1).1;
    assert s2.writer == Some([LoginFrame(creds)] + [LogoutFrame()]);
    assert [LoginFrame(creds)] + [LogoutFrame()] == [LoginFrame(creds), LogoutFrame()];
  }

  /** Logging out a session whose task runs, then leaving the context, cancels the task and returns false. */
  lemma LogoutThenExit(s1: State)
    requires s1.loggedIn && s1.writer.Some? && s1.readingTask == Running
    ensures var (out, s2) := Logout(s1);
            && out == Ok(JNull)
            && !s2.loggedIn
            && s2.writer == Some(s1.writer.value + [LogoutFrame()])
            && s2.readingTask == Running
            && Aexit(s2) == (Ok(JBool(false)), s2.(readingTask := Cancelled))
  {
  }

  /**
   * A rejected login raises the response's own `errorDescr`, untranslated,
   * and leaves the logged-in flag and the registry as they were; the same
   * envelope read by a command is translated by the error table.
   */
  lemma LoginFailureIsRaw(s: State, creds: Credentials, commandChunks: seq<Bytes>, streamingChunks: seq<Bytes>,
                          loads: Bytes -> Option<Json>, descr: string)
    requires LoginResponse(commandChunks, loads) == Ok(Errors.FailureEnvelope("BE005", descr))
    ensures Login(s, creds, commandChunks, streamingChunks, loads).0 == Err(Raised(JStr(descr)))
    ensures Login(s, creds, commandChunks, streamingChunks, loads).1.loggedIn == s.loggedIn
    ensures Login(s, creds, commandChunks, streamingChunks, loads).1.callbacks == s.callbacks
    ensures descr != "userPasswordCheck: Invalid login or password." ==>
              Login(s, creds, commandChunks, streamingChunks, loads).0
              != Err(Errors.HandleError(Errors.FailureEnvelope("BE005", descr)))
  {
    var v := Errors.FailureEnvelope("BE005", descr);
    assert Envelope.Failed(v) && "errorDescr" in v.fields && v.fields["errorDescr"] == JStr(descr);
    var r := Login(s, creds, commandChunks, streamingChunks, loads);
    assert r.0 == Err(Raised(JStr(descr)));
    Errors.KnownAndUnknownExamples(descr);
    assert Errors.HandleError(v) == Raised(JStr(Errors.Message("BE005", descr)));
  }

  /**
   * A command whose response is the `BE005` failure envelope raises the
   * table's message; an unknown code such as `BE015` raises the envelope's
   * own description.
   */
  lemma CommandErrorTranslated<R>(s: State, cmd: string, convert: Option<Json -> Result<R>>, kwargs: map<string, Json>,
                                  loads: Bytes -> Option<Json>, text: Bytes, code: string, descr: string)
    requires Valid(s) && s.loggedIn && PlainKwargs(kwargs)
    requires code == "BE005" || code == "BE015"
    requires ReadChannel(s, Command).0 == Ok(text) && text != []
    requires loads(text) == Some(Errors.FailureEnvelope(code, descr))
    ensures code == "BE005" ==>
              SendAndRead(s, cmd, convert, kwargs, loads).0 == Err(Raised(JStr("userPasswordCheck: Invalid login or password.")))
    ensures code == "BE015" ==> SendAndRead(s, cmd, convert, kwargs, loads).0 == Err(Raised(JStr(descr)))
  {
    var v := Errors.FailureEnvelope(code, descr);
    assert Envelope.Failed(v);
    Errors.KnownAndUnknownExamples(descr);
    assert Interpret(text, false, loads) == Err(Errors.HandleError(v));
  }

  /** `ping` against an empty response body returns "no content". */
  lemma PingEmptyBody<R>(s: State, loads: Bytes -> Option<Json>)
    requires Valid(s) && s.loggedIn && ReadChannel(s, Command).0 == Ok([])
    ensures SendAndRead<R>(s, "ping", None, map[], loads).0 == Ok(Data(JNull))
  {
  }

  /** A push frame for a topic with callbacks hands its data to `Deliver` over exactly that topic's callbacks. */
  lemma PushStep(s: State, topic: string, data: Json, text: Bytes,
                 loads: Bytes -> Option<Json>, fails: (ListenerId, Json) -> Option<Failure>)
    requires s.readingTask == Running && topic != [] && topic in s.callbacks && s.callbacks[topic] != []
    requires ReadChannel(s, Streaming).0 == Ok(text) && text != [] && loads(text) == Some(Push(topic, data))
    ensures var out := Deliver(s.callbacks[topic], data, fails);
            StreamStep(s, loads, fails)
            == ReadChannel(s, Streaming).1.(deliveries := s.deliveries + out.deliveries,
                                            readingTask := if out.failure.Some? then Ended(out.failure.value) else Running)
  {
    assert Names(Push(topic, data), topic);
    assert Route(Push(topic, data), s.callbacks) == Invoke(s.callbacks[topic], data);
  }

  /**
   * Two callbacks subscribed to one topic, and one push frame for it: both
   * listeners get the frame's data once, in subscription order, and the task
   * keeps running.
   */
  lemma TwoSubscribersInOrder(s: State, registry: Registry, topic: string, first: Callback, second: Callback,
                              data: Json, text: Bytes, loads: Bytes -> Option<Json>, fails: (ListenerId, Json) -> Option<Failure>)
    requires s.readingTask == Running && topic != [] && topic !in registry
    requires s.callbacks == Register(Register(registry, topic, first), topic, second)
    requires first.typed && second.typed && Quiet(fails, first, data) && Quiet(fails, second, data)
    requires ReadChannel(s, Streaming).0 == Ok(text) && text != [] && loads(text) == Some(Push(topic, data))
    ensures StreamStep(s, loads, fails).deliveries == s.deliveries + [Delivery(first.listener, data), Delivery(second.listener, data)]
    ensures StreamStep(s, loads, fails).readingTask == Running
  {
    RegisterTwice(registry, topic, first, second);
    DeliverTwo(first, second, data, fails);
    PushStep(s, topic, data, text, loads, fails);
  }

  /** Two quiet typed callbacks are called in order and the loop finishes. */
  lemma DeliverTwo(first: Callback, second: Callback, data: Json, fails: (ListenerId, Json) -> Option<Failure>)
    requires first.typed && second.typed && Quiet(fails, first, data) && Quiet(fails, second, data)
    ensures Deliver([first, second], data, fails) == Outcome([Delivery(first.listener, data), Delivery(second.listener, data)], None)
  {
    DeliverInOrder([first, second], data, fails);
    assert Deliver([first, second], data, fails).deliveries == [Delivery(first.listener, data), Delivery(second.listener, data)];
  }

  /**
   * A listener that raises ends the reading task with its exception; the
   * callbacks after it are not called, even for the same frame.
   */
  lemma RaisingListenerEndsTask(s: State, topic: string, first: Callback, second: Callback, f: Failure,
                                data: Json, text: Bytes, loads: Bytes -> Option<Json>, fails: (ListenerId, Json) -> Option<Failure>)
    requires s.readingTask == Running && topic != []
    requires topic in s.callbacks && s.callbacks[topic] == [first, second]
    requires first.typed && fails(first.listener, data) == Some(f)
    requires ReadChannel(s, Streaming).0 == Ok(text) && text != [] && loads(text) == Some(Push(topic, data))
    ensures StreamStep(s, loads, fails).deliveries == s.deliveries + [Delivery(first.listener, data)]
    ensures StreamStep(s, loads, fails).readingTask == Ended(f)
  {
    PushStep(s, topic, data, text, loads, fails);
    assert [first, second][..1] == [first];
    assert Deliver([first], data, fails) == Outcome([Delivery(first.listener, data)], Some(f));
    DeliverAfterFailure([first, second], 1, data, fails);
  }

  /**
   * After unsubscribing a topic, a push frame for it calls none of its former
   * listeners, and ends the reading task with `TypeError`.
   */
  lemma UnsubscribedTopicEndsTask(s: State, topic: string, kwargs: map<string, Json>,
                                  data: Json, text: Bytes, loads: Bytes -> Option<Json>, fails: (ListenerId, Json) -> Option<Failure>)
    requires kwargs.Keys !! {"self", "command"}
    requires s.readingTask == Running && topic != [] && topic in s.callbacks
    requires ReadChannel(s, Streaming).0 == Ok(text) && text != [] && loads(text) == Some(Push(topic, data))
    ensures var s1 := Unsubscribe(s, topic, kwargs).1;
            && topic !in s1.callbacks
            && StreamStep(s1, loads, fails).deliveries == s.deliveries
            && StreamStep(s1, loads, fails).readingTask == Ended(TypeError)
  {
    var s1 := Unsubscribe(s, topic, kwargs).1;
    assert s1.streamingReader == s.streamingReader && s1.readingTask == Running && s1.deliveries == s.deliveries;
    assert ReadChannel(s1, Streaming).0 == ReadChannel(s, Streaming).0;
    UnknownTopicStep(s1, topic, data, text, loads, fails);
  }

  /** A push frame for a topic without callbacks ends the task with `TypeError` and calls nobody. */
  lemma UnknownTopicStep(s: State, topic: string, data: Json, text: Bytes,
                         loads: Bytes -> Option<Json>, fails: (ListenerId, Json) -> Option<Failure>)
    requires s.readingTask == Running && topic != [] && topic !in s.callbacks
    requires ReadChannel(s, Streaming).0 == Ok(text) && text != [] && loads(text) == Some(Push(topic, data))
    ensures StreamStep(s, loads, fails).deliveries == s.deliveries
    ensures StreamStep(s, loads, fails).readingTask == Ended(TypeError)
  {
    assert Names(Push(topic, data), topic);
    assert Route(Push(topic, data), s.callbacks) == Stop(TypeError);
  }

  /** A frame without a topic only advances the streaming reader. */
  lemma SkipStep(s: State, skipped: Json, text: Bytes, loads: Bytes -> Option<Json>, fails: (ListenerId, Json) -> Option<Failure>)
    requires s.readingTask == Running && Route(skipped, s.callbacks) == Continue
    requires ReadChannel(s, Streaming).0 == Ok(text) && text != [] && loads(text) == Some(skipped)
    ensures StreamStep(s, loads, fails) == ReadChannel(s, Streaming).1
  {
  }

  /** A push frame for a topic with one quiet listener delivers its data once. */
  lemma DeliverStep(s: State, topic: string, callback: Callback, data: Json,
                    text: Bytes, loads: Bytes -> Option<Json>, fails: (ListenerId, Json) -> Option<Failure>)
    requires s.readingTask == Running && topic != []
    requires topic in s.callbacks && s.callbacks[topic] == [callback] && callback.typed && Quiet(fails, callback, data)
    requires ReadChannel(s, Streaming).0 == Ok(text) && text != [] && loads(text) == Some(Push(topic, data))
    ensures StreamStep(s, loads, fails).readingTask == Running
    ensures StreamStep(s, loads, fails).deliveries == s.deliveries + [Delivery(callback.listener, data)]
  {
    PushStep(s, topic, data, text, loads, fails);
    DeliverInOrder([callback], data, fails);
  }

  /**
   * A push frame without a topic is skipped without ending the task, and the
   * well-formed frame after it is still delivered.
   */
  lemma FrameWithoutTopicSkipped(s: State, topic: string, callback: Callback, data: Json, skipped: Json,
                                 text1: Bytes, text2: Bytes, loads: Bytes -> Option<Json>, fails: (ListenerId, Json) -> Option<Failure>)
    requires s.readingTask == Running && topic != []
    requires topic in s.callbacks && s.callbacks[topic] == [callback] && callback.typed && Quiet(fails, callback, data)
    requires skipped.JObj? && "command" !in skipped.fields
    requires ReadChannel(s, Streaming).0 == Ok(text1) && text1 != [] && loads(text1) == Some(skipped)
    requires ReadChannel(ReadChannel(s, Streaming).1, Streaming).0 == Ok(text2) && text2 != [] && loads(text2) == Some(Push(topic, data))
    ensures var s1 := StreamStep(s, loads, fails);
            var s2 := StreamStep(s1, loads, fails);
            && s1.readingTask == Running && s1.deliveries == s.deliveries
            && s2.readingTask == Running && s2.deliveries == s.deliveries + [Delivery(callback.listener, data)]
  {
    assert Route(skipped, s.callbacks) == Continue;
    SkipStep(s, skipped, text1, loads, fails);
    var s1 := ReadChannel(s, Streaming).1;
    DeliverStep(s1, topic, callback, data, text2, loads, fails);
  }

  /** `__aexit__` re-raises the exception that ended the reading task. */
  lemma AexitReraises(s: State, e: Failure)
    requires Valid(s) && s.readingTask == Ended(e)
    ensures Aexit(s).0 == Err(e)
    ensures Aexit(s).1.readingTask == Ended(e) && !Aexit(s).1.loggedIn
  {
  }

  /** Keywords a `subscribe_*` wrapper may forward besides its own: no clash, no login bypass. */
  predicate ExtraKwargs(extra: map<string, Json>, own: set<string>)
  {
    extra.Keys !! own + {"self", "command", "Type", "eventListener", "writer", "streamSessionId", "unauthenticated"}
  }

  /**
   * `subscribe_tick_prices(listener, symbol, minArrivalTime, maxLevel, **extra)`
   * on a logged-in session succeeds and sends one `getTickPrices` frame built
   * from its keywords; `TickPricesFrame` says what that frame carries.
   */
  lemma TickPricesSubscription(s: State, listener: ListenerId, symbol: string, minArrivalTime: int, maxLevel: Option<int>,
                               extra: map<string, Json>)
    requires Valid(s) && s.loggedIn
    requires ExtraKwargs(extra, {"symbol", "minArrivalTime", "maxLevel"})
    ensures var kwargs := TickPricesKwargs(symbol, minArrivalTime, maxLevel) + extra;
            && Subscribe(s, TickPricesTopic, true, listener, kwargs).0 == Ok(Unsubscriber(TickPricesTopic, kwargs))
            && Subscribe(s, TickPricesTopic, true, listener, kwargs).1.streamingWriter
               == Some(s.streamingWriter.value + [StreamingFrame("getTickPrices", s.streamSessionId, kwargs)])
  {
    SubscribeCommands();
    var own := TickPricesKwargs(symbol, minArrivalTime, maxLevel);
    assert (own + extra).Keys == own.Keys + extra.Keys;
    LoggedInCanSubscribe(s, TickPricesTopic, true, listener, own + extra);
  }

  /**
   * The `getTickPrices` frame carries the symbol, the arrival time, the level
   * (`null` when absent), the session id and every extra keyword.
   */
  lemma TickPricesFrame(sid: Json, symbol: string, minArrivalTime: int, maxLevel: Option<int>, extra: map<string, Json>)
    requires ExtraKwargs(extra, {"symbol", "minArrivalTime", "maxLevel"})
    ensures var frame := StreamingFrame("getTickPrices", sid, TickPricesKwargs(symbol, minArrivalTime, maxLevel) + extra);
            && frame.fields["command"] == JStr("getTickPrices")
            && frame.fields["symbol"] == JStr(symbol)
            && frame.fields["minArrivalTime"] == JNum(minArrivalTime)
            && frame.fields["maxLevel"] == (if maxLevel.Some? then JNum(maxLevel.value) else JNull)
            && frame.fields["streamSessionId"] == sid
            && forall k :: k in extra ==> frame.fields[k] == extra[k]
  {
    var own := TickPricesKwargs(symbol, minArrivalTime, maxLevel);
    var kwargs := own + extra;
    assert kwargs["symbol"] == own["symbol"] && kwargs["minArrivalTime"] == own["minArrivalTime"]
           && kwargs["maxLevel"] == own["maxLevel"];
    StreamingFrameFields("getTickPrices", sid, kwargs);
  }

  /**
   * `subscribe_get_candles(listener, symbol, **extra)` on a logged-in session
   * succeeds and sends one `getCandles` frame built from its keywords;
   * `CandlesFrame` says what that frame carries.
   */
  lemma CandlesSubscription(s: State, listener: ListenerId, symbol: string, extra: map<string, Json>)
    requires Valid(s) && s.loggedIn
    requires ExtraKwargs(extra, {"symbol"})
    ensures var kwargs := CandlesKwargs(symbol) + extra;
            && Subscribe(s, CandlesTopic, true, listener, kwargs).0 == Ok(Unsubscriber(CandlesTopic, kwargs))
            && Subscribe(s, CandlesTopic, true, listener, kwargs).1.streamingWriter
               == Some(s.streamingWriter.value + [StreamingFrame("getCandles", s.streamSessionId, kwargs)])
  {
    SubscribeCommands();
    var own := CandlesKwargs(symbol);
    assert (own + extra).Keys == own.Keys + extra.Keys;
    LoggedInCanSubscribe(s, CandlesTopic, true, listener, own + extra);
  }

  /** The `getCandles` frame carries the symbol, the session id and every extra keyword. */
  lemma CandlesFrame(sid: Json, symbol: string, extra: map<string, Json>)
    requires ExtraKwargs(extra, {"symbol"})
    ensures var frame := StreamingFrame("getCandles", sid, CandlesKwargs(symbol) + extra);
            && frame.fields["command"] == JStr("getCandles")
            && frame.fields["symbol"] == JStr(symbol)
            && frame.fields["streamSessionId"] == sid
            && forall k :: k in extra ==> frame.fields[k] == extra[k]
  {
    var own := CandlesKwargs(symbol);
    assert (own + extra)["symbol"] == own["symbol"];
    StreamingFrameFields("getCandles", sid, own + extra);
  }
}
