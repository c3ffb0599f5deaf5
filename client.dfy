/**
 * `Api` (pyxtb/api.py) as an object whose methods update its fields in
 * place. Each method is proved to leave the object in the state, and to
 * return the result, that the matching transition of `Session` gives.
 *
 * The connections `asyncio.open_connection` would open are parameters of
 * `Login` (the chunks the broker will deliver on them); `json.loads` and the
 * listeners' behaviour are fixed when the object is made.
 */
module Client {
  import opened Values
  import opened Framing
  import opened Commands
  import opened Envelope
  import opened Dispatch
  import opened Session

  const DefaultAddress := "xapi.xtb.com"
  const DefaultAppName := "pyxtb"

  class Api {
    const creds: Credentials
    const address: string
    const connection: ConnectionInfo
    const loads: Bytes -> Option<Json>
    const fails: (ListenerId, Json) -> Option<Failure>

    var loggedIn: bool
    var reader: Reader
    var writer: Writer
    var streamSessionId: Json
    var streamingReader: Reader
    var streamingWriter: Writer
    var callbacks: Registry
    var readingTask: TaskState
    var deliveries: seq<Delivery>

    /** The object's fields as a `Session.State`. */
    function Snapshot(): State
      reads this
    {
      State(loggedIn, reader, writer, streamSessionId, streamingReader, streamingWriter, callbacks, readingTask, deliveries)
    }

    ghost predicate Valid()
      reads this
    {
      Session.Valid(Snapshot())
    }

    /**
     * `Api(login, password, app_name, address, demo)`: nothing is connected yet.
     * The JSON decoder and the listener oracle are parameters of the model, so
     * they come before the three arguments that have defaults.
     */
    constructor (userId: int, password: string,
                 loads: Bytes -> Option<Json>, fails: (ListenerId, Json) -> Option<Failure>,
                 appName: string := DefaultAppName, address: string := DefaultAddress, demo: bool := true)
      ensures creds == Credentials(userId, password, appName) && this.address == address
      ensures connection == ConnectionFor(demo)
      ensures this.loads == loads && this.fails == fails
      ensures Snapshot() == Initial && Valid()
    {
      creds := Credentials(userId, password, appName);
      this.address := address;
      connection := if demo then Demo else Real;
      this.loads := loads;
      this.fails := fails;
      loggedIn := false;
      reader := None;
      writer := None;
      streamSessionId := JNull;
      streamingReader := None;
      streamingWriter := None;
      callbacks := map[];
      readingTask := NoTask;
      deliveries := [];
    }

    /** `_write_(writer, frame)`. */
    method Write(target: Channel, frame: Json) returns (r: Result<Json>)
      modifies this
      ensures (r, Snapshot()) == Session.Write(old(Snapshot()), target, frame)
    {
      if writer.None? {
        return Err(Raised(JStr("Writer not set up")));
      }
      if target == Command {
        writer := Some(writer.value + [frame]);
      } else if streamingWriter.None? {
        return Err(AttributeError);
      } else {
        streamingWriter := Some(streamingWriter.value + [frame]);
      }
      r := Ok(JNull);
    }

    /**
     * The loop of `_read_`: reads chunks of `n` bytes into the frame until one
     * comes back shorter; an exhausted reader gives the empty chunk.
     */
    static method ReadChunks(chunks: seq<Bytes>, n: nat) returns (data: Bytes, consumed: nat)
      requires n > 0
      ensures consumed == Consumed(chunks, n) && data == Flatten(chunks[..consumed])
    {
      data := [];
      consumed := 0;
      while true
        invariant consumed <= FirstShort(chunks, n)
        invariant data == Flatten(chunks[..consumed])
        decreases |chunks| - consumed
      {
        var chunk: Bytes := [];
        if consumed < |chunks| {
          chunk := chunks[consumed];
          assert chunks[..consumed + 1][..consumed] == chunks[..consumed];
          consumed := consumed + 1;
        }
        data := data + chunk;
        if |chunk| != n {
          break;
        }
      }
    }

    /** `_read_(reader)`: the stripped frame, and the reader left with the chunks not consumed. */
    method Read(c: Channel) returns (r: Result<Bytes>)
      modifies this
      ensures (r, Snapshot()) == ReadChannel(old(Snapshot()), c)
    {
      var source := if c == Command then reader else streamingReader;
      if source.None? {
        return Err(Raised(JStr("Reader not set up")));
      }
      var data, consumed := ReadChunks(source.value, BufferSize);
      if c == Command {
        reader := Some(source.value[consumed..]);
      } else {
        streamingReader := Some(source.value[consumed..]);
      }
      r := Ok(Strip(data));
    }

    /** `_read_command_(reader, raw)`. */
    method ReadCommand(c: Channel, raw: bool) returns (r: Result<Json>)
      modifies this
      ensures (r, Snapshot()) == Session.ReadCommand(old(Snapshot()), c, raw, loads)
    {
      var text := Read(c);
      if text.Err? {
        return Err(text.error);
      }
      r := Interpret(text.value, raw, loads);
    }

    /** `_send_command_(writer, command, unauthenticated, **args)`. */
    method SendCommand(target: Channel, command: string, unauthenticated: bool, args: map<string, Json>) returns (r: Result<Json>)
      requires "command" !in args
      modifies this
      ensures (r, Snapshot()) == Session.SendCommand(old(Snapshot()), target, command, unauthenticated, args)
    {
      if !unauthenticated && !loggedIn {
        return Err(Raised(JStr("Not logged in")));
      }
      r := Write(target, Frame(command, args));
    }

    /** `streaming_ping`. */
    method StreamingPing() returns (r: Result<Json>)
      modifies this
      ensures (r, Snapshot()) == Session.StreamingPing(old(Snapshot()))
    {
      r := SendCommand(Streaming, "ping", false, map["streamSessionId" := streamSessionId]);
    }

    /** The first half of `login`: connect, send the credentials, read the raw response. */
    method Authenticate(commandChunks: seq<Bytes>) returns (response: Result<Json>)
      modifies this
      ensures (response, Snapshot()) == Session.Authenticate(old(Snapshot()), creds, commandChunks, loads)
    {
      reader := Some(commandChunks);
      writer := Some([]);
      assert Snapshot() == old(Snapshot()).(reader := Some(commandChunks), writer := Some([]));
      var sent := SendCommand(Command, "login", true, LoginKwargs(creds.userId, creds.password, creds.appName));
      response := ReadCommand(Command, true);
    }

    /** The second half of `login`: act on the response. */
    method Establish(response: Result<Json>, streamingChunks: seq<Bytes>) returns (r: Result<Json>)
      modifies this
      ensures (r, Snapshot()) == Session.Establish(old(Snapshot()), response, streamingChunks)
    {
      if response.Err? {
        return Err(response.error);
      }
      var status := Subscript(response.value, "status");
      if status.Err? {
        return Err(status.error);
      }
      if !Truthy(status.value) {
        var descr := Subscript(response.value, "errorDescr");
        if descr.Err? {
          return Err(descr.error);
        }
        return Err(Raised(descr.value));
      }
      var sid := Subscript(response.value, "streamSessionId");
      if sid.Err? {
        return Err(sid.error);
      }
      streamSessionId := sid.value;
      streamingReader := Some(streamingChunks);
      streamingWriter := Some([]);
      readingTask := Running;
      loggedIn := true;
      callbacks := map[];
      assert Snapshot() == old(Snapshot()).(streamSessionId := sid.value, streamingReader := Some(streamingChunks),
                                            streamingWriter := Some([]), readingTask := Running, loggedIn := true,
                                            callbacks := map[]);
      r := StreamingPing();
    }

    /** `login`, with the two connections it opens given as the chunks they will deliver. */
    method Login(commandChunks: seq<Bytes>, streamingChunks: seq<Bytes>) returns (r: Result<Json>)
      modifies this
      ensures (r, Snapshot()) == Session.Login(old(Snapshot()), creds, commandChunks, streamingChunks, loads)
      ensures old(Valid()) ==> Valid()
    {
      var response := Authenticate(commandChunks);
      r := Establish(response, streamingChunks);
    }

    /** `logout`. */
    method Logout() returns (r: Result<Json>)
      modifies this
      ensures (r, Snapshot()) == Session.Logout(old(Snapshot()))
    {
      r := SendCommand(Command, "logout", false, map[]);
      if r.Ok? {
        loggedIn := false;
      }
    }

    /** `__aexit__`: the value returned is `false`, as `Ok(JBool(false))`. */
    method Aexit() returns (r: Result<Json>)
      modifies this
      ensures (r, Snapshot()) == Session.Aexit(old(Snapshot()))
      ensures old(Valid()) ==> Valid()
    {
      if loggedIn {
        var out := Logout();
        if out.Err? {
          return out;
        }
      }
      match readingTask
      case NoTask => r := Ok(JBool(false));
      case Running =>
        readingTask := Cancelled;
        r := Ok(JBool(false));
      case Ended(e) => r := Err(e);
      case Cancelled => r := Err(CancelledError);
    }

    /** `_subscribe_(topic, Type, eventListener, **kwargs)`; `typed` says whether a record type was given. */
    method Subscribe(topic: string, typed: bool, listener: ListenerId, kwargs: map<string, Json>) returns (r: Result<Unsubscriber>)
      requires kwargs.Keys !! {"self", "command", "Type", "eventListener"}
      modifies this
      ensures (r, Snapshot()) == Session.Subscribe(old(Snapshot()), topic, typed, listener, kwargs)
      ensures old(Valid()) ==> Valid()
    {
      callbacks := Register(callbacks, topic, Callback(listener, typed));
      var name := WireName("get", topic);
      if name.Err? {
        return Err(name.error);
      }
      var binding := BindSendCommand(map["streamSessionId" := streamSessionId], kwargs);
      if binding.Err? {
        return Err(binding.error);
      }
      var sent := SendCommand(Streaming, name.value, binding.value.unauthenticated, binding.value.args);
      if sent.Err? {
        return Err(sent.error);
      }
      r := Ok(Unsubscriber(topic, kwargs));
    }

    /** `_unsubscribe_(topic, **kwargs)`. */
    method Unsubscribe(topic: string, kwargs: map<string, Json>) returns (r: Result<Json>)
      requires kwargs.Keys !! {"self", "command"}
      modifies this
      ensures (r, Snapshot()) == Session.Unsubscribe(old(Snapshot()), topic, kwargs)
      ensures old(Valid()) ==> Valid()
    {
      if topic !in callbacks {
        return Err(KeyError(topic));
      }
      callbacks := callbacks - {topic};
      var name := WireName("stop", topic);
      if name.Err? {
        return Err(name.error);
      }
      var binding := BindSendCommand(map["streamSessionId" := streamSessionId], kwargs);
      if binding.Err? {
        return Err(binding.error);
      }
      r := SendCommand(Streaming, name.value, binding.value.unauthenticated, binding.value.args);
    }

    /** `unsubscribe_fn`, the closure `_subscribe_` returns. */
    method UnsubscribeFn(u: Unsubscriber) returns (r: Result<Json>)
      requires u.kwargs.Keys !! {"self", "command"}
      modifies this
      ensures (r, Snapshot()) == Session.Unsubscribe(old(Snapshot()), u.topic, u.kwargs)
    {
      r := Unsubscribe(u.topic, u.kwargs);
    }

    /** `_send_and_read_command_(cmd, Type, **kwargs)`; `convert` is `Type.from_dict`, absent without a type. */
    method SendAndReadCommand<R>(cmd: string, convert: Option<Json -> Result<R>>, kwargs: map<string, Json>) returns (r: Result<Reply<R>>)
      requires kwargs.Keys !! {"self", "cmd", "Type"}
      modifies this
      ensures (r, Snapshot()) == Session.SendAndRead(old(Snapshot()), cmd, convert, kwargs, loads)
    {
      var binding := BindSendCommand(map[], kwargs);
      if binding.Err? {
        return Err(binding.error);
      }
      var sent := SendCommand(Command, cmd, binding.value.unauthenticated, binding.value.args);
      if sent.Err? {
        return Err(sent.error);
      }
      var data := ReadCommand(Command, false);
      if data.Err? {
        return Err(data.error);
      }
      r := Shape(data.value, convert);
    }

    /**
     * The `for callback in callbacks` loop of `_stream_read_`: each callback
     * in order, a typed one calling its listener, until one raises.
     */
    method DeliverAll(cbs: seq<Callback>, data: Json)
      modifies this
      ensures var out := Deliver(cbs, data, fails);
              Snapshot() == old(Snapshot()).(deliveries := old(deliveries) + out.deliveries,
                                             readingTask := if out.failure.Some? then Ended(out.failure.value) else old(readingTask))
    {
      var i := 0;
      var delivered := deliveries;
      while i < |cbs|
        invariant i <= |cbs|
        invariant Deliver(cbs[..i], data, fails).failure == None
        invariant delivered == old(deliveries) + Deliver(cbs[..i], data, fails).deliveries
        invariant unchanged(this)
      {
        DeliverExtend(cbs, i, data, fails);
        var callback := cbs[i];
        if callback.typed {
          delivered := delivered + [Delivery(callback.listener, data)];
          var raised := fails(callback.listener, data);
          if raised.Some? {
            ghost var out := Deliver(cbs[..i + 1], data, fails);
            assert out.failure == raised && delivered == old(deliveries) + out.deliveries;
            DeliverAfterFailure(cbs, i + 1, data, fails);
            deliveries := delivered;
            readingTask := Ended(raised.value);
            return;
          }
        }
        i := i + 1;
      }
      assert cbs[..i] == cbs;
      deliveries := delivered;
    }

    /** One pass of the `_stream_read_` loop: read a raw frame from the streaming channel and dispatch it. */
    method StreamStep()
      modifies this
      ensures Snapshot() == Session.StreamStep(old(Snapshot()), loads, fails)
      ensures old(Valid()) ==> Valid()
    {
      if readingTask != Running {
        return;
      }
      var parsed := ReadCommand(Streaming, true);
      if parsed.Err? {
        readingTask := Ended(parsed.error);
        return;
      }
      match Route(parsed.value, callbacks)
      case Continue =>
      case Stop(e) =>
        readingTask := Ended(e);
      case Invoke(cbs, data) =>
        DeliverAll(cbs, data);
    }
  }
}
