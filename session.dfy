/**
 * The state an `Api` object carries between calls (pyxtb/api.py:84-93) and
 * what each of its core methods does to it, one function per method: the
 * result it returns (or the exception it raises) and the state it leaves.
 *
 * Sockets are abstract: a reader is the chunks the broker will deliver, a
 * writer the log of the frames written to it. The background reading task is
 * its state; one pass of its loop is `StreamStep`. Calls of the listeners
 * are logged in `deliveries`.
 */
module Session {
  import opened Values
  import opened Framing
  import opened Commands
  import opened Envelope
  import opened Dispatch

  /** The command connection and the streaming connection. */
  datatype Channel = Command | Streaming

  /** `_reading_task`: none yet, running, finished with an exception, or cancelled. */
  datatype TaskState = NoTask | Running | Ended(error: Failure) | Cancelled

  type Reader = Option<seq<Bytes>>
  type Writer = Option<seq<Json>>

  datatype State = State(
    loggedIn: bool,
    reader: Reader,
    writer: Writer,
    streamSessionId: Json,
    streamingReader: Reader,
    streamingWriter: Writer,
    callbacks: Registry,
    readingTask: TaskState,
    deliveries: seq<Delivery>)
  {
    function In(c: Channel): Reader
    {
      if c == Command then reader else streamingReader
    }

    function Out(c: Channel): Writer
    {
      if c == Command then writer else streamingWriter
    }

    function WithIn(c: Channel, r: Reader): State
    {
      if c == Command then this.(reader := r) else this.(streamingReader := r)
    }

    function WithOut(c: Channel, w: Writer): State
    {
      if c == Command then this.(writer := w) else this.(streamingWriter := w)
    }
  }

  /** A freshly constructed `Api`: no connections, no session id, no task. */
  const Initial := State(false, None, None, JNull, None, None, map[], NoTask, [])

  /**
   * What the methods keep true: the registry has no empty lists, a logged-in
   * object has both connections, and a reading task has its reader.
   */
  predicate Valid(s: State)
  {
    && NoEmptyTopics(s.callbacks)
    && (s.loggedIn ==> s.reader.Some? && s.writer.Some? && s.streamingReader.Some? && s.streamingWriter.Some?)
    && (s.readingTask != NoTask ==> s.streamingReader.Some?)
  }

  lemma InitialValid()
    ensures Valid(Initial) && !Initial.loggedIn && Initial.readingTask == NoTask
  {
  }

  /** `w2` is `w` with `frame` written at its end. */
  predicate Appended(w: Writer, w2: Writer, frame: Json)
  {
    w.Some? && w2 == Some(w.value + [frame])
  }

  /**
   * `_write_(writer, frame)`: the guard looks at the command writer whatever
   * channel is written to; writing to an absent writer fails on `None.write`.
   */
  function Write(s: State, target: Channel, frame: Json): (r: (Result<Json>, State))
    ensures r.0.Ok? <==> s.writer.Some? && s.Out(target).Some?
    ensures s.writer.None? ==> r.0 == Err(Raised(JStr("Writer not set up")))
    ensures s.writer.Some? && s.Out(target).None? ==> r.0 == Err(AttributeError)
    ensures r.0.Ok? ==> r.0.value == JNull && Appended(s.Out(target), r.1.Out(target), frame)
                        && r.1 == s.WithOut(target, r.1.Out(target))
    ensures r.0.Err? ==> r.1 == s
  {
    if s.writer.None? then (Err(Raised(JStr("Writer not set up"))), s)
    else match s.Out(target)
      case None => (Err(AttributeError), s)
      case Some(log) => (Ok(JNull), s.WithOut(target, Some(log + [frame])))
  }

  /**
   * `_send_command_`: without `unauthenticated` it refuses to run before
   * login; otherwise it writes the one frame `{"command": command, **args}`.
   */
  function SendCommand(s: State, target: Channel, command: string, unauthenticated: bool, args: map<string, Json>): (r: (Result<Json>, State))
    requires "command" !in args
    ensures !unauthenticated && !s.loggedIn ==> r == (Err(Raised(JStr("Not logged in"))), s)
    ensures r.0.Ok? <==> (unauthenticated || s.loggedIn) && s.writer.Some? && s.Out(target).Some?
    ensures r.0.Ok? ==> Appended(s.Out(target), r.1.Out(target), Frame(command, args))
                        && r.1 == s.WithOut(target, r.1.Out(target))
    ensures r.0.Err? ==> r.1 == s
  {
    if !unauthenticated && !s.loggedIn then (Err(Raised(JStr("Not logged in"))), s)
    else Write(s, target, Frame(command, args))
  }

  /** Once logged in, every command can be sent, on either channel. */
  lemma LoggedInCanSend(s: State, target: Channel, command: string, unauthenticated: bool, args: map<string, Json>)
    requires Valid(s) && s.loggedIn && "command" !in args
    ensures SendCommand(s, target, command, unauthenticated, args).0 == Ok(JNull)
  {
  }

  /** `_read_(reader)` on a channel: the frame text, and the reader left with the chunks not consumed. */
  function ReadChannel(s: State, c: Channel): (r: (Result<Bytes>, State))
    ensures s.In(c).None? ==> r == (Err(Raised(JStr("Reader not set up"))), s)
    ensures s.In(c).Some? ==> r.0 == Ok(Strip(Flatten(s.In(c).value[..Consumed(s.In(c).value, BufferSize)])))
    ensures s.In(c).Some? ==> r.1 == s.WithIn(c, Some(s.In(c).value[Consumed(s.In(c).value, BufferSize)..]))
  {
    var (text, rest) := ReadFrame(s.In(c), BufferSize);
    (text, if s.In(c).Some? then s.WithIn(c, rest) else s)
  }

  /** `_read_command_(reader, raw)`: one frame read and interpreted; only that reader changes. */
  function ReadCommand(s: State, c: Channel, raw: bool, loads: Bytes -> Option<Json>): (r: (Result<Json>, State))
    ensures r.1 == ReadChannel(s, c).1
    ensures ReadChannel(s, c).0.Err? ==> r.0 == Err(ReadChannel(s, c).0.error)
    ensures ReadChannel(s, c).0.Ok? ==> r.0 == Interpret(ReadChannel(s, c).0.value, raw, loads)
  {
    var (text, after) := ReadChannel(s, c);
    match text
    case Err(e) => (Err(e), after)
    case Ok(t) => (Interpret(t, raw, loads), after)
  }

  /** The login credentials and application name an `Api` is constructed with. */
  datatype Credentials = Credentials(userId: int, password: string, appName: string)

  /** The frame `login` sends. */
  function LoginFrame(c: Credentials): Json
  {
    Frame("login", LoginKwargs(c.userId, c.password, c.appName))
  }

  /** The streaming keep-alive frame for a session id. */
  function PingFrame(sid: Json): Json
  {
    Frame("ping", map["streamSessionId" := sid])
  }

  /** The logout frame. */
  function LogoutFrame(): Json
  {
    Frame("logout", map[])
  }

  /** `streaming_ping`: a `ping` carrying the session id, on the streaming channel. */
  function StreamingPing(s: State): (r: (Result<Json>, State))
    ensures r.0.Ok? <==> s.loggedIn && s.writer.Some? && s.streamingWriter.Some?
    ensures r.0.Ok? ==> r.1 == s.(streamingWriter := Some(s.streamingWriter.value + [PingFrame(s.streamSessionId)]))
    ensures r.0.Err? ==> r.1 == s
  {
    SendCommand(s, Streaming, "ping", false, map["streamSessionId" := s.streamSessionId])
  }

  /** The response a fresh command connection delivering `chunks` gives to `login`. */
  function LoginResponse(chunks: seq<Bytes>, loads: Bytes -> Option<Json>): Result<Json>
  {
    Interpret(ReadFrame(Some(chunks), BufferSize).0.value, true, loads)
  }

  /** A login response that lets the session start. */
  predicate Accepts(response: Result<Json>)
  {
    response.Ok? && Succeeded(response.value) && "streamSessionId" in response.value.fields
  }

  /**
   * The first half of `login`: a fresh command connection delivering
   * `commandChunks`, the credentials sent on it unauthenticated, and one raw
   * response read back.
   */
  function Authenticate(s: State, creds: Credentials, commandChunks: seq<Bytes>, loads: Bytes -> Option<Json>): (r: (Result<Json>, State))
    ensures r.0 == LoginResponse(commandChunks, loads)
    ensures r.1 == s.(reader := Some(commandChunks[Consumed(commandChunks, BufferSize)..]), writer := Some([LoginFrame(creds)]))
  {
    var connected := s.(reader := Some(commandChunks), writer := Some([]));
    var sent := SendCommand(connected, Command, "login", true, LoginKwargs(creds.userId, creds.password, creds.appName));
    assert Appended(connected.writer, sent.1.writer, LoginFrame(creds));
    assert connected.writer.value + [LoginFrame(creds)] == [LoginFrame(creds)];
    ReadCommand(sent.1, Command, true, loads)
  }

  /**
   * The second half of `login`, given the response: a failed status raises
   * the response's own `errorDescr`, untranslated; a successful one opens the
   * streaming connection (its chunks are `streamingChunks`), starts the
   * reading task, marks the session logged in, empties the registry and sends
   * a streaming ping.
   */
  function Establish(s: State, response: Result<Json>, streamingChunks: seq<Bytes>): (r: (Result<Json>, State))
    ensures r.0.Ok? <==> Accepts(response) && s.writer.Some?
    ensures response.Err? ==> r.0 == Err(response.error)
    ensures forall v :: response == Ok(v) && Envelope.Failed(v) && "errorDescr" in v.fields ==>
              r.0 == Err(Raised(v.fields["errorDescr"]))
    ensures !Accepts(response) ==> r.1 == s
    ensures r.0.Ok? ==>
              && r.0.value == JNull
              && r.1 == s.(streamSessionId := response.value.fields["streamSessionId"],
                           streamingReader := Some(streamingChunks),
                           streamingWriter := Some([PingFrame(response.value.fields["streamSessionId"])]),
                           readingTask := Running, loggedIn := true, callbacks := map[])
  {
    match response
    case Err(e) => (Err(e), s)
    case Ok(v) =>
      match Subscript(v, "status")
      case Err(e) => (Err(e), s)
      case Ok(status) =>
        if !Truthy(status) then
          match Subscript(v, "errorDescr")
          case Err(e) => (Err(e), s)
          case Ok(descr) => (Err(Raised(descr)), s)
        else
          match Subscript(v, "streamSessionId")
          case Err(e) => (Err(e), s)
          case Ok(sid) =>
            var started := s.(streamSessionId := sid, streamingReader := Some(streamingChunks),
                              streamingWriter := Some([]), readingTask := Running, loggedIn := true,
                              callbacks := map[]);
            assert started.streamingWriter.value + [PingFrame(sid)] == [PingFrame(sid)];
            StreamingPing(started)
  }

  /** `login`: `Authenticate`, then `Establish`. */
  function Login(s: State, creds: Credentials, commandChunks: seq<Bytes>, streamingChunks: seq<Bytes>,
                 loads: Bytes -> Option<Json>): (r: (Result<Json>, State))
    ensures r.1.writer == Some([LoginFrame(creds)])
    ensures r.1.reader == Some(commandChunks[Consumed(commandChunks, BufferSize)..])
    ensures r.1.deliveries == s.deliveries
    ensures r.0.Ok? <==> Accepts(LoginResponse(commandChunks, loads))
    ensures LoginResponse(commandChunks, loads).Err? ==> r.0 == Err(LoginResponse(commandChunks, loads).error)
    ensures forall v :: LoginResponse(commandChunks, loads) == Ok(v) && Envelope.Failed(v) && "errorDescr" in v.fields ==>
              r.0 == Err(Raised(v.fields["errorDescr"]))
    ensures r.0.Err? ==> r.1 == s.(reader := r.1.reader, writer := r.1.writer)
    ensures r.0.Ok? ==>
              && r.0.value == JNull
              && r.1.loggedIn
              && r.1.streamSessionId == LoginResponse(commandChunks, loads).value.fields["streamSessionId"]
              && r.1.callbacks == map[]
              && r.1.readingTask == Running
              && r.1.streamingReader == Some(streamingChunks)
              && r.1.streamingWriter == Some([PingFrame(r.1.streamSessionId)])
    ensures Valid(s) ==> Valid(r.1)
  {
    var (response, after) := Authenticate(s, creds, commandChunks, loads);
    Establish(after, response, streamingChunks)
  }

  /** `logout`: one `logout` frame on the command channel, then logged out; nothing is read. */
  function Logout(s: State): (r: (Result<Json>, State))
    ensures !s.loggedIn ==> r == (Err(Raised(JStr("Not logged in"))), s)
    ensures r.0.Ok? <==> s.loggedIn && s.writer.Some?
    ensures r.0.Ok? ==> r.0.value == JNull && r.1 == s.(writer := Some(s.writer.value + [LogoutFrame()]), loggedIn := false)
    ensures r.0.Err? ==> r.1 == s
    ensures Valid(s) ==> Valid(r.1)
  {
    var (result, after) := SendCommand(s, Command, "logout", false, map[]);
    if result.Err? then (result, after) else (result, after.(loggedIn := false))
  }

  /**
   * `__aexit__`: logs out if logged in; then re-raises the exception a
   * finished reading task ended with, or cancels a running one; returns
   * false. Closing the connections is I/O and is not modelled.
   */
  function Aexit(s: State): (r: (Result<Json>, State))
    ensures !s.loggedIn ==> r.1 == s.(readingTask := r.1.readingTask)
    ensures s.loggedIn && s.writer.Some? ==> r.1.writer == Some(s.writer.value + [LogoutFrame()]) && !r.1.loggedIn
    ensures s.loggedIn && s.writer.None? ==> r == (Err(Raised(JStr("Writer not set up"))), s)
    ensures (!s.loggedIn || s.writer.Some?) ==>
              && r.0 == (match s.readingTask
                         case Ended(e) => Err(e)
                         case Cancelled => Err(CancelledError)
                         case _ => Ok(JBool(false)))
              && r.1.readingTask == (if s.readingTask == Running then Cancelled else s.readingTask)
    ensures r.1.callbacks == s.callbacks && r.1.deliveries == s.deliveries
    ensures Valid(s) ==> Valid(r.1)
  {
    var (out, after) := if s.loggedIn then Logout(s) else (Ok(JNull), s);
    if out.Err? then (out, after)
    else match after.readingTask
      case NoTask => (Ok(JBool(false)), after)
      case Running => (Ok(JBool(false)), after.(readingTask := Cancelled))
      case Ended(e) => (Err(e), after)
      case Cancelled => (Err(CancelledError), after)
  }

  /** The closure `_subscribe_` returns: it unsubscribes the topic with the keywords given at subscribe time. */
  datatype Unsubscriber = Unsubscriber(topic: string, kwargs: map<string, Json>)

  /**
   * The frame a streaming `get`/`stop` command is sent as: the session id and
   * every forwarded keyword but `unauthenticated`.
   */
  function StreamingFrame(command: string, sid: Json, kwargs: map<string, Json>): Json
    requires "command" !in kwargs
  {
    Frame(command, (kwargs - {"unauthenticated"})["streamSessionId" := sid])
  }

  /** A streaming frame names its command, carries the session id, and every other forwarded keyword but `unauthenticated`. */
  lemma StreamingFrameFields(command: string, sid: Json, kwargs: map<string, Json>)
    requires "command" !in kwargs
    ensures var f := StreamingFrame(command, sid, kwargs);
            && f.JObj? && f.fields.Keys == kwargs.Keys - {"unauthenticated"} + {"command", "streamSessionId"}
            && f.fields["command"] == JStr(command)
            && f.fields["streamSessionId"] == sid
            && forall k :: k in kwargs && k !in {"unauthenticated", "streamSessionId"} ==> f.fields[k] == kwargs[k]
  {
  }

  /** The forwarded keywords let `_send_command_` run: none clashes, and the session allows the call. */
  predicate StreamingSendable(s: State, kwargs: map<string, Json>)
  {
    && "writer" !in kwargs && "streamSessionId" !in kwargs
    && (s.loggedIn || ("unauthenticated" in kwargs && Truthy(kwargs["unauthenticated"])))
    && s.writer.Some? && s.streamingWriter.Some?
  }

  /** The keywords a streaming command is sent with, when the forwarded ones bind. */
  lemma BindStreaming(sid: Json, kwargs: map<string, Json>)
    requires "self" !in kwargs && "command" !in kwargs
    ensures BindSendCommand(map["streamSessionId" := sid], kwargs).Ok? <==> "writer" !in kwargs && "streamSessionId" !in kwargs
    ensures BindSendCommand(map["streamSessionId" := sid], kwargs).Ok? ==>
              && BindSendCommand(map["streamSessionId" := sid], kwargs).value.args == (kwargs - {"unauthenticated"})["streamSessionId" := sid]
              && BindSendCommand(map["streamSessionId" := sid], kwargs).value.unauthenticated
                 == ("unauthenticated" in kwargs && Truthy(kwargs["unauthenticated"]))
  {
    var b := BindSendCommand(map["streamSessionId" := sid], kwargs);
    if b.Ok? {
      assert b.value.args == (kwargs - {"unauthenticated"})["streamSessionId" := sid];
    }
  }

  /**
   * `_subscribe_(topic, Type, listener, **kwargs)`: the callback is appended
   * first, then `get` + the topic is sent on the streaming channel; an empty
   * topic fails after registering, before sending.
   */
  function Subscribe(s: State, topic: string, typed: bool, listener: ListenerId, kwargs: map<string, Json>): (r: (Result<Unsubscriber>, State))
    requires kwargs.Keys !! {"self", "command", "Type", "eventListener"}
    ensures r.1 == s.(callbacks := Register(s.callbacks, topic, Callback(listener, typed)), streamingWriter := r.1.streamingWriter)
    ensures topic == [] ==> r.0 == Err(IndexError)
    ensures r.0.Ok? <==> topic != [] && StreamingSendable(s, kwargs)
    ensures r.0.Ok? ==> r.0.value == Unsubscriber(topic, kwargs)
                        && Appended(s.streamingWriter, r.1.streamingWriter,
                                    StreamingFrame(WireName("get", topic).value, s.streamSessionId, kwargs))
    ensures r.0.Err? ==> r.1.streamingWriter == s.streamingWriter
    ensures Valid(s) ==> Valid(r.1)
  {
    var registered := s.(callbacks := Register(s.callbacks, topic, Callback(listener, typed)));
    match WireName("get", topic)
    case Err(e) => (Err(e), registered)
    case Ok(name) =>
      BindStreaming(s.streamSessionId, kwargs);
      match BindSendCommand(map["streamSessionId" := s.streamSessionId], kwargs)
      case Err(e) => (Err(e), registered)
      case Ok(b) =>
        var (sent, after) := SendCommand(registered, Streaming, name, b.unauthenticated, b.args);
        if sent.Err? then (Err(sent.error), after) else (Ok(Unsubscriber(topic, kwargs)), after)
  }

  /**
   * `_unsubscribe_(topic, **kwargs)`: every callback of the topic is removed
   * (a topic never registered raises `KeyError` before anything is sent),
   * then `stop` + the topic is sent on the streaming channel.
   */
  function Unsubscribe(s: State, topic: string, kwargs: map<string, Json>): (r: (Result<Json>, State))
    requires kwargs.Keys !! {"self", "command"}
    ensures topic !in s.callbacks ==> r == (Err(KeyError(topic)), s)
    ensures topic in s.callbacks ==> r.1 == s.(callbacks := s.callbacks - {topic}, streamingWriter := r.1.streamingWriter)
    ensures r.0.Ok? <==> topic in s.callbacks && topic != [] && StreamingSendable(s, kwargs)
    ensures r.0.Ok? ==> r.0.value == JNull
                        && Appended(s.streamingWriter, r.1.streamingWriter,
                                    StreamingFrame(WireName("stop", topic).value, s.streamSessionId, kwargs))
    ensures r.0.Err? ==> r.1.streamingWriter == s.streamingWriter
    ensures Valid(s) ==> Valid(r.1)
  {
    match Unregister(s.callbacks, topic)
    case Err(e) => (Err(e), s)
    case Ok(remaining) =>
      var removed := s.(callbacks := remaining);
      match WireName("stop", topic)
      case Err(e) => (Err(e), removed)
      case Ok(name) =>
        BindStreaming(s.streamSessionId, kwargs);
        match BindSendCommand(map["streamSessionId" := s.streamSessionId], kwargs)
        case Err(e) => (Err(e), removed)
        case Ok(b) => SendCommand(removed, Streaming, name, b.unauthenticated, b.args)
  }

  /** Once logged in, subscribing to a non-empty topic with keywords that do not clash succeeds and sends one `get` frame. */
  lemma LoggedInCanSubscribe(s: State, topic: string, typed: bool, listener: ListenerId, kwargs: map<string, Json>)
    requires Valid(s) && s.loggedIn && topic != []
    requires kwargs.Keys !! {"self", "command", "Type", "eventListener", "writer", "streamSessionId"}
    ensures Subscribe(s, topic, typed, listener, kwargs).0 == Ok(Unsubscriber(topic, kwargs))
    ensures Subscribe(s, topic, typed, listener, kwargs).1.streamingWriter
            == Some(s.streamingWriter.value + [StreamingFrame(WireName("get", topic).value, s.streamSessionId, kwargs)])
  {
    assert StreamingSendable(s, kwargs);
  }

  /** What a successful first subscription to a topic leaves behind: the topic registered and one `get` frame sent. */
  lemma SubscribeFacts(s: State, topic: string, typed: bool, listener: ListenerId, kwargs: map<string, Json>,
                                 u: Unsubscriber, s1: State)
    requires kwargs.Keys !! {"self", "command", "Type", "eventListener"}
    requires topic !in s.callbacks
    requires Subscribe(s, topic, typed, listener, kwargs) == (Ok(u), s1)
    ensures u == Unsubscriber(topic, kwargs)
    ensures topic in s1.callbacks && s1.callbacks - {topic} == s.callbacks
    ensures topic != [] && StreamingSendable(s1, kwargs) && s1.streamSessionId == s.streamSessionId
    ensures s1.streamingWriter == Some(s.streamingWriter.value + [StreamingFrame(WireName("get", topic).value, s.streamSessionId, kwargs)])
  {
  }

  /**
   * Calling the closure a first subscription returned succeeds, restores the
   * registry as it was before, and leaves exactly one `get` and one `stop`
   * frame on the streaming writer.
   */
  lemma SubscribeThenUnsubscribe(s: State, topic: string, typed: bool, listener: ListenerId, kwargs: map<string, Json>,
                                 u: Unsubscriber, s1: State)
    requires kwargs.Keys !! {"self", "command", "Type", "eventListener"}
    requires topic !in s.callbacks
    requires Subscribe(s, topic, typed, listener, kwargs) == (Ok(u), s1)
    ensures Unsubscribe(s1, u.topic, u.kwargs).0.Ok?
    ensures Unsubscribe(s1, u.topic, u.kwargs).1.callbacks == s.callbacks
    ensures Unsubscribe(s1, u.topic, u.kwargs).1.streamingWriter == Some(s.streamingWriter.value
              + [StreamingFrame(WireName("get", topic).value, s.streamSessionId, kwargs),
                 StreamingFrame(WireName("stop", topic).value, s.streamSessionId, kwargs)])
  {
    SubscribeFacts(s, topic, typed, listener, kwargs, u, s1);
    var s2 := Unsubscribe(s1, topic, kwargs).1;
    var get := StreamingFrame(WireName("get", topic).value, s.streamSessionId, kwargs);
    var stop := StreamingFrame(WireName("stop", topic).value, s.streamSessionId, kwargs);
    assert s2.streamingWriter == Some(s1.streamingWriter.value + [stop]);
    assert s.streamingWriter.value + [get] + [stop] == s.streamingWriter.value + [get, stop];
  }

  /**
   * One pass of the `_stream_read_` loop: read one raw frame from the
   * streaming channel and dispatch it. Any exception ends the task with it;
   * a task that is not running takes no step.
   */
  function StreamStep(s: State, loads: Bytes -> Option<Json>, fails: (ListenerId, Json) -> Option<Failure>): (r: State)
    ensures s.readingTask != Running ==> r == s
    ensures s.readingTask == Running ==>
              && r == s.(streamingReader := r.streamingReader, deliveries := r.deliveries, readingTask := r.readingTask)
              && r.streamingReader == ReadChannel(s, Streaming).1.streamingReader
              && s.deliveries <= r.deliveries
              && (r.readingTask == Running || r.readingTask.Ended?)
    ensures s.readingTask == Running && ReadCommand(s, Streaming, true, loads).0.Err? ==>
              r.readingTask == Ended(ReadCommand(s, Streaming, true, loads).0.error) && r.deliveries == s.deliveries
    ensures Valid(s) ==> Valid(r)
  {
    if s.readingTask != Running then s
    else
      var (parsed, after) := ReadCommand(s, Streaming, true, loads);
      match parsed
      case Err(e) => after.(readingTask := Ended(e))
      case Ok(frame) =>
        match Route(frame, after.callbacks)
        case Continue => after
        case Stop(e) => after.(readingTask := Ended(e))
        case Invoke(callbacks, data) =>
          var out := Deliver(callbacks, data, fails);
          after.(deliveries := after.deliveries + out.deliveries,
                 readingTask := if out.failure.Some? then Ended(out.failure.value) else Running)
  }

  /** The keywords a command-channel command is sent with, when the forwarded ones bind. */
  lemma BindPlain(kwargs: map<string, Json>)
    requires "self" !in kwargs
    ensures BindSendCommand(map[], kwargs).Ok? <==> "writer" !in kwargs && "command" !in kwargs
    ensures BindSendCommand(map[], kwargs).Ok? ==>
              && BindSendCommand(map[], kwargs).value.args == kwargs - {"unauthenticated"}
              && BindSendCommand(map[], kwargs).value.unauthenticated == ("unauthenticated" in kwargs && Truthy(kwargs["unauthenticated"]))
  {
    var b := BindSendCommand(map[], kwargs);
    if b.Ok? {
      assert b.value.args == kwargs - {"unauthenticated"};
    }
  }

  /**
   * `_send_and_read_command_(cmd, Type, **kwargs)`: the command is sent on the
   * command channel, one response is read and its data shaped by `convert`.
   */
  function SendAndRead<R>(s: State, cmd: string, convert: Option<Json -> Result<R>>, kwargs: map<string, Json>,
                          loads: Bytes -> Option<Json>): (r: (Result<Reply<R>>, State))
    requires kwargs.Keys !! {"self", "cmd", "Type"}
    ensures !(kwargs.Keys !! {"writer", "command"}) ==> r == (Err(TypeError), s)
    ensures kwargs.Keys !! {"writer", "command"} && !s.loggedIn
            && !("unauthenticated" in kwargs && Truthy(kwargs["unauthenticated"])) ==>
              r == (Err(Raised(JStr("Not logged in"))), s)
    ensures r.1 == s.(writer := r.1.writer, reader := r.1.reader)
    ensures r.1.writer == s.writer || Appended(s.writer, r.1.writer, Frame(cmd, kwargs - {"unauthenticated"}))
    ensures r.1.reader != s.reader ==> r.1.reader == ReadChannel(s, Command).1.reader
    ensures r.0.Ok? ==>
              && Appended(s.writer, r.1.writer, Frame(cmd, kwargs - {"unauthenticated"}))
              && r.1.reader == ReadChannel(s, Command).1.reader
              && ReadChannel(s, Command).0.Ok?
              && Interpret(ReadChannel(s, Command).0.value, false, loads).Ok?
              && r.0 == Shape(Interpret(ReadChannel(s, Command).0.value, false, loads).value, convert)
    ensures kwargs.Keys !! {"writer", "command"} && s.writer.Some?
            && (s.loggedIn || ("unauthenticated" in kwargs && Truthy(kwargs["unauthenticated"]))) ==>
              var t := ReadChannel(s, Command).0;
              && (t.Err? ==> r.0 == Err(t.error))
              && (t.Ok? && Interpret(t.value, false, loads).Err? ==> r.0 == Err(Interpret(t.value, false, loads).error))
              && (t.Ok? && Interpret(t.value, false, loads).Ok? ==> r.0 == Shape(Interpret(t.value, false, loads).value, convert))
    ensures kwargs.Keys !! {"writer", "command"} && s.writer.None?
            && (s.loggedIn || ("unauthenticated" in kwargs && Truthy(kwargs["unauthenticated"]))) ==>
              r == (Err(Raised(JStr("Writer not set up"))), s)
    ensures Valid(s) ==> Valid(r.1)
  {
    BindPlain(kwargs);
    match BindSendCommand(map[], kwargs)
    case Err(e) => (Err(e), s)
    case Ok(b) =>
      var (sent, after) := SendCommand(s, Command, cmd, b.unauthenticated, b.args);
      if sent.Err? then (Err(sent.error), after)
      else
        var (data, read) := ReadCommand(after, Command, false, loads);
        match data
        case Err(e) => (Err(e), read)
        case Ok(d) => (Shape(d, convert), read)
  }
}
