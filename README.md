# pyxtb client core in Dafny

This project models the part of the pyxtb broker client that does not depend on sockets, and proves properties of it.
pyxtb is an asyncio client for the XTB xAPI trading protocol.

- **Errors** (`pyxtb/errors.py`): the table of broker error codes and `handle_error`. `handle_error` turns a failure envelope into the exception it raises.
- **Values**: decoded JSON, Python truthiness, the exceptions that leave the core, and `d[key]` and `d.get(key)` on decoded frames.
- **Framing**: how `Api._read_` cuts the byte stream into frames. It reads chunks until the first short one, then decodes and strips the result.
- **Envelope**: the case split of `_read_command_` (empty, raw, failed, successful) and the response shaping of `_send_and_read_command_`.
- **Commands**: the broker's ports, the frame `_send_command_` writes, how Python binds the forwarded keyword arguments, and the `get`/`stop` command names of the streaming topics.
- **Dispatch**: the subscription registry, a map from topic to callbacks in registration order, and one pass of the `_stream_read_` loop over it.
- **Session**: the fields of an `Api` object as a `State`. It has one function per core method, giving the method's result or exception and the state it leaves.
- **Scenarios**: properties of whole call sequences, e.g. login then logout, subscribe then unsubscribe, a push frame delivered to two subscribers, and a raising listener ending the reading task.
- **Client**: the class `Api`, whose methods update its fields in place.
  - Each method is proved to return the result, and leave the fields in the state, that the matching `Session` function gives.
  - The loop of `_read_` (`ReadChunks`) is proved against the framing functions.
  - The callback loop of `_stream_read_` (`DeliverAll`) is proved against `Dispatch.Deliver`.

Sockets are abstract:
- A reader is the sequence of chunks the broker will deliver. Once those are used up it yields the empty chunk, as an asyncio stream does at end of file.
- A writer is the log of the frames written to it.

Three things are parameters:
- `json.loads` (`loads`), and a record type's `from_dict` (`convert`).
- A listener is an opaque id, and calling it appends a `Delivery(id, data)` to a log. Whether the call raises is the parameter `fails`.
- The connections `login` opens are given as the chunks they will deliver.

Where the code and its documentation disagree, the model follows the code:
- A failed `login` raises the envelope's own `errorDescr` and leaves the logged-in flag as it was. It does not reset it.
- `_write_` tests the command-channel writer, whatever writer it is given. With no command writer it raises "Writer not set up". With a command writer but no streaming writer, a streaming write fails on `None.write`.
- `_stream_read_` has no exception handler. A listener that raises, or a record conversion that fails, ends the reading task with that exception, and `__aexit__` re-raises it later.
- A push frame for a topic with no callbacks ends the reading task with `TypeError`. The `logging.log` call in that branch lacks its message argument.
- A push frame without `data` ends the task with `KeyError("data")`.
- `_unsubscribe_` removes every callback of the topic, not just the one its closure registered.
- `logout` does not cancel the reading task. `__aexit__` does, and only when the task is still running.
- A callback registered without a record type never calls its listener: the lambda only evaluates to it.
- A keyword argument `unauthenticated` forwarded through a wrapper binds to `_send_command_`'s own parameter. It bypasses the login guard and is not sent.
- A forwarded keyword that clashes with `_send_command_`'s parameters (`writer`, `command`), or with the explicit `streamSessionId`, makes the call raise `TypeError`.

## Model

| member | source | states |
|---|---|---|
| Errors.SystemCodePrefix | pyxtb/errors.py:86 | `startswith("SE")` accepts exactly `SE` followed by anything: every such code, and no code shorter than two characters or with another prefix |
| Errors.HandleError | pyxtb/errors.py:75-90 | every path raises. An `SE` code raises the internal-error text. Otherwise a table code raises its table message. Otherwise the envelope's `errorDescr` is raised. A missing or non-string `errorCode` raises the lookup's own error. |
| Errors.Message | pyxtb/errors.py:85-90 | for a well-formed failure envelope, `HandleError` raises exactly this message |
| Errors.SystemCodeIgnoresDescription | pyxtb/errors.py:86-87 | any code starting with `SE` yields the internal-error text, whatever `errorDescr` says |
| Errors.SystemTableEntryShadowed | pyxtb/errors.py:61 | the table's `SExxx` entry is never reached, because the prefix rule comes first; both give the same text |
| Errors.TableCodeIgnoresDescription | pyxtb/errors.py:88-89 | for a code in the table, the message is the table's and does not depend on `errorDescr` |
| Errors.UnknownCodeFallsBack | pyxtb/errors.py:90 | a code that is neither `SE`-prefixed nor in the table yields `errorDescr` verbatim |
| Errors.KnownAndUnknownExamples | pyxtb/errors.py:8-18 | `BE005` yields "userPasswordCheck: Invalid login or password."; `BE015` has no entry and yields the description |
| Errors.TradeRequestMessageShared | pyxtb/errors.py:18-19 | `BE016` and `BE017` share a message, so the table is not injective |
| Errors.OtherErrorShared | pyxtb/errors.py:22-40 | `BE020`, `BE037` and `BE099` all yield "Other error" |
| Errors.InternalErrorShared | pyxtb/errors.py:59-62 | an `SE` code, `BE000`, `EX001` and `EX002` all yield the internal-error text |
| Framing.SkipSpace | pyxtb/api.py:177 | the index found is the first non-whitespace byte from the start point on, or the end; everything skipped is whitespace |
| Framing.DropSpace | pyxtb/api.py:177 | the index found is just past the last non-whitespace byte before the end point, or the floor; everything dropped is whitespace |
| Framing.StripTo | pyxtb/api.py:177 | the kept infix ends inside the text and not before it starts |
| Framing.Strip | pyxtb/api.py:177 | the result is no longer than the frame, and a non-empty result starts and ends with a non-whitespace byte |
| Framing.StripShape | pyxtb/api.py:177 | `strip()` keeps an infix that neither starts nor ends with whitespace, and everything dropped on either side is whitespace |
| Framing.StripEmptyIffBlank | pyxtb/api.py:177 | the stripped frame is empty if and only if the raw frame is all whitespace |
| Framing.StripIdempotent | pyxtb/api.py:177 | stripping twice is stripping once |
| Framing.FlattenAppend | pyxtb/api.py:173 | growing the buffer with `data += chunk` chunk by chunk concatenates the chunks in order: reading `a` then `b` gives the bytes of `a`, then those of `b` |
| Framing.FlattenFullLength | pyxtb/api.py:173-175 | `k` chunks of `n` bytes each fill the buffer with exactly `k * n` bytes |
| Framing.ReadFrame | pyxtb/api.py:167-177 | raises if and only if the reader is absent. Otherwise the reader is left with a suffix of its chunks, the consumed ones being a prefix. A reader that still holds chunks loses at least one per read. |
| Framing.ShortFirstChunk | pyxtb/api.py:172-177 | when the first chunk is short, the frame is that chunk stripped, and the reader keeps every later chunk |
| Framing.FirstShort | pyxtb/api.py:171-176 | the index of the first chunk whose length is not the buffer size; every earlier chunk is full |
| Framing.Consumed | pyxtb/api.py:171-176 | one read never consumes more chunks than the reader holds |
| Framing.ConsumedShape | pyxtb/api.py:171-176 | every consumed chunk but the last is full; reading stops early only after a short chunk; a full last chunk means the reader ran dry |
| Framing.ShortChunkEndsFrame | pyxtb/api.py:175-176 | the chunks consumed are exactly those up to and including the first short one |
| Framing.FullChunkForcesAnotherRead | pyxtb/api.py:173-176 | a chunk of exactly the buffer size is followed by another read |
| Commands.ConnectionFor | pyxtb/api.py:81-82 | the demo account uses ports 5124/5125 and the real one 5112/5113; streaming is always the command port plus one |
| Commands.Frame | pyxtb/api.py:221-229 | the frame has key `command` holding the name, and exactly the keyword arguments as its other keys |
| Commands.FrameRoundTrip | pyxtb/api.py:224-227 | a frame gives back exactly the name and arguments it was built from, and only that frame does |
| Commands.BindSendCommand | pyxtb/api.py:202-208 | a forwarded keyword that clashes with a parameter or an explicit keyword raises `TypeError`; `unauthenticated` (by truthiness) goes to its parameter and is not sent; every other key is sent |
| Commands.WireName | pyxtb/api.py:724 | prefix, then the topic's first character upper-cased, then the rest of the topic; the empty topic raises `IndexError` |
| Commands.WireNameInjective | pyxtb/api.py:724 | two topics not starting with a capital letter get the same name only if they are equal |
| Commands.WireNameDiffers | pyxtb/api.py:724 | distinct topics not starting with a capital letter get distinct names |
| Commands.WireNameCaseCollision | pyxtb/api.py:724 | `tickPrices` and `TickPrices` both become `getTickPrices` |
| Commands.GetAndStopDiffer | pyxtb/api.py:724-745 | a topic's subscribe and unsubscribe commands always differ |
| Commands.SubscribeCommands | pyxtb/api.py:760-864 | the eight wrapper topics subscribe with `getBalance`, `getCandles`, `getKeepAlive`, `getNews`, `getProfits`, `getTickPrices`, `getTrades`, `getTradeStatus` |
| Commands.UnsubscribeCommands | pyxtb/api.py:745 | the same topics unsubscribe with the matching `stop…` names |
| Commands.TopicCommandsDistinct | pyxtb/api.py:760-864 | no two wrapper topics share a command name |
| Commands.TickPricesKwargs | pyxtb/api.py:821-842 | `subscribe_tick_prices` adds the keywords `symbol`, `minArrivalTime` and `maxLevel` holding the given values. `minArrivalTime` defaults to 0. `maxLevel` defaults to absent, which is sent as `null`. |
| Commands.CandlesKwargs | pyxtb/api.py:764-784 | the one keyword `subscribe_get_candles` adds, besides the forwarded ones, is `symbol` holding the given symbol |
| Commands.LoginKwargs | pyxtb/api.py:274-280 | the login frame carries the credentials under `arguments`, plus `appName` |
| Values.FalsyValues | pyxtb/api.py:240-246 | a value is falsy if and only if it is `None`, `False`, zero, or the empty string, list or dict |
| Values.Subscript | pyxtb/api.py:196-198 | `d[key]` succeeds if and only if `d` is a dict holding `key`, and gives its value. A missing key raises `KeyError(key)`, a non-dict `TypeError`. |
| Values.Get | pyxtb/api.py:243 | `d.get(key)` raises `AttributeError` if and only if `d` is not a dict. It agrees with `d[key]` wherever that succeeds, and gives `None` for a missing key. |
| Envelope.Unwrap | pyxtb/api.py:196-198 | succeeds if and only if `status` is truthy, giving `returnData` (or `None`); a falsy status raises `handle_error`'s exception; a missing status or a non-object raises the lookup error |
| Envelope.Interpret | pyxtb/api.py:190-200 | empty text is `None`; text `json.loads` rejects raises; raw gives the whole parsed envelope; otherwise `Unwrap` |
| Envelope.FailedEnvelopeRaises | pyxtb/api.py:196-197 | a failed envelope never yields data and raises exactly `handle_error`'s exception |
| Envelope.RawEnvelopeUnchecked | pyxtb/api.py:193-194 | in raw mode the status is not looked at |
| Envelope.BlankFrameIsNoContent | pyxtb/api.py:177-200 | a whitespace-only frame reads as `None`, raw or not |
| Envelope.ConvertAll | pyxtb/api.py:336 | the list comprehension succeeds if and only if every element converts; it then has the same length and order, element by element |
| Envelope.ConvertAllFirstFailure | pyxtb/api.py:336 | a failed conversion raises the exception of the first element that fails |
| Envelope.Shape | pyxtb/api.py:330-337 | without a type the data comes back as is. A non-list is converted as one record. A list is converted element-wise, preserving length and order. A list succeeds if and only if every element converts; otherwise it raises the exception of the first element that fails. |
| Envelope.ShapeFirstFailure | pyxtb/api.py:336 | when element `k` is the first that fails to convert, shaping the list raises exactly that element's exception |
| Envelope.PingNoContent | pyxtb/api.py:650-661 | `ping` reads without a type, so an empty body gives `None` |
| Dispatch.Register | pyxtb/api.py:719-721 | appends the callback at the end of the topic's list (created if absent); other topics are unchanged; no list is ever empty |
| Dispatch.Unregister | pyxtb/api.py:742 | fails with `KeyError(topic)` if and only if the topic is absent; otherwise exactly that topic's entry is removed |
| Dispatch.RegisterTwice | pyxtb/api.py:719-721 | two registrations keep both callbacks, the earlier first |
| Dispatch.UnregisterRemovesAll | pyxtb/api.py:742 | unregistering after any registration leaves no entry for the topic; the rest of the registry is as before |
| Dispatch.Route | pyxtb/api.py:240-256 | a falsy frame, or one whose `command` is missing or falsy, is skipped. A topic with callbacks gets the frame's `data`. A topic without callbacks ends the loop with `TypeError`. A missing `data` raises `KeyError`. A non-object frame raises `AttributeError`. |
| Dispatch.Deliver | pyxtb/api.py:251-252 | the loop makes at most one call per callback, and an exception always comes from a call that was made |
| Dispatch.Calls | pyxtb/api.py:251-252 | reference for a loop where nothing raises, defined from the front: one call per typed callback, so never more calls than callbacks |
| Dispatch.CallsSnoc | pyxtb/api.py:251-252 | one more callback at the end adds its own call, if typed, after all earlier ones |
| Dispatch.DeliverIsCalls | pyxtb/api.py:251-252 | for any mix of typed and untyped callbacks: when no typed callback's listener raises, the loop finishes. The calls made are exactly `Calls`: each typed callback's listener once, in registration order, and no untyped one. |
| Dispatch.CallsAllTyped | pyxtb/api.py:251-252 | with every callback typed, the calls are one per callback, the `i`-th to the `i`-th callback's listener |
| Dispatch.DeliverInOrder | pyxtb/api.py:251-252 | when every callback is typed and none raises, each callback's listener gets the data exactly once, in registration order, and the loop finishes |
| Dispatch.DeliverStopsAtFailure | pyxtb/api.py:251-252 | at most one call per callback, all with the frame's data; every call but the last returned; a failure is the last call's exception |
| Dispatch.DeliverAfterFailure | pyxtb/api.py:251-252 | once a callback has raised, the remaining callbacks add nothing |
| Dispatch.UntypedNeverCalled | pyxtb/api.py:720 | callbacks registered without a record type never call their listener |
| Session.InitialValid | pyxtb/api.py:84-111 | a new object is not logged in, has no task, and satisfies the state invariant |
| Session.Write | pyxtb/api.py:145-155 | succeeds if and only if the command writer and the target writer both exist; it then appends exactly the frame to the target and changes nothing else; the two failures and their messages |
| Session.SendCommand | pyxtb/api.py:202-229 | "Not logged in", with nothing written, unless logged in or unauthenticated; on success exactly one frame `{"command": name, **args}` appended to the target writer |
| Session.LoggedInCanSend | pyxtb/api.py:218-219 | in a valid logged-in state every command can be sent, on either channel |
| Session.ReadChannel | pyxtb/api.py:157-177 | an absent reader raises "Reader not set up" and nothing changes; otherwise the frame is the stripped concatenation of the consumed chunks, and the reader keeps the rest |
| Session.ReadCommand | pyxtb/api.py:179-200 | one frame is read and interpreted; only that channel's reader changes |
| Session.StreamingPing | pyxtb/api.py:866-872 | a `ping` frame carrying the session id is appended to the streaming writer exactly when logged in with both writers; otherwise nothing changes |
| Session.Authenticate | pyxtb/api.py:270-283 | fresh command connection; the login frame is the only one written; the response is the raw envelope of the first frame read |
| Session.Establish | pyxtb/api.py:284-297 | a failed status raises the raw `errorDescr` and changes nothing. A success sets the session id, the streaming connection and a running task, marks the object logged in, empties the registry, and sends one streaming ping with that id. |
| Session.Login | pyxtb/api.py:258-297 | succeeds if and only if the response is accepted. On success three things hold: the session id is the envelope's, the object is logged in with an empty registry and a running task, and one ping is sent. On failure the raw `errorDescr` is raised and only the command connection changed. The invariant is preserved. |
| Session.Logout | pyxtb/api.py:299-312 | logged out, fails with "Not logged in" and sends nothing; logged in, one `logout` frame on the command writer, nothing read, logged out afterwards |
| Session.Aexit | pyxtb/api.py:122-143 | logs out only if logged in. A task that ended re-raises its exception. A cancelled task raises `CancelledError`. A running task is cancelled. Otherwise it returns false. The registry and delivery log are untouched. |
| Session.BindStreaming | pyxtb/api.py:722-727 | the keywords a streaming command sends are the forwarded ones without `unauthenticated`, plus the session id |
| Session.Subscribe | pyxtb/api.py:703-732 | the callback is registered first, whatever follows. Success requires a non-empty topic and a sendable session. Success appends one `get…` frame with the session id and keywords, and returns the closure for that topic and those keywords. The invariant is preserved. |
| Session.Unsubscribe | pyxtb/api.py:734-748 | an absent topic raises `KeyError` before anything is sent. Otherwise the whole entry is removed, then one `stop…` frame with the session id and keywords is sent. The invariant is preserved. |
| Session.SubscribeFacts | pyxtb/api.py:719-727 | a first subscription registers the topic and writes exactly one `get` frame |
| Session.SubscribeThenUnsubscribe | pyxtb/api.py:719-748 | calling the returned closure succeeds, restores the registry, and leaves exactly a `get` and a `stop` frame on the streaming writer |
| Session.StreamStep | pyxtb/api.py:237-256 | a task that is not running takes no step. Otherwise only the streaming reader, the delivery log and the task change. The log only grows. A read or decode error ends the task with that error. The invariant is preserved. |
| Session.BindPlain | pyxtb/api.py:314-328 | a command-channel command sends the forwarded keywords without `unauthenticated` |
| Session.SendAndRead | pyxtb/api.py:314-337 | a clashing keyword raises `TypeError` and a logged-out call raises "Not logged in", both with nothing changed. On success one frame is written, one response is read, and the result is `Shape` of its data. Conversely, once the frame can be sent, the read decides the result: a read error or an error interpreting the response is raised as is, and otherwise the result is exactly `Shape` of the interpreted data. With no command writer, the call raises "Writer not set up" and changes nothing. Only the command reader and writer change. |
| Session.StreamingFrameFields | pyxtb/api.py:722-727 | a streaming frame holds `command`, the session id and every forwarded keyword but `unauthenticated`, with the forwarded values unchanged |
| Session.LoggedInCanSubscribe | pyxtb/api.py:703-727 | in a valid logged-in state, a subscription to a non-empty topic with non-clashing keywords succeeds, returns its closure, and appends one `get…` frame to the streaming writer |
| Scenarios.CommandBeforeLogin | pyxtb/api.py:218-219 | before `login` every command fails with "Not logged in", and nothing is sent or read |
| Scenarios.LoginThenLogout | pyxtb/api.py:258-312 | after an accepted login and a logout, the command writer holds exactly the login and the logout frame, the object is logged out, and leaving the context cancels the task and returns false |
| Scenarios.LogoutThenExit | pyxtb/api.py:128-143 | logging out with a running task, then leaving the context, cancels the task and returns false |
| Scenarios.LoginFailureIsRaw | pyxtb/api.py:284-285 | a rejected login raises its own `errorDescr`, untranslated (the same envelope read by a command would be mapped by the table), and leaves the logged-in flag and the registry alone |
| Scenarios.CommandErrorTranslated | pyxtb/errors.py:85-90 | a command answered with a `BE005` failure raises the table message; one answered with `BE015` raises the envelope's description |
| Scenarios.PingEmptyBody | pyxtb/api.py:650-661 | `ping` answered with an empty body returns no content |
| Scenarios.PushStep | pyxtb/api.py:238-252 | a push frame for a topic with callbacks hands its data to exactly that topic's callbacks |
| Scenarios.TwoSubscribersInOrder | pyxtb/api.py:248-252 | two subscribers of one topic each get a push frame's data once, the first subscriber first, and the loop continues |
| Scenarios.DeliverTwo | pyxtb/api.py:251-252 | two quiet typed callbacks are called in order |
| Scenarios.RaisingListenerEndsTask | pyxtb/api.py:251-252 | a listener that raises ends the reading task with its exception, and later callbacks are not called |
| Scenarios.UnsubscribedTopicEndsTask | pyxtb/api.py:248-256 | after an unsubscribe, a push frame for that topic ends the reading task with `TypeError`, calling nobody |
| Scenarios.UnknownTopicStep | pyxtb/api.py:248-256 | a push frame for a topic without callbacks ends the task with `TypeError` |
| Scenarios.SkipStep | pyxtb/api.py:240-246 | any frame the loop skips (a falsy frame, or one whose `command` is missing or falsy) only advances the streaming reader |
| Scenarios.DeliverStep | pyxtb/api.py:248-252 | a push frame for a topic with one quiet listener delivers its data once |
| Scenarios.FrameWithoutTopicSkipped | pyxtb/api.py:237-252 | a frame without a topic is skipped, and the next push frame is still delivered |
| Scenarios.TickPricesSubscription | pyxtb/api.py:821-842 | a logged-in `subscribe_tick_prices` with non-clashing extra keywords succeeds, returns its closure, and appends one `getTickPrices` frame holding its keywords and the extra ones |
| Scenarios.TickPricesFrame | pyxtb/api.py:821-842 | that frame holds the symbol, the arrival time, the level (`null` when absent), the session id and every extra keyword |
| Scenarios.CandlesSubscription | pyxtb/api.py:764-784 | a logged-in `subscribe_get_candles` with non-clashing extra keywords succeeds and appends one `getCandles` frame |
| Scenarios.CandlesFrame | pyxtb/api.py:764-784 | that frame holds the symbol, the session id and every extra keyword |
| Scenarios.AexitReraises | pyxtb/api.py:137-141 | `__aexit__` re-raises the exception that ended the reading task, after logging out |
| Client.Api.constructor | pyxtb/api.py:95-111 | a fresh object with the given credentials and address, the demo or real ports, nothing connected, an empty registry and no task; `app_name`, `address` and `demo` default to `"pyxtb"`, the public xAPI host and the demo account |
| Client.Api.Write | pyxtb/api.py:145-155 | updates the fields as `Session.Write` says |
| Client.Api.ReadChunks | pyxtb/api.py:170-176 | the loop's read count is `Consumed`, and its buffer is the concatenation of exactly those chunks |
| Client.Api.Read | pyxtb/api.py:157-177 | updates the fields and returns as `Session.ReadChannel` says |
| Client.Api.ReadCommand | pyxtb/api.py:179-200 | as `Session.ReadCommand` |
| Client.Api.SendCommand | pyxtb/api.py:202-229 | as `Session.SendCommand` |
| Client.Api.StreamingPing | pyxtb/api.py:866-872 | as `Session.StreamingPing` |
| Client.Api.Authenticate | pyxtb/api.py:270-283 | as `Session.Authenticate` |
| Client.Api.Establish | pyxtb/api.py:284-297 | as `Session.Establish` |
| Client.Api.Login | pyxtb/api.py:258-297 | as `Session.Login`, preserving the invariant |
| Client.Api.Logout | pyxtb/api.py:299-312 | as `Session.Logout` |
| Client.Api.Aexit | pyxtb/api.py:122-143 | as `Session.Aexit`, preserving the invariant |
| Client.Api.Subscribe | pyxtb/api.py:703-727 | as `Session.Subscribe`, preserving the invariant |
| Client.Api.Unsubscribe | pyxtb/api.py:734-748 | as `Session.Unsubscribe`, preserving the invariant |
| Client.Api.UnsubscribeFn | pyxtb/api.py:729-732 | calling the closure is `Unsubscribe` with the topic and keywords captured at subscribe time |
| Client.Api.SendAndReadCommand | pyxtb/api.py:314-337 | as `Session.SendAndRead` |
| Client.Api.DeliverAll | pyxtb/api.py:251-252 | the callback loop appends exactly `Deliver`'s calls to the log, and ends the task with the first exception raised |
| Client.Api.StreamStep | pyxtb/api.py:237-256 | one pass of the loop, as `Session.StreamStep`, preserving the invariant |

## Left out

- Sockets are not modelled: `asyncio.open_connection`, TLS, closing the writers in `__aexit__` (`can_write_eof`, `close`, `wait_closed`) and the `asyncio.sleep` in `_read_`. Readers and writers are chunk sequences and frame logs.
- Concurrency is not modelled. The background task is a state (`NoTask`, `Running`, `Ended`, `Cancelled`) and one pass of its loop is `StreamStep`, an explicit step. Cancellation is immediate. No interleaving between the task and other coroutines is modelled.
- `json.loads`, `json.dumps` and `dataclasses_json` (`from_dict`, `to_dict`) are foreign libraries. They are the parameters `loads` and `convert`, and frames are logged as JSON values rather than text.
- JSON numbers are integers; floats are not modelled.
- UTF-8 decoding is not modelled. `strip` removes only the ASCII whitespace bytes, and `upper()` maps only ASCII letters.
- Client.Api.ReadChunks: requires a positive buffer size. With size 0 the source's loop never ends on any reader, because `read(0)` returns the empty chunk at once, and that chunk always has the buffer's length. Every caller uses 4096.
- Before the first `login`, `_callbacks` is a class attribute shared by every `Api` object. The model gives each object its own registry.
- The registry is not re-read while the callbacks of one frame run, so a listener that subscribes or unsubscribes during delivery is not modelled.
- The roughly 25 `get_*` and `trade_*` wrappers are not modelled individually. Each is a `_send_and_read_command_` call with a fixed name and record type, and `SendAndRead` covers them. The `subscribe_*` wrappers appear through their topics and the keywords of `subscribe_tick_prices` and `subscribe_get_candles`.
- `pyxtb/_types.py` (the record classes and enums), `pyxtb/__init__.py`, the logging output and the integration scripts under `tests/` are not part of this model. From `_types.py` only the envelope shapes are used.
- `__aenter__` only calls `login`, and `Login` covers it.
- The error-code table `Errors.Table` carries no contract of its own: its entries are stated through `HandleError`, `Message` and the example lemmas for particular codes. Its entries are pinned through the lemmas that read it rather than by an `ensures` over the whole 68-way `match`.
- Client.Api.DeliverAll: the deliveries of one frame are collected and stored in the log when the loop ends, rather than one at a time. No one can observe the log while the loop is running.
