/**
 * What `Api` puts on the wire (pyxtb/api.py): the broker's ports, the frame
 * `_send_command_` builds, how Python binds the keyword arguments that the
 * wrappers forward to it, and the `get`/`stop` command names of the streaming
 * topics.
 */
module Commands {
  import opened Values

  /** `Api._ConnectionInfo`: the command-channel port and the streaming port. */
  datatype ConnectionInfo = ConnectionInfo(port: int, streaming: int)

  const Demo := ConnectionInfo(5124, 5125)
  const Real := ConnectionInfo(5112, 5113)

  /** The ports `Api.__init__` picks from its `demo` flag. */
  function ConnectionFor(demo: bool): (info: ConnectionInfo)
    ensures info.streaming == info.port + 1
    ensures info.port == (if demo then 5124 else 5112)
  {
    if demo then Demo else Real
  }

  /**
   * `{"command": command, **kwargs}`: the frame `_send_command_` writes. Python
   * binds a `command` keyword to the parameter, so `kwargs` never holds one.
   */
  function Frame(command: string, kwargs: map<string, Json>): (frame: Json)
    requires "command" !in kwargs
    ensures frame.JObj? && frame.fields.Keys == kwargs.Keys + {"command"}
    ensures frame.fields["command"] == JStr(command)
    ensures forall k :: k in kwargs ==> frame.fields[k] == kwargs[k]
  {
    JObj(kwargs["command" := JStr(command)])
  }

  /** The command name and the other keys of an outbound frame, if it is one. */
  function Unframe(frame: Json): Option<(string, map<string, Json>)>
  {
    if frame.JObj? && "command" in frame.fields && frame.fields["command"].JStr? then
      Some((frame.fields["command"].s, frame.fields - {"command"}))
    else
      None
  }

  /** A frame gives back exactly the name and the arguments it was built from, and only a frame does. */
  lemma FrameRoundTrip(command: string, kwargs: map<string, Json>, frame: Json)
    requires "command" !in kwargs
    ensures Unframe(Frame(command, kwargs)) == Some((command, kwargs))
    ensures Unframe(frame) == Some((command, kwargs)) ==> frame == Frame(command, kwargs)
  {
    var f := Frame(command, kwargs);
    assert f.fields - {"command"} == kwargs;
    if Unframe(frame) == Some((command, kwargs)) {
      assert frame.fields == kwargs["command" := JStr(command)];
    }
  }

  /** The names of `_send_command_`'s own parameters that a forwarded `**kwargs` may collide with. */
  const SendCommandParameters: set<string> := {"self", "writer", "command"}

  /** How a call `_send_command_(writer, name, <explicit>, **kwargs)` binds its keywords. */
  datatype Binding = Binding(unauthenticated: bool, args: map<string, Json>)

  /**
   * Binding the keywords a caller forwards: a key naming one of the positional
   * parameters, or one also passed explicitly, makes the call raise
   * `TypeError`; an `unauthenticated` key is taken by that parameter (Python
   * truthiness decides it) and is not sent; every other key is sent.
   */
  function BindSendCommand(explicit: map<string, Json>, kwargs: map<string, Json>): (r: Result<Binding>)
    requires explicit.Keys !! SendCommandParameters + {"unauthenticated"}
    ensures r.Err? <==> !(kwargs.Keys !! SendCommandParameters + explicit.Keys)
    ensures r.Err? ==> r.error == TypeError
    ensures r.Ok? ==> r.value.unauthenticated == ("unauthenticated" in kwargs && Truthy(kwargs["unauthenticated"]))
    ensures r.Ok? ==> r.value.args.Keys == explicit.Keys + kwargs.Keys - {"unauthenticated"}
    ensures r.Ok? ==> "command" !in r.value.args && "unauthenticated" !in r.value.args
    ensures r.Ok? ==> forall k :: k in r.value.args ==> r.value.args[k] == if k in explicit then explicit[k] else kwargs[k]
  {
    if !(kwargs.Keys !! SendCommandParameters + explicit.Keys) then Err(TypeError)
    else
      var unauthenticated := "unauthenticated" in kwargs && Truthy(kwargs["unauthenticated"]);
      Ok(Binding(unauthenticated, (explicit + kwargs) - {"unauthenticated"}))
  }

  /** `c.upper()` on a single character; only ASCII letters are mapped. */
  function Upper(c: char): char
  {
    if 'a' <= c <= 'z' then (c as int - 32) as char else c
  }

  /**
   * `f"{prefix}{topic[0].upper()}{topic[1:]}"`, the streaming command for a
   * topic; indexing the empty topic raises `IndexError`.
   */
  function WireName(prefix: string, topic: string): (r: Result<string>)
    ensures r.Err? <==> topic == []
    ensures r.Err? ==> r.error == IndexError
    ensures r.Ok? ==> |r.value| == |prefix| + |topic| && r.value[..|prefix|] == prefix
    ensures r.Ok? ==> r.value[|prefix|] == Upper(topic[0]) && r.value[|prefix| + 1..] == topic[1..]
  {
    if topic == [] then Err(IndexError) else Ok(prefix + [Upper(topic[0])] + topic[1..])
  }

  /** Two topics that do not start with a capital letter get the same command name only if they are equal. */
  lemma WireNameInjective(prefix: string, topic1: string, topic2: string)
    requires topic1 != [] && topic2 != []
    requires !('A' <= topic1[0] <= 'Z') && !('A' <= topic2[0] <= 'Z')
    requires WireName(prefix, topic1) == WireName(prefix, topic2)
    ensures topic1 == topic2
  {
    var w := WireName(prefix, topic1).value;
    assert |topic1| == |topic2|;
    assert Upper(topic1[0]) == w[|prefix|] == Upper(topic2[0]);
    assert topic1[0] == topic2[0];
    assert topic1 == [topic1[0]] + topic1[1..];
    assert topic2 == [topic2[0]] + topic2[1..];
  }

  /** Distinct topics that do not start with a capital letter get distinct command names. */
  lemma WireNameDiffers(prefix: string, topic1: string, topic2: string)
    requires topic1 != [] && topic2 != [] && topic1 != topic2
    requires !('A' <= topic1[0] <= 'Z') && !('A' <= topic2[0] <= 'Z')
    ensures WireName(prefix, topic1) != WireName(prefix, topic2)
  {
    if WireName(prefix, topic1) == WireName(prefix, topic2) {
      WireNameInjective(prefix, topic1, topic2);
    }
  }

  /** Upper-casing loses the first letter's case: `tickPrices` and `TickPrices` name the same command. */
  lemma WireNameCaseCollision()
    ensures WireName("get", "tickPrices") == WireName("get", "TickPrices") == Ok("getTickPrices")
  {
    assert "get" + ['T'] + "ickPrices" == "getTickPrices";
  }

  /** The subscribe and the unsubscribe command of a topic always differ. */
  lemma GetAndStopDiffer(topic: string)
    requires topic != []
    ensures WireName("get", topic).value != WireName("stop", topic).value
  {
    assert WireName("get", topic).value[0] == 'g';
    assert WireName("stop", topic).value[0] == 's';
  }

  /** The topics of the `subscribe_*` wrappers. */
  const BalanceTopic := "balance"
  const CandlesTopic := "candles"
  const KeepAliveTopic := "keepAlive"
  const NewsTopic := "news"
  const ProfitsTopic := "profits"
  const TickPricesTopic := "tickPrices"
  const TradesTopic := "trades"
  const TradeStatusTopic := "tradeStatus"

  const Topics: seq<string> :=
    [BalanceTopic, CandlesTopic, KeepAliveTopic, NewsTopic, ProfitsTopic, TickPricesTopic, TradesTopic, TradeStatusTopic]

  /** The commands the wrappers' topics are subscribed with. */
  lemma SubscribeCommands()
    ensures WireName("get", BalanceTopic) == Ok("getBalance")
    ensures WireName("get", CandlesTopic) == Ok("getCandles")
    ensures WireName("get", KeepAliveTopic) == Ok("getKeepAlive")
    ensures WireName("get", NewsTopic) == Ok("getNews")
    ensures WireName("get", ProfitsTopic) == Ok("getProfits")
    ensures WireName("get", TickPricesTopic) == Ok("getTickPrices")
    ensures WireName("get", TradesTopic) == Ok("getTrades")
    ensures WireName("get", TradeStatusTopic) == Ok("getTradeStatus")
  {
    assert "get" + ['B'] + "alance" == "getBalance";
    assert "get" + ['C'] + "andles" == "getCandles";
    assert "get" + ['K'] + "eepAlive" == "getKeepAlive";
    assert "get" + ['N'] + "ews" == "getNews";
    assert "get" + ['P'] + "rofits" == "getProfits";
    assert "get" + ['T'] + "ickPrices" == "getTickPrices";
    assert "get" + ['T'] + "rades" == "getTrades";
    assert "get" + ['T'] + "radeStatus" == "getTradeStatus";
  }

  /** The commands the wrappers' topics are unsubscribed with. */
  lemma UnsubscribeCommands()
    ensures WireName("stop", BalanceTopic) == Ok("stopBalance")
    ensures WireName("stop", CandlesTopic) == Ok("stopCandles")
    ensures WireName("stop", KeepAliveTopic) == Ok("stopKeepAlive")
    ensures WireName("stop", NewsTopic) == Ok("stopNews")
    ensures WireName("stop", ProfitsTopic) == Ok("stopProfits")
    ensures WireName("stop", TickPricesTopic) == Ok("stopTickPrices")
    ensures WireName("stop", TradesTopic) == Ok("stopTrades")
    ensures WireName("stop", TradeStatusTopic) == Ok("stopTradeStatus")
  {
    assert "stop" + ['B'] + "alance" == "stopBalance";
    assert "stop" + ['C'] + "andles" == "stopCandles";
    assert "stop" + ['K'] + "eepAlive" == "stopKeepAlive";
    assert "stop" + ['N'] + "ews" == "stopNews";
    assert "stop" + ['P'] + "rofits" == "stopProfits";
    assert "stop" + ['T'] + "ickPrices" == "stopTickPrices";
    assert "stop" + ['T'] + "rades" == "stopTrades";
    assert "stop" + ['T'] + "radeStatus" == "stopTradeStatus";
  }

  /** No two wrapper topics share a command name. */
  lemma TopicCommandsDistinct()
    ensures forall i, j :: 0 <= i < j < |Topics| ==> WireName("get", Topics[i]) != WireName("get", Topics[j])
  {
    forall i, j | 0 <= i < j < |Topics|
      ensures WireName("get", Topics[i]) != WireName("get", Topics[j])
    {
      WireNameDiffers("get", Topics[i], Topics[j]);
    }
  }

  /**
   * The keywords `subscribe_tick_prices` adds for its topic, with its
   * defaults; an absent `maxLevel` is sent as `null`.
   */
  function TickPricesKwargs(symbol: string, minArrivalTime: int := 0, maxLevel: Option<int> := None): (kwargs: map<string, Json>)
    ensures kwargs.Keys == {"symbol", "minArrivalTime", "maxLevel"}
    ensures kwargs["symbol"] == JStr(symbol) && kwargs["minArrivalTime"] == JNum(minArrivalTime)
    ensures maxLevel.None? <==> kwargs["maxLevel"] == JNull
    ensures maxLevel.Some? ==> kwargs["maxLevel"] == JNum(maxLevel.value)
  {
    map["symbol" := JStr(symbol), "minArrivalTime" := JNum(minArrivalTime),
        "maxLevel" := if maxLevel.Some? then JNum(maxLevel.value) else JNull]
  }

  /** The keyword `subscribe_get_candles` adds for its topic. */
  function CandlesKwargs(symbol: string): (kwargs: map<string, Json>)
    ensures kwargs.Keys == {"symbol"} && kwargs["symbol"] == JStr(symbol)
  {
    map["symbol" := JStr(symbol)]
  }

  /** The keywords of the `login` command: the credentials under `arguments`, and the application name. */
  function LoginKwargs(userId: int, password: string, appName: string): (kwargs: map<string, Json>)
    ensures kwargs.Keys == {"arguments", "appName"}
    ensures kwargs["arguments"] == JObj(map["userId" := JNum(userId), "password" := JStr(password)])
    ensures kwargs["appName"] == JStr(appName)
  {
    map["arguments" := JObj(map["userId" := JNum(userId), "password" := JStr(password)]),
        "appName" := JStr(appName)]
  }
}
