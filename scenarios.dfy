/**
 * Event sequences of the model, with their outcomes proved, that exercise the
 * properties the collector relies on: batches that neither lose nor repeat a
 * trade, a failed store that ends the flush loop, ids that are never reused,
 * requests settled exactly once, and the worked `updateTrades` example.
 */
module Scenarios {
  import opened Wrappers
  import opened Json
  import opened TradeRecords
  import opened TradeBuffer
  import opened HitbtcSocket
  import opened HitbtcSymbols
  import opened Collector
  import Dictionaries

  /**
   * The queue holds a, b, c when a flush detaches it; d and e arrive while the batch
   * is being stored. The first batch is exactly a, b, c and the next exactly d, e.
   */
  method FlushWhileStoring(a: Entry, b: Entry, c: Entry, d: Entry, e: Entry)
    returns (first: Option<seq<Entry>>, second: Option<seq<Entry>>, left: seq<Entry>)
    ensures first == Some([a, b, c])
    ensures second == Some([d, e])
    ensures left == []
  {
    var queue := new TradeQueue();
    queue.Push(a);
    queue.Push(b);
    queue.Push(c);
    assert queue.items == [a, b, c];
    var resumes;
    first, resumes := queue.FlushStep(Stored);
    queue.Push(d);
    queue.Push(e);
    assert queue.items == [d, e];
    second, resumes := queue.FlushStep(Stored);
    left := queue.items;
  }

  /** An empty queue makes no storage call; the first trade pushed afterwards is the next batch. */
  method IdleThenFlush(a: Entry) returns (idle: Option<seq<Entry>>, waits: bool, batch: Option<seq<Entry>>)
    ensures idle == None && waits
    ensures batch == Some([a])
  {
    var queue := new TradeQueue();
    idle, waits := queue.FlushStep(Stored);
    queue.Push(a);
    assert queue.items == [a];
    var resumes;
    batch, resumes := queue.FlushStep(Stored);
  }

  /**
   * A storage call that fails ends the flush loop: the detached batch a, b is gone
   * from the queue, no further pass runs, and trades pushed afterwards (c, d) stay
   * queued with nothing left to take them.
   */
  method StorageFailureStopsFlushing(a: Entry, b: Entry, c: Entry, d: Entry)
    returns (lost: Option<seq<Entry>>, resumes: bool, stranded: seq<Entry>)
    ensures lost == Some([a, b])
    ensures !resumes
    ensures stranded == [c, d]
  {
    var queue := new TradeQueue();
    queue.Push(a);
    queue.Push(b);
    assert queue.items == [a, b];
    lost, resumes := queue.FlushStep(StoreFailed);
    queue.Push(c);
    queue.Push(d);
    stranded := queue.items;
  }

  /**
   * A request before the socket opens is refused at once and uses no id; after the
   * open event the ids go 2, 3; a close rejects both with `Disconnected`; after the
   * reconnect the next id is 4, so a reply to an old request cannot match it.
   */
  method IdsAcrossReconnect(params: Json)
    returns (early: RequestOutcome, r1: RequestOutcome, r2: RequestOutcome,
             rejected: seq<Settlement>, r3: RequestOutcome, pending: set<int>)
    ensures early == Refused(NotConnected)
    ensures r1 == Sent(2, Call("getSymbols", JObj(map[]))) && r2 == Sent(3, Call("subscribeTrades", params))
    ensures forall s :: s in rejected <==> s == Rejected(2, Disconnected) || s == Rejected(3, Disconnected)
    ensures r3 == Sent(4, Call("getSymbols", JObj(map[])))
    ensures pending == {4}
  {
    var client := new SocketClient<nat>();
    early := client.Request("getSymbols", JObj(map[]));
    client.OnOpen();
    r1 := client.Request("getSymbols", JObj(map[]));
    r2 := client.Request("subscribeTrades", params);
    rejected := client.OnClose();
    client.OnReconnectTimer();
    client.OnOpen();
    r3 := client.Request("getSymbols", JObj(map[]));
    pending := client.promises.Keys;
  }

  /**
   * A request that times out is rejected with `Timeout`; the reply that arrives
   * afterwards is dropped, and so is a second firing of the timer.
   */
  method LateReplyDropped(result: Json)
    returns (timeout: Option<Settlement>, late: Effect<nat>, again: Option<Settlement>)
    ensures timeout == Some(Rejected(2, Timeout))
    ensures late == Dropped
    ensures again == None
  {
    var client := new SocketClient<nat>();
    client.OnOpen();
    var r := client.Request("getSymbols", JObj(map[]));
    timeout := client.OnTimeout(2);
    late := client.OnMessage(Reply(2.0, "result", result));
    again := client.OnTimeout(2);
  }

  /** A frame `{id, <member>: value}`. */
  function Reply(id: real, member: string, value: Json): Frame
  {
    Parsed(JObj(map["id" := JNum(id), member := value]))
  }

  /** A frame `{method, params}`, with an `id` member when `id` is given. */
  function Notification(name: string, params: Json, id: Option<real>): Frame
  {
    match id
    case None => Parsed(JObj(map["method" := JStr(name), "params" := params]))
    case Some(n) => Parsed(JObj(map["id" := JNum(n), "method" := JStr(name), "params" := params]))
  }

  /** A reply with a truthy result resolves its request; the same reply again is dropped. */
  method ReplySettlesOnce(result: Json) returns (resolved: Effect<nat>, duplicate: Effect<nat>)
    requires Truthy(Some(result))
    ensures resolved == Settled(Resolved(2, result))
    ensures duplicate == Dropped
  {
    var client := new SocketClient<nat>();
    client.OnOpen();
    var r := client.Request("getSymbols", JObj(map[]));
    assert Classify(Reply(2.0, "result", result)) == Response(JNum(2.0), Some(result), None);
    assert RegistryKey(JNum(2.0)) == Some(2);
    resolved := client.OnMessage(Reply(2.0, "result", result));
    duplicate := client.OnMessage(Reply(2.0, "result", result));
  }

  /** A reply with only an `error` member rejects its request with that error when it is truthy. */
  method ErrorReplyRejects(error: Json) returns (remote: Effect<nat>)
    ensures Truthy(Some(error)) ==> remote == Settled(Rejected(2, Remote(error)))
    ensures !Truthy(Some(error)) ==> remote == Unsettled(2)
  {
    var client := new SocketClient<nat>();
    client.OnOpen();
    var r := client.Request("getSymbols", JObj(map[]));
    assert Classify(Reply(2.0, "error", error)) == Response(JNum(2.0), None, Some(error));
    assert RegistryKey(JNum(2.0)) == Some(2);
    remote := client.OnMessage(Reply(2.0, "error", error));
  }

  /**
   * A reply whose result is falsy and that has no error removes its request without
   * settling it, so the request's timer finds nothing to reject.
   */
  method FalsyReplyNeverSettles() returns (unsettled: Effect<nat>, timer: Option<Settlement>)
    ensures unsettled == Unsettled(2)
    ensures timer == None
  {
    var client := new SocketClient<nat>();
    client.OnOpen();
    var r := client.Request("subscribeTrades", JObj(map[]));
    assert Classify(Reply(2.0, "result", JBool(false))) == Response(JNum(2.0), Some(JBool(false)), None);
    assert RegistryKey(JNum(2.0)) == Some(2);
    unsettled := client.OnMessage(Reply(2.0, "result", JBool(false)));
    timer := client.OnTimeout(2);
  }

  /**
   * A push goes to every handler of its method in registration order, whatever other
   * methods have; a falsy `id` of 0 does not stop a frame from being a push.
   */
  method PushReachesHandlers(params: Json) returns (pushed: Effect<nat>, zeroId: Effect<nat>)
    requires Truthy(Some(params))
    ensures pushed == Dispatched([1, 2], params)
    ensures zeroId == Dispatched([1, 2], params)
  {
    var client := new SocketClient<nat>();
    client.SetHandler("updateTrades", 1);
    client.SetHandler("snapshotTrades", 7);
    client.SetHandler("updateTrades", 2);
    assert Classify(Notification("updateTrades", params, None)) == Push(JStr("updateTrades"), params);
    pushed := client.OnMessage(Notification("updateTrades", params, None));
    assert Classify(Notification("updateTrades", params, Some(0.0))) == Push(JStr("updateTrades"), params);
    zeroId := client.OnMessage(Notification("updateTrades", params, Some(0.0)));
  }

  /** A push of an unregistered method, an unparseable frame and an array frame are all dropped. */
  method UnmatchedFramesDropped(params: Json) returns (unknown: Effect<nat>, garbage: Effect<nat>, other: Effect<nat>)
    requires Truthy(Some(params))
    ensures unknown == Dropped && garbage == Dropped && other == Dropped
  {
    var client := new SocketClient<nat>();
    client.SetHandler("updateTrades", 1);
    assert Classify(Notification("ticker", params, None)) == Push(JStr("ticker"), params);
    unknown := client.OnMessage(Notification("ticker", params, None));
    garbage := client.OnMessage(Unparseable);
    other := client.OnMessage(Parsed(JArr([params])));
  }

  /**
   * Discovery returns BTCUSD as BTC/USD; an `updateTrades` push for BTCUSD carrying one
   * buy trade reaches the one registered `updateTrades` handler with its params, and
   * that handler, given the decoded params, queues one record tagged `hitbtc:BTC/USD`.
   */
  method UpdateTradesExample(getTime: Json -> Json) returns (push: Effect<nat>, batch: seq<Entry>)
    requires getTime(JNum(1700000000000.0)) == JNum(1700000000000.0)
    ensures push == Dispatched([1], UpdateTradesParams())
    ensures batch == [Mapped(
      TradeRecord(JStr("0.5"), JStr("100"), JNum(1700000000000.0), JNum(1.0), BUY, "BTCUSD"),
      "hitbtc:BTC/USD")]
  {
    var client := new SocketClient<nat>();
    client.SetHandler("updateTrades", 1);
    var params := UpdateTradesParams();
    assert Classify(Notification("updateTrades", params, None)) == Push(JStr("updateTrades"), params);
    push := client.OnMessage(Notification("updateTrades", params, None));
    var directory := new SymbolDirectory();
    var symbols := [HitbtcSymbol("BTCUSD", "BTC", "USD")];
    assert Reached([true]) == 1 && symbols[..1] == symbols;
    assert Dictionaries.DisplayName("BTC", "USD") == "BTC/USD";
    assert SymbolWrites(symbols)[0] == ("BTCUSD", "BTC/USD");
    assert SymbolWrites(symbols) == [("BTCUSD", "BTC/USD")];
    assert Dictionaries.Assign(map[], [("BTCUSD", "BTC/USD")]) == map["BTCUSD" := "BTC/USD"];
    var subscribed := directory.OnConnected(Success(symbols), [true]);
    assert directory.SymbolName("BTCUSD") == Some("BTC/USD");
    var queue := new TradeQueue();
    var trade := HitbtcTrade(JNum(1.0), JStr("100"), JStr("0.5"), JStr("buy"), JNum(1700000000000.0));
    OnHitbtcTrades(queue, directory, TradesUpdate("BTCUSD", [trade]), getTime);
    assert HitbtcMarket(Some("BTC/USD")) == "hitbtc:BTC/USD";
    batch := queue.Drain();
  }

  /** The params of the example push: `{symbol: "BTCUSD", data: [{id, price, quantity, side, timestamp}]}`. */
  function UpdateTradesParams(): Json
  {
    JObj(map["symbol" := JStr("BTCUSD"), "data" := JArr([JObj(map[
      "id" := JNum(1.0), "price" := JStr("100"), "quantity" := JStr("0.5"),
      "side" := JStr("buy"), "timestamp" := JNum(1700000000000.0)])])])
  }
}
