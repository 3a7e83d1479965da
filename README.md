# candleMaker trade collector, modelled in Dafny

This project models the core of a live crypto-trade collector. It has two parts.

- **The HitBTC correlation client** (`SocketClient` in `exchanges/hitbtc.js`). It turns a JSON
  WebSocket into a request/response protocol. It has a request-id counter, a registry of
  pending requests and a table of push handlers of each method. The WebSocket's events are
  methods of the class: open, the start of a closing handshake, close, the 500 ms reconnect
  timer, an inbound frame, and a request's 10 s timer. The module-level `symbolsDictionary`,
  the on-connect routine (discover symbols, name them, subscribe) and `getSymbolName` are in
  `hitbtc_symbols.dfy`.
- **The trade normaliser and buffer** (`collector.js`). The two pure `bitstampify*` mappers
  build the common record `{amount, price, timestamp, id, type, symbol}`. The Binance discovery
  loop builds the subscription list and the symbol dictionary. The three exchange handlers tag
  a trade with its `market` and push it onto the shared `tradesQueue`. One step of
  `processTrades` either waits on an empty queue or detaches the whole queue as one batch,
  and goes on only if storing that batch succeeds.

Files:

- `wrappers.dfy`: Option and Result.
- `json.dfy`: parsed JSON values, property reads and JavaScript truthiness.
- `dictionaries.dfy`: property reads and a loop of `dict[k] = v` writes, with their lemmas. Both discovery loops use it.
- `trade_records.dfy`: the record, the raw trade shapes and the mappers.
- `trade_buffer.dfy`: the queue class.
- `collector.dfy`: the Binance discovery loop and the handlers.
- `hitbtc_socket.dfy`: the correlation client.
- `hitbtc_symbols.dfy`: the HitBTC symbol dictionary and the on-connect routine.
- `scenarios.dfy`: event sequences of the model, with their outcomes proved.

Inputs from outside the model are parameters:

- the discovery results;
- how each awaited request settled;
- the date parser behind `new Date(t).getTime()`;
- inbound frames.

## Behaviour as written

The model follows the code where it differs from the system's stated design:

- The HitBTC symbol dictionary is module-level and never cleared. A reconnect adds and
  overwrites entries; it does not rebuild the dictionary (`ReconnectsAccumulate`).
- `_id` is never reset: ids are unique for the life of the client, not per connection.
- A response whose `result` and `error` are both falsy is removed from the registry but
  neither resolved nor rejected. Its timer then finds nothing, so the caller's promise never
  settles (`FalsyReplyNeverSettles`).
- Binance trades are always recorded with `type` 1 (buy), whatever `maker` says.
- The Bitstamp handler pushes the exchange's own object with `market` added. Its `timestamp`
  is set to `microtimestamp`, so it is not converted to milliseconds, and it has no `symbol`.
- Only a truthy `id` makes a response. A frame `{id: 0, method, params}` is handled as a push.
- A `getSymbolName` or Binance dictionary miss is written into the market tag as `undefined`.
- A failed storage call ends the flush loop. In `processTrades` (collector.js:13-25) nothing
  catches a rejection of the awaited `redisClient.processTrades(...)` at line 22, so the
  recursive `processTrades()` at line 24 is never reached, and nothing awaits or catches the
  loop's own promise (lines 17, 24, 152). The detached batch is lost, later trades pile up in
  the queue with nothing to take them, and Node's handling of the unhandled rejection may end
  the process. The loop does not drop one batch and carry on (`FlushStep`,
  `StorageFailureStopsFlushing`).
- A reconnect does not re-subscribe the symbols known from earlier connections. The on-connect
  routine (exchanges/hitbtc.js:106-117) subscribes only the reached prefix of the fresh
  `getSymbols` list. A name kept in the dictionary from an earlier connection is not
  subscribed again unless it is listed, and the `updateTrades` handler (collector.js:134) is
  never paused while this runs (`OnConnected`, `UnreachedNamesKept`).
- `getSymbolName` is called with the one-element array `[trades.symbol]`. As a property key
  that is the symbol itself (`SingletonArrayKey`).

## Model

| member | source | states |
|---|---|---|
| `TradeRecords.BitstampifyBinanceTrade` | collector.js:83-92 | the record's amount is the trade's quantity, its price the price, its timestamp the event time, its id the trade id, its symbol the symbol, and its `type` is 1 (buy) |
| `TradeRecords.BitstampifyHitbtcTrade` | collector.js:119-129 | the record's amount, price and id are the trade's quantity, price and id; its timestamp is the parsed date; its `type` is 1 exactly when `side` is "buy" and 0 exactly otherwise; its symbol is the caller's |
| `TradeRecords.BinanceSideIgnored` | collector.js:83-92 | changing `maker` or `eventType` does not change a Binance record: which side was the maker is never read |
| `TradeRecords.BinanceRecordFields` | collector.js:83-92 | two Binance trades give the same record exactly when they agree on quantity, price, eventTime, tradeId and symbol |
| `TradeRecords.HitbtcRecordFields` | collector.js:119-129 | two HitBTC trades of one update give the same record exactly when they agree on quantity, price, id, parsed timestamp and whether the side is "buy" |
| `Dictionaries.Lookup` | collector.js:113 | `dictionary[key]` is `undefined` exactly when the dictionary has no such key, and otherwise the stored value |
| `Dictionaries.LookupAfterAssign` | collector.js:99-102 | after a loop of writes, reading a key gives its last written value |
| `Dictionaries.LookupUnwritten` | collector.js:99-102 | after a loop of writes, reading a key no write uses gives what it gave before the loop, `undefined` included |
| `Dictionaries.AssignSnoc` | collector.js:99-102 | one more `dict[k] = v` at the end of the loop updates exactly key k |
| `Dictionaries.AssignKeys` | collector.js:99-102 | after the loop the keys are the old keys plus every key written |
| `Dictionaries.AssignLastWrite` | collector.js:101 | a key ends with the value of its last write, so a later duplicate overwrites an earlier one |
| `Dictionaries.AssignKeepsOthers` | exchanges/hitbtc.js:110-113 | a key that no write uses keeps its old value |
| `Dictionaries.AssignConcat` | exchanges/hitbtc.js:110-113 | two loops over one dictionary, one after the other, equal one loop over both lists |
| `Collector.GetBinancePairs` | collector.js:94-105 | `subscribePairs` lists every symbol in input order; the dictionary's keys are exactly the listed symbols, and each maps to `baseAsset/quoteAsset` of its last entry |
| `Collector.OnBinanceTrade` | collector.js:110-116 | appends exactly one entry, the mapped trade, tagged `binance:` plus the dictionary name (or `undefined`) |
| `Collector.OnBitstampTrade` | collector.js:59-63 | appends exactly one entry, the message with `timestamp` replaced by `microtimestamp`, tagged `bitstamp:` plus the pair name |
| `Collector.OnHitbtcTrades` | collector.js:134-142 | appends one entry per element of `trades.data`, in order, after the unchanged old entries; each is tagged `hitbtc:` plus `getSymbolName(symbol)` |
| `Collector.HitbtcEntriesTagged` | collector.js:136-138 | the k-th appended HitBTC entry is the k-th trade mapped with the update's symbol and tagged `hitbtc:` plus the name |
| `TradeBuffer.TradeQueue.constructor` | collector.js:9 | the queue starts empty |
| `TradeBuffer.TradeQueue.Push` | collector.js:62 | the entry is added at the end and nothing else changes |
| `TradeBuffer.TradeQueue.Drain` | collector.js:22 | returns exactly the old contents, in order, and leaves the queue empty |
| `TradeBuffer.TradeQueue.FlushStep` | collector.js:13-25 | an empty queue gives no batch (no storage call), stays unchanged and the loop goes on; otherwise the batch is the whole old contents, the queue is emptied, and the loop goes on exactly when the storage call succeeded |
| `HitbtcSocket.Classify` | exchanges/hitbtc.js:46-69 | unparseable text is no message; a frame is a response exactly when its `id` is truthy, carrying its `id`, `result` and `error`; it is a push exactly when `id` is falsy and `method` and `params` are both truthy, carrying those two; anything else is unprocessed |
| `HitbtcSocket.SocketClient.constructor` | exchanges/hitbtc.js:18-24 | `_id` starts at 1, the registry and the handler table are empty, and the socket is connecting |
| `HitbtcSocket.SocketClient.OnOpen` | exchanges/hitbtc.js:28-31 | the socket becomes OPEN; nothing else changes |
| `HitbtcSocket.SocketClient.OnClosing` | exchanges/hitbtc.js:77 | a closing socket is no longer OPEN; nothing else changes |
| `HitbtcSocket.SocketClient.OnClose` | exchanges/hitbtc.js:32-37 | every pending request is rejected once with `Disconnected` and removed, leaving the registry empty; the handlers and `_id` are kept |
| `HitbtcSocket.SocketClient.OnReconnectTimer` | exchanges/hitbtc.js:38 | a new socket starts connecting; `_id`, the registry and the handlers are not reset |
| `HitbtcSocket.SocketClient.Request` | exchanges/hitbtc.js:76-94 | on an open socket: takes id `_id + 1`, which is greater than every id issued before; registers it and sends `{method, params, id}`. Otherwise: rejects at once, with no new entry and the same `_id` |
| `HitbtcSocket.SocketClient.OnTimeout` | exchanges/hitbtc.js:84-89 | a request still pending is removed and rejected with `Timeout`; an already settled one is left alone |
| `HitbtcSocket.SocketClient.OnMessage` | exchanges/hitbtc.js:43-73 | a response with a pending id removes that entry exactly once. It resolves on a truthy result, else rejects on a truthy error, else settles nothing. A push of a registered method goes to all its handlers in registration order. Any other frame, including unparseable text, changes nothing |
| `HitbtcSocket.SocketClient.SetHandler` | exchanges/hitbtc.js:96-101 | appends the callback to the method's list, creating it if absent; other methods' lists are untouched |
| `HitbtcSymbols.Reached` | exchanges/hitbtc.js:110-113 | the loop reaches every symbol up to and including the first failed subscription, or all of them |
| `HitbtcSymbols.SingletonArrayKey` | collector.js:138 | `[symbol]` used as a property key names the property `symbol` |
| `HitbtcSymbols.SymbolDirectory.constructor` | exchanges/hitbtc.js:15 | the dictionary starts empty |
| `HitbtcSymbols.SymbolDirectory.SymbolName` | exchanges/hitbtc.js:120-122 | `getSymbolName(symbol)` is `undefined` exactly when the dictionary has no entry for the symbol, and otherwise its display name |
| `HitbtcSymbols.SymbolDirectory.OnConnected` | exchanges/hitbtc.js:106-117 | a failed discovery changes nothing. Otherwise the reached symbols' names are written in order and each reached symbol is subscribed; the first failed request ends the loop silently. No key is ever removed |
| `HitbtcSymbols.ReconnectsAccumulate` | exchanges/hitbtc.js:15 | the dictionary after connecting twice is the dictionary after one loop over both symbol lists |
| `HitbtcSymbols.NamesAfterConnect` | exchanges/hitbtc.js:111 | after the loop, a reached symbol is named by its last reached entry |
| `HitbtcSymbols.UnreachedNamesKept` | exchanges/hitbtc.js:110-113 | a symbol the loop did not reach keeps its earlier name, and stays absent if it had none |
| `Scenarios.FlushWhileStoring` | collector.js:13-25 | with a, b, c queued at a flush and d, e pushed while storing, the batches are exactly [a, b, c] then [d, e] |
| `Scenarios.IdleThenFlush` | collector.js:14-19 | an empty queue makes no storage call and the loop waits and goes on; the first trade pushed later is the next batch |
| `Scenarios.StorageFailureStopsFlushing` | collector.js:22-24 | a failed storage call loses the detached batch [a, b] and ends the loop; trades c, d pushed afterwards stay queued |
| `Scenarios.IdsAcrossReconnect` | exchanges/hitbtc.js:76-94 | a request before open is refused; then ids 2 and 3 are issued; close rejects both; after the reconnect the next id is 4 |
| `Scenarios.LateReplyDropped` | exchanges/hitbtc.js:84-89 | a timed-out request is rejected with `Timeout`; its late reply and a second timer firing are dropped |
| `Scenarios.ReplySettlesOnce` | exchanges/hitbtc.js:47-52 | a truthy result resolves the request; the same reply again is dropped |
| `Scenarios.ErrorReplyRejects` | exchanges/hitbtc.js:53-54 | a reply with a truthy error rejects the request with it |
| `Scenarios.FalsyReplyNeverSettles` | exchanges/hitbtc.js:55-57 | a reply with a falsy result and no error removes the request unsettled, and its timer then does nothing |
| `Scenarios.PushReachesHandlers` | exchanges/hitbtc.js:59-63 | a push reaches every handler of its method in registration order, also when it has `id: 0` |
| `Scenarios.UnmatchedFramesDropped` | exchanges/hitbtc.js:64-72 | an unregistered method, unparseable text and a frame of another shape are dropped |
| `Scenarios.UpdateTradesExample` | collector.js:134-142 | an `updateTrades` push reaches exactly the one registered handler with its params; after discovery names BTCUSD BTC/USD, the `updateTrades` handler, called with those params, queues exactly the expected record, tagged `hitbtc:BTC/USD` |

## Left out

- The WebSocket transport, `ws.send` and `JSON.stringify`. `Request` returns the frame it sends; the socket's events are method calls.
- `JSON.parse`: an inbound frame is given as already parsed, or as unparseable.
- The `onerror` handler: it only logs, and a WebSocket error is followed by a close event.
- Timing: the 500 ms reconnect delay, the 10 s request timeout and the 100 ms poll. Each timer firing is a method call. Concurrency is also out: each call runs to completion, as on the JavaScript event loop.
- Logging (`logger`, `console.log`) and the startup sequence at collector.js:145-153.
- `util/redisClient.js`: the Redis wrapper, Lua script loading and `evalsha`. `FlushStep` returns the batch it hands to storage and takes whether the storage call succeeded as a parameter. The queue never takes a batch back, and a failed call ends the loop.
- `node-fetch`, the Bitstamp `TickerStream` and the Binance client. Their results (the pair lists, `exchangeInfo`, the stream messages) are inputs, and only the callbacks' bodies are modelled. This covers `getBitstampPairs` (collector.js:28-33), which only projects each pair to `{symbol, name}`, and the per-pair `subscribe` calls.
- Repeated `'connected'` events of the Bitstamp stream: collector.js:39-64 registers one more `tickerTopic` listener for each pair every time the stream emits `'connected'`. If the stream client emits it again after a reconnect, each Bitstamp trade is pushed once per connect so far, duplicating queue entries. `OnBitstampTrade` models one call of one listener.
- `new Date(t).getTime()`: the date parser is a function parameter.
- Floating point: JSON numbers are exact reals, not IEEE doubles, and the rounding `JSON.parse` does is not modelled. `Truthy` tests a number against 0 and `RegistryKey` tests it for being an integer equal to an issued id, both on the exact value. So a reply whose `id` only rounds to an issued id (such as `2.0000000000000001`) is dropped here but matched by the source, and a `result` or `error` that rounds to 0 (such as `1e-400`) is truthy here but falsy in the source.
- How a push's `params`, a Bitstamp message, a Binance event and the `getSymbols` result are decoded into typed shapes: the handlers and `OnConnected` take the typed shapes. A truthy `getSymbols` result that is not an array makes the `for...of` at exchanges/hitbtc.js:110 throw, and the catch at exchanges/hitbtc.js:114 swallows it. That has the same effect as a failed discovery, which `OnConnected` models.
- A push handler that throws: the rest of the `forEach` would be skipped and the error caught. Callbacks are opaque here.
- Properties inherited from `Object.prototype` (such as `constructor`): a dictionary lookup of such a key is treated as `undefined`. A write to the key `__proto__` (collector.js:101, exchanges/hitbtc.js:111) is ignored by JavaScript, because the `__proto__` setter drops a string; `Assign` stores it like any other key.
- The default `params = {}` of `request` (exchanges/hitbtc.js:76): `Request` always takes its `params`, and a call without them, such as `request('getSymbols')`, is written `Request("getSymbols", JObj(map[]))`.
- HitbtcSocket.SocketClient.OnClose: does not state the order in which the pending requests are rejected (insertion order in the source), only that each is rejected exactly once.
- HitbtcSymbols.SymbolDirectory.OnConnected: does not interleave its own requests with the client. How discovery and each subscription settled are parameters, one per symbol.
