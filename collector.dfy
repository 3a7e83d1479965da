/**
 * The exchange adapters of collector.js: the Binance discovery loop and the
 * three trade handlers, each of which tags a trade with its `market` and
 * pushes it onto the shared trades queue.
 */
module Collector {
  import opened Wrappers
  import opened Json
  import opened Dictionaries
  import opened TradeRecords
  import opened TradeBuffer
  import opened HitbtcSymbols

  /** One entry of `binanceInfo.symbols`. */
  datatype BinanceSymbol = BinanceSymbol(symbol: string, baseAsset: string, quoteAsset: string)

  /** The `symbolsDictionary[pair.symbol] = ...` writes of `getBinancePairs`, in order. */
  function BinanceWrites(symbols: seq<BinanceSymbol>): (writes: seq<(string, string)>)
    ensures |writes| == |symbols|
  {
    seq(|symbols|, i requires 0 <= i < |symbols| =>
      (symbols[i].symbol, DisplayName(symbols[i].baseAsset, symbols[i].quoteAsset)))
  }

  /**
   * The loop of `getBinancePairs`: `subscribePairs` lists every symbol in input
   * order; the dictionary has exactly the listed symbols as keys, and each maps to
   * `baseAsset/quoteAsset` of its last entry in the list.
   */
  method GetBinancePairs(symbols: seq<BinanceSymbol>)
    returns (subscribePairs: seq<string>, symbolsDictionary: map<string, string>)
    ensures |subscribePairs| == |symbols|
    ensures forall i :: 0 <= i < |symbols| ==> subscribePairs[i] == symbols[i].symbol
    ensures symbolsDictionary == Assign(map[], BinanceWrites(symbols))
    ensures symbolsDictionary.Keys == set i | 0 <= i < |symbols| :: symbols[i].symbol
    ensures forall i :: LastWrite(BinanceWrites(symbols), i) ==>
      symbols[i].symbol in symbolsDictionary &&
      symbolsDictionary[symbols[i].symbol] == DisplayName(symbols[i].baseAsset, symbols[i].quoteAsset)
  {
    subscribePairs := [];
    symbolsDictionary := map[];
    ghost var writes := BinanceWrites(symbols);
    for i := 0 to |symbols|
      invariant |subscribePairs| == i
      invariant forall k :: 0 <= k < i ==> subscribePairs[k] == symbols[k].symbol
      invariant symbolsDictionary == Assign(map[], writes[..i])
    {
      var pair := symbols[i];
      subscribePairs := subscribePairs + [pair.symbol];
      AssignSnoc(map[], writes[..i], pair.symbol, DisplayName(pair.baseAsset, pair.quoteAsset));
      assert writes[..i + 1] == writes[..i] + [writes[i]];
      symbolsDictionary := symbolsDictionary[pair.symbol := DisplayName(pair.baseAsset, pair.quoteAsset)];
    }
    assert writes[..|symbols|] == writes;
    AssignKeys(map[], writes);
    assert KeysOf(writes) == set i | 0 <= i < |symbols| :: symbols[i].symbol by {
      forall k | k in KeysOf(writes) ensures k in set i | 0 <= i < |symbols| :: symbols[i].symbol {
        var i :| 0 <= i < |writes| && writes[i].0 == k;
        assert symbols[i].symbol == k;
      }
      forall i | 0 <= i < |symbols| ensures symbols[i].symbol in KeysOf(writes) {
        assert writes[i].0 == symbols[i].symbol;
      }
    }
    forall i | LastWrite(writes, i)
      ensures symbols[i].symbol in symbolsDictionary
      ensures symbolsDictionary[symbols[i].symbol] == DisplayName(symbols[i].baseAsset, symbols[i].quoteAsset)
    {
      AssignLastWrite(map[], writes, i);
    }
  }

  /** What the Binance handler pushes for a trade. */
  function BinanceEntry(symbolsDictionary: map<string, string>, binanceTrade: BinanceTrade): Entry
  {
    var trade := BitstampifyBinanceTrade(binanceTrade);
    Mapped(trade, BinanceMarket(symbolsDictionary, trade.symbol))
  }

  /** What the Bitstamp handler pushes: the message itself, `timestamp` replaced by `microtimestamp`. */
  function BitstampEntry(pair: BitstampPair, data: BitstampTrade): Entry
  {
    BitstampRaw(data.(timestamp := data.microtimestamp), BitstampMarket(pair))
  }

  /** What the HitBTC handler pushes for an update, given the symbol's dictionary name. */
  function HitbtcEntries(update: TradesUpdate, name: Option<string>, getTime: Json -> Json): (entries: seq<Entry>)
    ensures |entries| == |update.data|
  {
    seq(|update.data|, k requires 0 <= k < |update.data| =>
      Mapped(BitstampifyHitbtcTrade(update.data[k], update.symbol, getTime), HitbtcMarket(name)))
  }

  /** The `binanceClient.ws.trades` callback: one entry, tagged `binance:` + the dictionary's name. */
  method OnBinanceTrade(queue: TradeQueue, symbolsDictionary: map<string, string>, binanceTrade: BinanceTrade)
    modifies queue
    ensures queue.items == old(queue.items) + [BinanceEntry(symbolsDictionary, binanceTrade)]
    ensures queue.items[|queue.items| - 1].market ==
      "binance:" + Interpolated(Lookup(symbolsDictionary, binanceTrade.symbol))
  {
    var trade := BitstampifyBinanceTrade(binanceTrade);
    var market := BinanceMarket(symbolsDictionary, trade.symbol);
    queue.Push(Mapped(trade, market));
  }

  /** The per-pair ticker callback: one entry, tagged `bitstamp:` + the pair's name. */
  method OnBitstampTrade(queue: TradeQueue, pair: BitstampPair, data: BitstampTrade)
    modifies queue
    ensures queue.items == old(queue.items) + [BitstampEntry(pair, data)]
    ensures queue.items[|queue.items| - 1].market == "bitstamp:" + pair.name
    ensures queue.items[|queue.items| - 1].data.timestamp == data.microtimestamp
  {
    queue.Push(BitstampRaw(data.(timestamp := data.microtimestamp), BitstampMarket(pair)));
  }

  /**
   * The `updateTrades` handler: one entry per element of `trades.data`, in order,
   * appended after the existing entries, each tagged `hitbtc:` + `getSymbolName`.
   */
  method OnHitbtcTrades(queue: TradeQueue, directory: SymbolDirectory, trades: TradesUpdate, getTime: Json -> Json)
    modifies queue
    ensures queue.items == old(queue.items) + HitbtcEntries(trades, directory.SymbolName(trades.symbol), getTime)
    ensures |queue.items| == |old(queue.items)| + |trades.data|
  {
    ghost var entries := HitbtcEntries(trades, directory.SymbolName(trades.symbol), getTime);
    for i := 0 to |trades.data|
      invariant queue.items == old(queue.items) + entries[..i]
    {
      var trade := BitstampifyHitbtcTrade(trades.data[i], trades.symbol, getTime);
      SingletonArrayKey(trades.symbol);
      var market := HitbtcMarket(directory.SymbolName(ArrayKey([trades.symbol])));
      queue.Push(Mapped(trade, market));
      assert entries[..i + 1] == entries[..i] + [entries[i]];
    }
    assert entries[..|trades.data|] == entries;
  }

  /** Every entry of a HitBTC update carries the update's symbol and the `hitbtc:` tag. */
  lemma HitbtcEntriesTagged(update: TradesUpdate, name: Option<string>, getTime: Json -> Json, k: int)
    requires 0 <= k < |update.data|
    ensures var e := HitbtcEntries(update, name, getTime)[k];
      && e == Mapped(e.record, "hitbtc:" + Interpolated(name))
      && e.record == BitstampifyHitbtcTrade(update.data[k], update.symbol, getTime)
      && e.record.symbol == update.symbol
  {
  }
}
