/**
 * The common trade record of collector.js, the raw trade shapes of the three
 * exchanges, the two pure mappers into the common record, and the `market`
 * tag each adapter puts on a record before buffering it.
 */
module TradeRecords {
  import opened Wrappers
  import opened Json
  import opened Dictionaries

  /** Values of the record's `type` field. */
  const BUY: int := 1
  const SELL: int := 0

  /**
   * `{amount, price, timestamp, id, type, symbol}`; the `type` field is called
   * `side` here because `type` is a Dafny keyword.
   */
  datatype TradeRecord = TradeRecord(
    amount: Json, price: Json, timestamp: Json, id: Json, side: int, symbol: string)

  /** A trade event as the Binance stream client delivers it. */
  datatype BinanceTrade = BinanceTrade(
    eventType: string, eventTime: Json, symbol: string, price: Json,
    quantity: Json, maker: bool, tradeId: Json)

  /** One element of the `data` array of a HitBTC `updateTrades` notification. */
  datatype HitbtcTrade = HitbtcTrade(id: Json, price: Json, quantity: Json, side: Json, timestamp: Json)

  /** The `params` of a HitBTC `updateTrades` notification. */
  datatype TradesUpdate = TradesUpdate(symbol: string, data: seq<HitbtcTrade>)

  /** A Bitstamp live-trade message; `side` is its `type` field. */
  datatype BitstampTrade = BitstampTrade(
    amount: Json, buyOrderId: Json, sellOrderId: Json, amountStr: Json, priceStr: Json,
    timestamp: Json, price: Json, side: Json, id: Json, cost: Json, microtimestamp: Json)

  /** A Bitstamp trading pair from the pairs-info endpoint: `{symbol: url_symbol, name}`. */
  datatype BitstampPair = BitstampPair(symbol: string, name: string)

  /**
   * An object in the trades queue. Binance and HitBTC trades are mapped records;
   * a Bitstamp trade is the exchange's own object, with `market` added.
   */
  datatype Entry =
    | Mapped(record: TradeRecord, market: string)
    | BitstampRaw(data: BitstampTrade, market: string)

  /**
   * `bitstampifyBinanceTrade`: the amount is the trade's quantity, the timestamp
   * its event time, the id its trade id, and the record is always a buy.
   */
  function BitstampifyBinanceTrade(trade: BinanceTrade): (r: TradeRecord)
    ensures r.amount == trade.quantity && r.price == trade.price
    ensures r.timestamp == trade.eventTime && r.id == trade.tradeId
    ensures r.side == BUY && r.symbol == trade.symbol
  {
    TradeRecord(trade.quantity, trade.price, trade.eventTime, trade.tradeId, BUY, trade.symbol)
  }

  /**
   * `bitstampifyHitbtcTrade`; `getTime` is what `new Date(t).getTime()` yields
   * for the trade's timestamp, a date parser outside this model.
   */
  function BitstampifyHitbtcTrade(trade: HitbtcTrade, symbol: string, getTime: Json -> Json): (r: TradeRecord)
    ensures r.amount == trade.quantity && r.price == trade.price && r.id == trade.id
    ensures r.timestamp == getTime(trade.timestamp)
    ensures r.side == BUY <==> trade.side == JStr("buy")
    ensures r.side == SELL <==> trade.side != JStr("buy")
    ensures r.symbol == symbol
  {
    TradeRecord(trade.quantity, trade.price, getTime(trade.timestamp), trade.id,
      if trade.side == JStr("buy") then BUY else SELL, symbol)
  }

  /** A template-literal hole `${v}`: an `undefined` lookup prints as "undefined". */
  function Interpolated(v: Option<string>): string
  {
    match v
    case Some(s) => s
    case None => "undefined"
  }

  function BinanceMarket(dictionary: map<string, string>, symbol: string): string
  {
    "binance:" + Interpolated(Lookup(dictionary, symbol))
  }

  function BitstampMarket(pair: BitstampPair): string
  {
    "bitstamp:" + pair.name
  }

  function HitbtcMarket(name: Option<string>): string
  {
    "hitbtc:" + Interpolated(name)
  }

  /** `maker` and `eventType` are never read: which side was the maker does not change the record. */
  lemma BinanceSideIgnored(trade: BinanceTrade, maker: bool, eventType: string)
    ensures BitstampifyBinanceTrade(trade.(maker := maker, eventType := eventType))
         == BitstampifyBinanceTrade(trade)
  {
  }

  /**
   * Two Binance trades give the same record exactly when they agree on the five
   * copied fields: quantity, price, eventTime, tradeId and symbol.
   */
  lemma BinanceRecordFields(a: BinanceTrade, b: BinanceTrade)
    ensures BitstampifyBinanceTrade(a) == BitstampifyBinanceTrade(b) <==>
      (a.quantity == b.quantity && a.price == b.price && a.eventTime == b.eventTime &&
       a.tradeId == b.tradeId && a.symbol == b.symbol)
  {
  }

  /**
   * Two HitBTC trades of one update give the same record exactly when they agree
   * on quantity, price, id, parsed timestamp and on whether the side is "buy".
   */
  lemma HitbtcRecordFields(a: HitbtcTrade, b: HitbtcTrade, symbol: string, getTime: Json -> Json)
    ensures BitstampifyHitbtcTrade(a, symbol, getTime) == BitstampifyHitbtcTrade(b, symbol, getTime) <==>
      (a.quantity == b.quantity && a.price == b.price && a.id == b.id &&
       getTime(a.timestamp) == getTime(b.timestamp) && (a.side == JStr("buy") <==> b.side == JStr("buy")))
  {
  }
}
