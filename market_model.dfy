/**
  The market records of src/models/market.py: trades and order-book levels parsed from exchange
  payloads, the order book, and the market snapshot whose current price falls back from the
  oracle price to the index price, the book's mid price and finally the first trade.
 */
module MarketModel {
  import opened Wrappers
  import opened Samples

  datatype Trade = Trade(id: string, price: real, size: real, side: string, createdAt: int)

  /** Trade.from_api: the payload's fields, stamped with `now` when `createdAt` is missing or empty. */
  function TradeFromApi(t: RawTrade, now: int): (r: Trade)
    ensures r.id == t.id && r.price == t.price && r.size == t.size && r.side == t.side
    ensures r.createdAt == TradeTime(t, now)
  {
    Trade(t.id, t.price, t.size, t.side, TradeTime(t, now))
  }

  function TradesFromApi(ts: seq<RawTrade>, now: int): (r: seq<Trade>)
    ensures |r| == |ts|
    ensures forall i :: 0 <= i < |ts| ==> r[i] == TradeFromApi(ts[i], now)
  {
    if |ts| == 0 then [] else TradesFromApi(ts[..|ts| - 1], now) + [TradeFromApi(ts[|ts| - 1], now)]
  }

  datatype OrderBookLevel = OrderBookLevel(price: real, size: real)

  /** OrderBookLevel.from_api: price from element 0 and size from element 1; a shorter list raises IndexError. */
  function LevelFromApi(level: seq<real>): (r: Result<OrderBookLevel>)
    ensures r.Ok? <==> |level| >= 2
    ensures r.Err? ==> r.error == IndexError
    ensures r.Ok? ==> r.value.price == level[0] && r.value.size == level[1]
  {
    if |level| < 2 then Err(IndexError) else Ok(OrderBookLevel(level[0], level[1]))
  }

  /** The list comprehension over one side of the book: every level parsed, in order, or the IndexError of a short one. */
  function LevelsFromApi(levels: seq<seq<real>>): (r: Result<seq<OrderBookLevel>>)
    ensures r.Ok? <==> forall i :: 0 <= i < |levels| ==> |levels[i]| >= 2
    ensures r.Err? ==> r.error == IndexError
    ensures r.Ok? ==> |r.value| == |levels|
    ensures r.Ok? ==> forall i :: 0 <= i < |levels| ==> r.value[i] == OrderBookLevel(levels[i][0], levels[i][1])
  {
    if |levels| == 0 then Ok([])
    else
      match LevelFromApi(levels[0])
      case Err(e) => Err(e)
      case Ok(first) =>
        match LevelsFromApi(levels[1..])
        case Err(e) => Err(e)
        case Ok(rest) =>
          assert forall i :: 1 <= i < |levels| ==> levels[i] == levels[1..][i - 1];
          Ok([first] + rest)
  }

  datatype OrderBook = OrderBook(bids: seq<OrderBookLevel>, asks: seq<OrderBookLevel>)

  /** `d.get(key, [])` on an order-book payload. */
  function Side(d: map<string, seq<seq<real>>>, key: string): (r: seq<seq<real>>)
    ensures key in d ==> r == d[key]
    ensures key !in d ==> r == []
  {
    if key in d then d[key] else []
  }

  /** OrderBook.from_api: both sides parsed in order, a missing side read as empty. */
  function OrderBookFromApi(d: map<string, seq<seq<real>>>): (r: Result<OrderBook>)
    ensures r.Ok? <==> LevelsFromApi(Side(d, "bids")).Ok? && LevelsFromApi(Side(d, "asks")).Ok?
    ensures r.Ok? ==> |r.value.bids| == |Side(d, "bids")| && |r.value.asks| == |Side(d, "asks")|
    ensures r.Ok? ==> r.value.bids == LevelsFromApi(Side(d, "bids")).value
    ensures r.Ok? ==> r.value.asks == LevelsFromApi(Side(d, "asks")).value
  {
    match LevelsFromApi(Side(d, "bids"))
    case Err(e) => Err(e)
    case Ok(bids) =>
      match LevelsFromApi(Side(d, "asks"))
      case Err(e) => Err(e)
      case Ok(asks) => Ok(OrderBook(bids, asks))
  }

  /** A payload with no sides at all gives the empty book. */
  lemma MissingSidesGiveEmptyBook(d: map<string, seq<seq<real>>>)
    requires "bids" !in d && "asks" !in d
    ensures OrderBookFromApi(d) == Ok(OrderBook([], []))
  {
  }

  /** Python's `x or None` on a float: 0 reads as absent. */
  function OrNone(x: real): (r: Option<real>)
    ensures r.None? <==> x == 0.0
    ensures r.Some? ==> r.value == x
  {
    if x == 0.0 then None else Some(x)
  }

  /** Python truthiness of an optional float: absent or 0. */
  predicate Truthy(x: Option<real>) {
    x.Some? && x.value != 0.0
  }

  /** get_mid_price: None without a book or with an empty side, else the mean of the best bid and ask. */
  function MidPrice(book: Option<OrderBook>): (r: Option<real>)
    ensures r.None? <==> book.None? || |book.value.bids| == 0 || |book.value.asks| == 0
    ensures r.Some? ==> 2.0 * r.value == book.value.bids[0].price + book.value.asks[0].price
  {
    if book.None? || |book.value.bids| == 0 || |book.value.asks| == 0 then None
    else Some((book.value.bids[0].price + book.value.asks[0].price) / 2.0)
  }

  /** The mid price lies between the best bid and the best ask. */
  lemma MidPriceBetween(book: OrderBook)
    requires |book.bids| > 0 && |book.asks| > 0
    ensures var (b, a, m) := (book.bids[0].price, book.asks[0].price, MidPrice(Some(book)).value);
      (b <= a ==> b <= m <= a) && (a <= b ==> a <= m <= b)
  {
  }

  /** get_current_price: the first truthy price among oracle, index and mid price, else the first trade's price. */
  function PriceChain(oracle: Option<real>, index: Option<real>, book: Option<OrderBook>, trades: seq<Trade>): (r: Option<real>)
    ensures Truthy(oracle) ==> r == oracle
    ensures !Truthy(oracle) && Truthy(index) ==> r == index
    ensures !Truthy(oracle) && !Truthy(index) && Truthy(MidPrice(book)) ==> r == MidPrice(book)
    ensures !Truthy(oracle) && !Truthy(index) && !Truthy(MidPrice(book)) ==>
      r == if |trades| > 0 then Some(trades[0].price) else None
  {
    if Truthy(oracle) then oracle
    else if Truthy(index) then index
    else if Truthy(MidPrice(book)) then MidPrice(book)
    else if |trades| > 0 then Some(trades[0].price)
    else None
  }

  /** The chain has no price only when every source is absent and there is no trade at all. */
  lemma PriceChainNoneIff(oracle: Option<real>, index: Option<real>, book: Option<OrderBook>, trades: seq<Trade>)
    ensures PriceChain(oracle, index, book, trades).None? <==>
      !Truthy(oracle) && !Truthy(index) && !Truthy(MidPrice(book)) && |trades| == 0
  {
  }

  /** The first trade's price is taken without a truthiness test, so a 0 price can still come out of the chain. */
  lemma PriceChainCanGiveZero(t: Trade)
    requires t.price == 0.0
    ensures PriceChain(None, None, None, [t]) == Some(0.0)
  {
  }

  /** The values of a snapshot's fields at one moment. */
  datatype Snapshot = Snapshot(market: string, indexPrice: Option<real>, oraclePrice: Option<real>,
                               priceChange24h: Option<real>, volume24h: Option<real>,
                               trades: seq<Trade>, orderbook: Option<OrderBook>, lastUpdated: int)

  /** The market snapshot (the dataclass MarketData), with its fields updated in place by the update methods. */
  class MarketData {
    var market: string
    var indexPrice: Option<real>
    var oraclePrice: Option<real>
    var priceChange24h: Option<real>
    var volume24h: Option<real>
    var trades: seq<Trade>
    var orderbook: Option<OrderBook>
    var lastUpdated: int

    /** `MarketData(market=...)`: no prices, and __post_init__ gives an empty trade list and stamps `now`. */
    constructor (market: string, now: int)
      ensures this.market == market
      ensures indexPrice.None? && oraclePrice.None? && priceChange24h.None? && volume24h.None?
      ensures trades == [] && orderbook.None? && lastUpdated == now
    {
      this.market := market;
      indexPrice, oraclePrice, priceChange24h, volume24h := None, None, None, None;
      trades, orderbook := [], None;
      lastUpdated := now;
    }

    /** MarketData.from_api: each quoted number, with 0 or a missing key read as absent. */
    constructor FromApi(market: string, data: map<string, real>, now: int)
      ensures this.market == market
      ensures indexPrice == OrNone(QuoteField(data, "indexPrice"))
      ensures oraclePrice == OrNone(QuoteField(data, "oraclePrice"))
      ensures priceChange24h == OrNone(QuoteField(data, "priceChange24H"))
      ensures volume24h == OrNone(QuoteField(data, "volume24H"))
      ensures trades == [] && orderbook.None? && lastUpdated == now
    {
      this.market := market;
      indexPrice := OrNone(QuoteField(data, "indexPrice"));
      oraclePrice := OrNone(QuoteField(data, "oraclePrice"));
      priceChange24h := OrNone(QuoteField(data, "priceChange24H"));
      volume24h := OrNone(QuoteField(data, "volume24H"));
      trades, orderbook := [], None;
      lastUpdated := now;
    }

    /** update_trades: the trade list is replaced by exactly the parsed batch, not extended. */
    method UpdateTrades(data: seq<RawTrade>, now: int)
      modifies this
      ensures trades == TradesFromApi(data, now) && lastUpdated == now
      ensures market == old(market) && indexPrice == old(indexPrice) && oraclePrice == old(oraclePrice)
      ensures priceChange24h == old(priceChange24h) && volume24h == old(volume24h) && orderbook == old(orderbook)
    {
      trades := TradesFromApi(data, now);
      lastUpdated := now;
    }

    /**
      update_orderbook: the book is replaced by the parsed payload; when parsing raises, the
      exception leaves before any field is assigned and `ok` is false.
     */
    method UpdateOrderbook(data: map<string, seq<seq<real>>>, now: int) returns (ok: bool)
      modifies this
      ensures ok <==> OrderBookFromApi(data).Ok?
      ensures ok ==> orderbook == Some(OrderBookFromApi(data).value) && lastUpdated == now
      ensures !ok ==> orderbook == old(orderbook) && lastUpdated == old(lastUpdated)
      ensures market == old(market) && indexPrice == old(indexPrice) && oraclePrice == old(oraclePrice)
      ensures priceChange24h == old(priceChange24h) && volume24h == old(volume24h) && trades == old(trades)
    {
      var parsed := OrderBookFromApi(data);
      ok := parsed.Ok?;
      if ok {
        orderbook := Some(parsed.value);
        lastUpdated := now;
      }
    }

    /** The current values of all fields. */
    function View(): Snapshot
      reads this
    {
      Snapshot(market, indexPrice, oraclePrice, priceChange24h, volume24h, trades, orderbook, lastUpdated)
    }

    function GetMidPrice(): (r: Option<real>)
      reads this
      ensures r == MidPrice(orderbook)
    {
      MidPrice(orderbook)
    }

    function GetCurrentPrice(): (r: Option<real>)
      reads this
      ensures r == PriceChain(oraclePrice, indexPrice, orderbook, trades)
    {
      PriceChain(oraclePrice, indexPrice, orderbook, trades)
    }
  }

  /** A snapshot built from a payload never holds a zero price: from_api maps 0 to absent. */
  lemma FromApiHasNoZeroPrice(data: map<string, real>)
    ensures OrNone(QuoteField(data, "oraclePrice")) != Some(0.0)
    ensures OrNone(QuoteField(data, "indexPrice")) != Some(0.0)
  {
  }

  /** A fresh snapshot from a payload quoting a non-zero oracle price reports that price. */
  lemma FromApiPrefersOracle(data: map<string, real>)
    requires QuoteField(data, "oraclePrice") != 0.0
    ensures PriceChain(OrNone(QuoteField(data, "oraclePrice")), OrNone(QuoteField(data, "indexPrice")), None, [])
      == Some(data["oraclePrice"])
  {
  }
}
