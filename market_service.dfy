/**
  The market-data service of src/core/market_data.py: a market snapshot object plus three parallel
  sample lists, fed by the initial REST load, by websocket trade messages and by the REST fallback
  poll, with the indicator queries delegated to the helper library.
 */
module CoreMarketData {
  import opened Wrappers
  import opened Stats
  import opened Samples
  import opened MarketModel
  import Helpers

  class MarketDataService {
    const market: string
    /** `technical.volume_lookback`, in minutes. */
    const volumeLookback: int
    /** `technical.resistance_period`, read by calculate_resistance. */
    const resistancePeriod: int
    var prices: seq<real>
    var volumes: seq<real>
    var timestamps: seq<int>
    var marketData: MarketData

    ghost predicate Valid()
      reads this
    {
      |prices| == |volumes| == |timestamps|
    }

    constructor (market: string, volumeLookback: int, resistancePeriod: int, now: int)
      ensures Valid()
      ensures this.market == market && this.volumeLookback == volumeLookback && this.resistancePeriod == resistancePeriod
      ensures prices == [] && volumes == [] && timestamps == []
      ensures fresh(marketData) && marketData.View() == Snapshot(market, None, None, None, None, [], None, now)
    {
      this.market := market;
      this.volumeLookback := volumeLookback;
      this.resistancePeriod := resistancePeriod;
      prices, volumes, timestamps := [], [], [];
      marketData := new MarketData(market, now);
    }

    /** The `for trade in trades` loop of the initial load and of a trades message. */
    method AppendTrades(trades: seq<RawTrade>, now: int)
      requires Valid()
      modifies this`prices, this`volumes, this`timestamps
      ensures Valid()
      ensures prices == old(prices) + Prices(trades)
      ensures volumes == old(volumes) + Volumes(trades)
      ensures timestamps == old(timestamps) + Times(trades, now)
    {
      var i := 0;
      while i < |trades|
        invariant 0 <= i <= |trades|
        invariant Valid()
        invariant prices == old(prices) + Prices(trades[..i])
        invariant volumes == old(volumes) + Volumes(trades[..i])
        invariant timestamps == old(timestamps) + Times(trades[..i], now)
      {
        var trade := trades[i];
        prices := prices + [trade.price];
        volumes := volumes + [Notional(trade)];
        timestamps := timestamps + [TradeTime(trade, now)];
        assert trades[..i + 1][..i] == trades[..i];
        i := i + 1;
      }
      assert trades[..i] == trades;
    }

    /** The loop of the REST fallback, which stamps every trade with the time of the poll. */
    method AppendPolledTrades(trades: seq<RawTrade>, now: int)
      requires Valid()
      modifies this`prices, this`volumes, this`timestamps
      ensures Valid()
      ensures prices == old(prices) + Prices(trades)
      ensures volumes == old(volumes) + Volumes(trades)
      ensures timestamps == old(timestamps) + Stamps(|trades|, now)
    {
      var i := 0;
      while i < |trades|
        invariant 0 <= i <= |trades|
        invariant Valid()
        invariant prices == old(prices) + Prices(trades[..i])
        invariant volumes == old(volumes) + Volumes(trades[..i])
        invariant timestamps == old(timestamps) + Stamps(i, now)
      {
        var trade := trades[i];
        prices := prices + [trade.price];
        volumes := volumes + [Notional(trade)];
        timestamps := timestamps + [now];
        assert trades[..i + 1][..i] == trades[..i];
        i := i + 1;
      }
      assert trades[..i] == trades;
    }

    /** `while timestamps and timestamps[0] < cutoff`: pop the head of all three lists. */
    method EvictBefore(cutoff: int)
      requires Valid()
      modifies this`prices, this`volumes, this`timestamps
      ensures Valid()
      ensures prices == Evicted(old(prices), old(timestamps), cutoff)
      ensures volumes == Evicted(old(volumes), old(timestamps), cutoff)
      ensures timestamps == Evicted(old(timestamps), old(timestamps), cutoff)
    {
      ghost var dropped: nat := 0;
      while |timestamps| > 0 && timestamps[0] < cutoff
        invariant Valid()
        invariant dropped <= |old(timestamps)|
        invariant prices == old(prices)[dropped..]
        invariant volumes == old(volumes)[dropped..]
        invariant timestamps == old(timestamps)[dropped..]
        invariant StaleCount(old(timestamps), cutoff) == dropped + StaleCount(timestamps, cutoff)
        decreases |timestamps|
      {
        StaleCountStep(timestamps, cutoff);
        prices := prices[1..];
        volumes := volumes[1..];
        timestamps := timestamps[1..];
        dropped := dropped + 1;
      }
    }

    /**
      _load_initial_data: a non-empty quote replaces the snapshot, a non-empty trade batch replaces
      its trade list and appends one sample per trade (no eviction), and a non-empty book payload
      replaces its order book unless parsing it raises.
     */
    method LoadInitialData(quote: map<string, real>, trades: seq<RawTrade>, book: map<string, seq<seq<real>>>, now: int)
      requires Valid()
      modifies this, marketData
      ensures Valid()
      ensures prices == old(prices) + Prices(trades)
      ensures volumes == old(volumes) + Volumes(trades)
      ensures timestamps == old(timestamps) + Times(trades, now)
      ensures |quote| == 0 ==> marketData == old(marketData)
      ensures |quote| > 0 ==> fresh(marketData)
      ensures marketData.View() == Reloaded(old(marketData.View()), market, quote, trades, book, now)
    {
      if |quote| > 0 {
        marketData := new MarketData.FromApi(market, quote, now);
      }
      if |trades| > 0 {
        marketData.UpdateTrades(trades, now);
        AppendTrades(trades, now);
      }
      if |book| > 0 {
        var _ := marketData.UpdateOrderbook(book, now);
      }
    }

    /**
      _handle_trades_message: a non-empty batch replaces the snapshot's trades, appends one sample
      per trade and then evicts every head sample older than `now - volume_lookback` minutes; an
      empty batch changes nothing.
     */
    method HandleTradesMessage(trades: seq<RawTrade>, now: int)
      requires Valid()
      modifies this`prices, this`volumes, this`timestamps, marketData
      ensures Valid()
      ensures |trades| == 0 ==>
        prices == old(prices) && volumes == old(volumes) && timestamps == old(timestamps) &&
        marketData.trades == old(marketData.trades)
      ensures |trades| > 0 ==>
        var cutoff := now - volumeLookback * 60;
        var ts := old(timestamps) + Times(trades, now);
        prices == Evicted(old(prices) + Prices(trades), ts, cutoff) &&
        volumes == Evicted(old(volumes) + Volumes(trades), ts, cutoff) &&
        timestamps == Evicted(ts, ts, cutoff) &&
        marketData.trades == TradesFromApi(trades, now)
      ensures |trades| > 0 ==> |timestamps| == 0 || timestamps[0] >= now - volumeLookback * 60
      ensures marketData.View() ==
        if |trades| > 0 then old(marketData.View()).(trades := TradesFromApi(trades, now), lastUpdated := now)
        else old(marketData.View())
    {
      if |trades| > 0 {
        marketData.UpdateTrades(trades, now);
        AppendTrades(trades, now);
        EvictBefore(now - volumeLookback * 60);
        EvictedHeadFresh(old(timestamps) + Times(trades, now), now - volumeLookback * 60);
      }
    }

    /**
      _update_market_data, the REST fallback: nothing happens while the websocket client runs;
      otherwise as the initial load, except that every trade of the batch is stamped with `now`
      and the samples are then evicted like after a trades message.
     */
    method UpdateMarketData(wsRunning: bool, quote: map<string, real>, trades: seq<RawTrade>,
                            book: map<string, seq<seq<real>>>, now: int)
      requires Valid()
      modifies this, marketData
      ensures Valid()
      ensures wsRunning ==>
        prices == old(prices) && volumes == old(volumes) && timestamps == old(timestamps) &&
        marketData == old(marketData) && marketData.View() == old(marketData.View())
      ensures !wsRunning && |trades| == 0 ==>
        prices == old(prices) && volumes == old(volumes) && timestamps == old(timestamps)
      ensures !wsRunning && |trades| > 0 ==>
        var cutoff := now - volumeLookback * 60;
        var ts := old(timestamps) + Stamps(|trades|, now);
        prices == Evicted(old(prices) + Prices(trades), ts, cutoff) &&
        volumes == Evicted(old(volumes) + Volumes(trades), ts, cutoff) &&
        timestamps == Evicted(ts, ts, cutoff) &&
        (|timestamps| == 0 || timestamps[0] >= cutoff)
      ensures !wsRunning ==>
        (|quote| == 0 ==> marketData == old(marketData)) &&
        (|quote| > 0 ==> fresh(marketData)) &&
        marketData.View() == Reloaded(old(marketData.View()), market, quote, trades, book, now)
    {
      if !wsRunning {
        if |quote| > 0 {
          marketData := new MarketData.FromApi(market, quote, now);
        }
        if |trades| > 0 {
          marketData.UpdateTrades(trades, now);
          PollTrades(trades, now);
        }
        if |book| > 0 {
          var _ := marketData.UpdateOrderbook(book, now);
        }
      }
    }

    /** The sample half of the REST fallback: the polled trades stamped with `now`, then the eviction. */
    method PollTrades(trades: seq<RawTrade>, now: int)
      requires Valid()
      modifies this`prices, this`volumes, this`timestamps
      ensures Valid()
      ensures var ts := old(timestamps) + Stamps(|trades|, now);
        prices == Evicted(old(prices) + Prices(trades), ts, now - volumeLookback * 60) &&
        volumes == Evicted(old(volumes) + Volumes(trades), ts, now - volumeLookback * 60) &&
        timestamps == Evicted(ts, ts, now - volumeLookback * 60)
      ensures |timestamps| == 0 || timestamps[0] >= now - volumeLookback * 60
    {
      AppendPolledTrades(trades, now);
      EvictBefore(now - volumeLookback * 60);
      EvictedHeadFresh(old(timestamps) + Stamps(|trades|, now), now - volumeLookback * 60);
    }

    function GetCurrentPrice(): (r: Option<real>)
      reads this, marketData
      ensures r == PriceChain(marketData.oraclePrice, marketData.indexPrice, marketData.orderbook, marketData.trades)
    {
      marketData.GetCurrentPrice()
    }

    function CalculateVolumeAnomaly(): (r: Option<real>)
      reads this
      ensures r == Helpers.CalculateVolumeAnomaly(volumes)
    {
      Helpers.CalculateVolumeAnomaly(volumes)
    }

    function CalculateResistance(): (r: Result<Option<real>>)
      reads this
      ensures r == Helpers.CalculateResistance(prices, resistancePeriod)
    {
      Helpers.CalculateResistance(prices, resistancePeriod)
    }
  }

  /**
    The snapshot after the initial load or one REST poll, starting from `s`: a non-empty quote
    rebuilds it with MarketData.from_api (no trades, no book), a non-empty trade batch then replaces
    its trades, and a non-empty book payload that parses replaces its book; each of the three stamps
    `now`, and whatever none of them touches keeps its value from `s`.
   */
  function Reloaded(s: Snapshot, market: string, quote: map<string, real>, trades: seq<RawTrade>,
                    book: map<string, seq<seq<real>>>, now: int): (r: Snapshot)
    ensures r.market == if |quote| > 0 then market else s.market
    ensures r.indexPrice == if |quote| > 0 then OrNone(QuoteField(quote, "indexPrice")) else s.indexPrice
    ensures r.oraclePrice == if |quote| > 0 then OrNone(QuoteField(quote, "oraclePrice")) else s.oraclePrice
    ensures r.priceChange24h == if |quote| > 0 then OrNone(QuoteField(quote, "priceChange24H")) else s.priceChange24h
    ensures r.volume24h == if |quote| > 0 then OrNone(QuoteField(quote, "volume24H")) else s.volume24h
    ensures r.trades ==
      if |trades| > 0 then TradesFromApi(trades, now) else if |quote| > 0 then [] else s.trades
    ensures r.orderbook ==
      if |book| > 0 && OrderBookFromApi(book).Ok? then Some(OrderBookFromApi(book).value)
      else if |quote| > 0 then None else s.orderbook
    ensures r.lastUpdated ==
      if |quote| > 0 || |trades| > 0 || (|book| > 0 && OrderBookFromApi(book).Ok?) then now else s.lastUpdated
  {
    var rebuilt := if |quote| > 0 then
      Snapshot(market, OrNone(QuoteField(quote, "indexPrice")), OrNone(QuoteField(quote, "oraclePrice")),
               OrNone(QuoteField(quote, "priceChange24H")), OrNone(QuoteField(quote, "volume24H")), [], None, now)
      else s;
    var traded := if |trades| > 0 then rebuilt.(trades := TradesFromApi(trades, now), lastUpdated := now) else rebuilt;
    if |book| > 0 && OrderBookFromApi(book).Ok? then
      traded.(orderbook := Some(OrderBookFromApi(book).value), lastUpdated := now)
    else traded
  }

  /**
    A poll whose quote carries a non-zero oracle price reports that price as the current price,
    whatever the trades and the book bring.
   */
  lemma PollReportsQuotedOracle(s: Snapshot, market: string, quote: map<string, real>, trades: seq<RawTrade>,
                                book: map<string, seq<seq<real>>>, now: int)
    requires QuoteField(quote, "oraclePrice") != 0.0
    ensures var r := Reloaded(s, market, quote, trades, book, now);
      PriceChain(r.oraclePrice, r.indexPrice, r.orderbook, r.trades) == Some(quote["oraclePrice"])
  {
    assert "oraclePrice" in quote;
    assert |quote| > 0 by { assert "oraclePrice" in quote.Keys; }
  }

  /**
    The cache of the market-data test: five prices and a resistance period of 10 give no resistance
    rather than the 1040 the test expects, because the helper demands a full period of prices.
   */
  lemma FivePricesGiveNoResistance()
    ensures Helpers.CalculateResistance([1000.0, 1010.0, 1020.0, 1030.0, 1040.0], 10) == Ok(None)
  {
  }

  /** The volumes of the same test give the anomaly 300 / mean(100, 110, 120, 130) = 300 / 115 > 1. */
  lemma TestVolumesAnomaly()
    ensures Helpers.CalculateVolumeAnomaly([100.0, 110.0, 120.0, 130.0, 300.0]) == Some(300.0 / 115.0)
    ensures 300.0 / 115.0 > 1.0
  {
    var earlier := [100.0, 110.0, 120.0, 130.0];
    assert Sum([100.0]) == 100.0 by { assert [100.0][..0] == []; }
    assert Sum([100.0, 110.0]) == 210.0 by { assert [100.0, 110.0][..1] == [100.0]; }
    assert Sum([100.0, 110.0, 120.0]) == 330.0 by { assert [100.0, 110.0, 120.0][..2] == [100.0, 110.0]; }
    assert Sum(earlier) == 460.0 by { assert earlier[..3] == [100.0, 110.0, 120.0]; }
    Helpers.AnomalyOfAppended(earlier, 300.0);
    assert earlier + [300.0] == [100.0, 110.0, 120.0, 130.0, 300.0];
  }
}
