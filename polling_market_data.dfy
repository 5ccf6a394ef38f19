/**
  The polling market-data cache of src/market_data.py: three parallel lists of price, USD volume
  and timestamp, filled from fetched trades and from polled quotes, trimmed at the head to the
  volume look-back window, and read by the current-price, volume-anomaly and resistance queries.
 */
module PollingMarketData {
  import opened Wrappers
  import opened Stats
  import opened Samples
  import Helpers

  /** The polled price: the oracle price, or the index price when the oracle price is 0 or missing. */
  function QuotePrice(quote: map<string, real>): (r: real)
    ensures QuoteField(quote, "oraclePrice") != 0.0 ==> r == quote["oraclePrice"]
    ensures QuoteField(quote, "oraclePrice") == 0.0 ==> r == QuoteField(quote, "indexPrice")
  {
    var oracle := QuoteField(quote, "oraclePrice");
    if oracle != 0.0 then oracle else QuoteField(quote, "indexPrice")
  }

  /** The whole-cache volume anomaly: like the helper's ratio, but a single sample is its own baseline. */
  function CacheVolumeAnomaly(volumes: seq<real>): (r: Option<real>)
    ensures |volumes| == 0 ==> r.None?
    ensures |volumes| == 1 ==> r == if volumes[0] > 0.0 then Some(1.0) else None
    ensures |volumes| >= 2 ==> r == Helpers.CalculateVolumeAnomaly(volumes)
  {
    if |volumes| == 0 then None
    else
      var current := volumes[|volumes| - 1];
      var avg := if |volumes| > 1 then Mean(AllButLast(volumes)) else current;
      assert |volumes| == 1 && avg > 0.0 ==> current / avg == 1.0;
      if avg > 0.0 then Some(current / avg) else None
  }

  /**
    The whole-cache resistance: the maximum of the last `lookback` prices, None only on an empty
    cache; unlike the helper there is no minimum number of prices.
   */
  function CacheResistance(prices: seq<real>, lookback: int): (r: Option<real>)
    requires lookback > 0
    ensures r.None? <==> |prices| == 0
    ensures r.Some? ==> r.value in TailSlice(prices, lookback)
    ensures r.Some? ==> forall i :: TailStart(|prices|, lookback) <= i < |prices| ==> prices[i] <= r.value
  {
    if |prices| == 0 then None
    else
      var window := TailSlice(prices, lookback);
      assert forall i :: TailStart(|prices|, lookback) <= i < |prices| ==>
        prices[i] == window[i - TailStart(|prices|, lookback)];
      Some(Max(window))
  }

  /** The cache keeps the latest price inside its own resistance window, so it can never lie above it. */
  lemma CurrentPriceAtMostResistance(prices: seq<real>, lookback: int)
    requires lookback > 0 && |prices| > 0
    ensures CacheResistance(prices, lookback).Some?
    ensures prices[|prices| - 1] <= CacheResistance(prices, lookback).value
  {
  }

  /** So the strict test `current price > resistance` never holds on this cache. */
  lemma StrictBreakoutNeverFires(prices: seq<real>, lookback: int)
    requires lookback > 0 && |prices| > 0
    ensures !(prices[|prices| - 1] > CacheResistance(prices, lookback).value)
  {
    CurrentPriceAtMostResistance(prices, lookback);
  }

  class MarketData {
    /** `technical.volume_lookback`, in minutes. */
    const volumeLookback: int
    /** `technical.resistance_period`. */
    const resistancePeriod: int
    var prices: seq<real>
    var volumes: seq<real>
    var timestamps: seq<int>

    ghost predicate Valid()
      reads this
    {
      |prices| == |volumes| == |timestamps| && resistancePeriod > 0
    }

    constructor (volumeLookback: int, resistancePeriod: int)
      requires resistancePeriod > 0
      ensures Valid()
      ensures this.volumeLookback == volumeLookback && this.resistancePeriod == resistancePeriod
      ensures prices == [] && volumes == [] && timestamps == []
    {
      this.volumeLookback := volumeLookback;
      this.resistancePeriod := resistancePeriod;
      prices, volumes, timestamps := [], [], [];
    }

    /** One sample appended to all three lists. */
    method Append(price: real, volume: real, timestamp: int)
      requires Valid()
      modifies this
      ensures Valid()
      ensures prices == old(prices) + [price]
      ensures volumes == old(volumes) + [volume]
      ensures timestamps == old(timestamps) + [timestamp]
    {
      prices := prices + [price];
      volumes := volumes + [volume];
      timestamps := timestamps + [timestamp];
    }

    /** `while timestamps and timestamps[0] < cutoff`: pop the head of all three lists. */
    method EvictBefore(cutoff: int)
      requires Valid()
      modifies this
      ensures Valid()
      ensures prices == Evicted(old(prices), old(timestamps), cutoff)
      ensures volumes == Evicted(old(volumes), old(timestamps), cutoff)
      ensures timestamps == Evicted(old(timestamps), old(timestamps), cutoff)
    {
      ghost var dropped: nat := 0;
      while |timestamps| > 0 && timestamps[0] < cutoff
        invariant Valid()
        invariant dropped <= |old(timestamps)|
        invariant prices == old(prices)[dropped..]
        invariant volumes == old(volumes)[dropped..]
        invariant timestamps == old(timestamps)[dropped..]
        invariant StaleCount(old(timestamps), cutoff) == dropped + StaleCount(timestamps, cutoff)
        decreases |timestamps|
      {
        StaleCountStep(timestamps, cutoff);
        prices := prices[1..];
        volumes := volumes[1..];
        timestamps := timestamps[1..];
        dropped := dropped + 1;
      }
    }

    /** _load_initial_data: every fetched trade becomes one sample, stamped from its `createdAt` or `now`. */
    method LoadInitialData(trades: seq<RawTrade>, now: int)
      requires Valid()
      modifies this
      ensures Valid()
      ensures prices == old(prices) + Prices(trades)
      ensures volumes == old(volumes) + Volumes(trades)
      ensures timestamps == old(timestamps) + Times(trades, now)
    {
      var i := 0;
      while i < |trades|
        invariant 0 <= i <= |trades|
        invariant Valid()
        invariant prices == old(prices) + Prices(trades[..i])
        invariant volumes == old(volumes) + Volumes(trades[..i])
        invariant timestamps == old(timestamps) + Times(trades[..i], now)
      {
        var trade := trades[i];
        Append(trade.price, Notional(trade), TradeTime(trade, now));
        assert trades[..i + 1][..i] == trades[..i];
        assert Volumes(trades[..i + 1]) == Volumes(trades[..i]) + [Notional(trade)];
        i := i + 1;
      }
      assert trades[..i] == trades;
    }

    /**
      _update_market_data: with a non-empty quote whose price is positive, append one sample of that
      price, the total notional of the fetched trades and `now`, then evict what is older than
      `now - volume_lookback` minutes; otherwise change nothing.
     */
    method UpdateMarketData(quote: map<string, real>, trades: seq<RawTrade>, now: int)
      requires Valid()
      modifies this
      ensures Valid()
      ensures |quote| == 0 || QuotePrice(quote) <= 0.0 ==>
        prices == old(prices) && volumes == old(volumes) && timestamps == old(timestamps)
      ensures |quote| > 0 && QuotePrice(quote) > 0.0 ==>
        var cutoff := now - volumeLookback * 60;
        var ts := old(timestamps) + [now];
        prices == Evicted(old(prices) + [QuotePrice(quote)], ts, cutoff) &&
        volumes == Evicted(old(volumes) + [Sum(Volumes(trades))], ts, cutoff) &&
        timestamps == Evicted(ts, ts, cutoff)
    {
      if |quote| > 0 {
        var price := QuoteField(quote, "oraclePrice");
        if price == 0.0 {
          price := QuoteField(quote, "indexPrice");
        }
        var volume := Sum(Volumes(trades));
        if price > 0.0 {
          Append(price, volume, now);
          EvictBefore(now - volumeLookback * 60);
        }
      }
    }

    /** get_current_price: the latest price, None on an empty cache. */
    function GetCurrentPrice(): (r: Option<real>)
      reads this
      ensures r.None? <==> |prices| == 0
      ensures r.Some? ==> r.value == prices[|prices| - 1]
    {
      if |prices| > 0 then Some(prices[|prices| - 1]) else None
    }

    function CalculateVolumeAnomaly(): (r: Option<real>)
      reads this
      ensures r == CacheVolumeAnomaly(volumes)
    {
      CacheVolumeAnomaly(volumes)
    }

    function CalculateResistance(): (r: Option<real>)
      reads this
      requires Valid()
      ensures r == CacheResistance(prices, resistancePeriod)
    {
      CacheResistance(prices, resistancePeriod)
    }
  }

  /** A successful poll with a non-negative look-back keeps the sample it just appended, as the cache's last entry. */
  lemma PolledSampleSurvives(ts: seq<int>, now: int, volumeLookback: int)
    requires volumeLookback >= 0
    ensures var all := ts + [now];
      StaleCount(all, now - volumeLookback * 60) < |all| &&
      Evicted(all, all, now - volumeLookback * 60)[|all| - StaleCount(all, now - volumeLookback * 60) - 1] == now
  {
    LastFreshSurvives(ts + [now], now - volumeLookback * 60);
  }
}
