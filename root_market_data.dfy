/**
  The candle-era market data collector of market_data.py: the timeframe string that selects the
  candle resolution, and the cached latest price that survives a failed ticker read. The
  client's ticker answer is a parameter.
 */
module RootMarketData {
  import opened Wrappers
  import opened Numerals

  const SecondsPerMinute: int := 60
  const SecondsPerHour: int := 60 * 60
  const SecondsPerDay: int := 60 * 60 * 24

  /**
    _timeframe_to_seconds: the last character is the unit, the rest an integer count; `[-1]` on
    an empty string raises IndexError, a count that is not an integer raises ValueError from
    `int()` before the unit is looked at, and a unit other than m, h or d raises ValueError.
   */
  function TimeframeToSeconds(timeframe: string): (r: Result<int>)
    ensures |timeframe| == 0 ==> r == Err(IndexError)
    ensures |timeframe| > 0 ==>
      var unit := timeframe[|timeframe| - 1];
      var count := ParseInt(timeframe[..|timeframe| - 1]);
      (count.None? ==> r.Err? && r.error.ValueError?) &&
      (count.Some? && unit == 'm' ==> r == Ok(count.value * SecondsPerMinute)) &&
      (count.Some? && unit == 'h' ==> r == Ok(count.value * SecondsPerHour)) &&
      (count.Some? && unit == 'd' ==> r == Ok(count.value * SecondsPerDay)) &&
      (count.Some? && unit !in {'m', 'h', 'd'} ==> r == Err(ValueError("Invalid timeframe: " + timeframe)))
  {
    if |timeframe| == 0 then Err(IndexError)
    else
      var unit := timeframe[|timeframe| - 1];
      var prefix := timeframe[..|timeframe| - 1];
      match ParseInt(prefix)
      case None => Err(ValueError("invalid literal for int() with base 10: '" + prefix + "'"))
      case Some(value) =>
        if unit == 'm' then Ok(value * 60)
        else if unit == 'h' then Ok(value * 60 * 60)
        else if unit == 'd' then Ok(value * 60 * 60 * 24)
        else Err(ValueError("Invalid timeframe: " + timeframe))
  }

  /** The count printed by `str(n)` is read back by the count part of the timeframe. */
  lemma CountOf(n: int, unit: char)
    ensures var t := IntToString(n) + [unit];
      t[|t| - 1] == unit && ParseInt(t[..|t| - 1]) == Some(n)
  {
    var t := IntToString(n) + [unit];
    assert t[..|t| - 1] == IntToString(n);
    IntToStringRoundTrip(n);
  }

  /** "Nm", "Nh" and "Nd" are N minutes, hours and days; an hour is 60 minutes and a day 24 hours. */
  lemma TimeframeUnits(n: int)
    ensures TimeframeToSeconds(IntToString(n) + "m") == Ok(n * 60)
    ensures TimeframeToSeconds(IntToString(n) + "h") == Ok(n * 3600)
    ensures TimeframeToSeconds(IntToString(n) + "d") == Ok(n * 86400)
    ensures TimeframeToSeconds(IntToString(n) + "h").value == 60 * TimeframeToSeconds(IntToString(n) + "m").value
    ensures TimeframeToSeconds(IntToString(n) + "d").value == 24 * TimeframeToSeconds(IntToString(n) + "h").value
  {
    CountOf(n, 'm');
    CountOf(n, 'h');
    CountOf(n, 'd');
  }

  /** Any other unit is refused with the whole timeframe in the message, even with a valid count. */
  lemma OtherUnitRaises(n: int, unit: char)
    requires unit != 'm' && unit != 'h' && unit != 'd'
    ensures TimeframeToSeconds(IntToString(n) + [unit]) == Err(ValueError("Invalid timeframe: " + (IntToString(n) + [unit])))
  {
    CountOf(n, unit);
  }

  /** The cached price after one ticker read: the read price, or the cached one when the read failed. */
  function NextLatest(cached: real, ticker: Option<real>): (r: real)
    ensures ticker.Some? ==> r == ticker.value
    ensures ticker.None? ==> r == cached
  {
    if ticker.Some? then ticker.value else cached
  }

  /** The cached price after a sequence of ticker polls, oldest first. */
  function AfterReads(initial: real, polls: seq<Option<real>>): real
    decreases |polls|
  {
    if |polls| == 0 then initial else NextLatest(AfterReads(initial, polls[..|polls| - 1]), polls[|polls| - 1])
  }

  /**
    After any sequence of reads the cache holds the price of the last read that succeeded, or the
    initial price when none did.
   */
  lemma {:induction false} AfterReadsIsLastSuccess(initial: real, polls: seq<Option<real>>)
    ensures (forall i :: 0 <= i < |polls| ==> polls[i].None?) ==> AfterReads(initial, polls) == initial
    ensures forall i :: 0 <= i < |polls| && polls[i].Some? && (forall j :: i < j < |polls| ==> polls[j].None?) ==>
      AfterReads(initial, polls) == polls[i].value
    decreases |polls|
  {
    if |polls| > 0 {
      var before := polls[..|polls| - 1];
      AfterReadsIsLastSuccess(initial, before);
      assert forall i :: 0 <= i < |before| ==> before[i] == polls[i];
    }
  }

  class MarketData {
    const market: string
    const timeframe: string
    var latestPrice: real

    constructor (market: string, timeframe: string)
      ensures this.market == market && this.timeframe == timeframe && latestPrice == 0.0
    {
      this.market := market;
      this.timeframe := timeframe;
      latestPrice := 0.0;
    }

    /**
      get_latest_price: a successful ticker read (`ticker`, None when the client raised, the
      price key was missing or `float()` failed) replaces the cache; a failed one keeps it, and
      the cache is returned either way.
     */
    method GetLatestPrice(ticker: Option<real>) returns (price: real)
      modifies this`latestPrice
      ensures latestPrice == NextLatest(old(latestPrice), ticker)
      ensures price == latestPrice
    {
      if ticker.Some? {
        latestPrice := ticker.value;
      }
      return latestPrice;
    }
  }
}
