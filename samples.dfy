/**
  The rolling sample caches shared by the two market-data services (src/market_data.py and
  src/core/market_data.py): a fetched trade becomes one (price, USD volume, timestamp) sample,
  and eviction drops the samples at the head that are older than a cutoff.
 */
module Samples {
  import opened Wrappers
  import opened Stats

  /**
    A trade as the exchange reports it. A missing price or size is given as 0 (the source's
    `trade.get('price', 0)`), a missing id or side as "", and a missing or empty `createdAt` as None;
    a present `createdAt` is the instant it names, in seconds.
   */
  datatype RawTrade = RawTrade(id: string, price: real, size: real, side: string, createdAt: Option<int>)

  /** `float(d.get(key, 0))` on a market payload whose values are numbers. */
  function QuoteField(d: map<string, real>, key: string): (r: real)
    ensures key in d ==> r == d[key]
    ensures key !in d ==> r == 0.0
  {
    if key in d then d[key] else 0.0
  }

  /** The instant a sample is stamped with: its own `createdAt`, or `now` when it has none. */
  function TradeTime(t: RawTrade, now: int): (r: int)
    ensures t.createdAt.None? ==> r == now
    ensures t.createdAt.Some? ==> r == t.createdAt.value
  {
    match t.createdAt
    case Some(c) => c
    case None => now
  }

  /** The USD volume of one trade, `size * price`. */
  function Notional(t: RawTrade): real {
    t.size * t.price
  }

  function Prices(trades: seq<RawTrade>): (r: seq<real>)
    ensures |r| == |trades|
    ensures forall i :: 0 <= i < |trades| ==> r[i] == trades[i].price
  {
    if |trades| == 0 then [] else Prices(trades[..|trades| - 1]) + [trades[|trades| - 1].price]
  }

  function Volumes(trades: seq<RawTrade>): (r: seq<real>)
    ensures |r| == |trades|
    ensures forall i :: 0 <= i < |trades| ==> r[i] == Notional(trades[i])
  {
    if |trades| == 0 then [] else Volumes(trades[..|trades| - 1]) + [Notional(trades[|trades| - 1])]
  }

  /** Timestamps of a batch whose trades carry their own `createdAt` when they have one. */
  function Times(trades: seq<RawTrade>, now: int): (r: seq<int>)
    ensures |r| == |trades|
    ensures forall i :: 0 <= i < |trades| ==> r[i] == TradeTime(trades[i], now)
  {
    if |trades| == 0 then [] else Times(trades[..|trades| - 1], now) + [TradeTime(trades[|trades| - 1], now)]
  }

  /** Timestamps of a batch that is stamped as a whole with `now`. */
  function Stamps(n: nat, now: int): (r: seq<int>)
    ensures |r| == n
    ensures forall i :: 0 <= i < n ==> r[i] == now
  {
    if n == 0 then [] else Stamps(n - 1, now) + [now]
  }

  /**
    How many samples `while timestamps and timestamps[0] < cutoff: pop(0)` removes: the length
    of the longest prefix that is older than the cutoff.
   */
  function StaleCount(ts: seq<int>, cutoff: int): (k: nat)
    ensures k <= |ts|
    ensures forall i :: 0 <= i < k ==> ts[i] < cutoff
    ensures k < |ts| ==> ts[k] >= cutoff
    decreases |ts|
  {
    if |ts| == 0 || ts[0] >= cutoff then 0
    else
      var rest := StaleCount(ts[1..], cutoff);
      assert forall i :: 1 <= i < 1 + rest ==> ts[i] == ts[1..][i - 1];
      1 + rest
  }

  /** What eviction leaves: a suffix whose head, if any, is not older than the cutoff. */
  function Evicted<T>(s: seq<T>, ts: seq<int>, cutoff: int): (r: seq<T>)
    requires |s| == |ts|
    ensures |r| == |s| - StaleCount(ts, cutoff)
    ensures r == s[StaleCount(ts, cutoff)..]
  {
    s[StaleCount(ts, cutoff)..]
  }

  /** Popping one stale head sample leaves one stale sample fewer to pop. */
  lemma StaleCountStep(ts: seq<int>, cutoff: int)
    requires |ts| > 0 && ts[0] < cutoff
    ensures StaleCount(ts, cutoff) == 1 + StaleCount(ts[1..], cutoff)
  {
  }

  /** A sample that is not older than the cutoff, at the end of the cache, survives eviction. */
  lemma LastFreshSurvives(ts: seq<int>, cutoff: int)
    requires |ts| > 0 && ts[|ts| - 1] >= cutoff
    ensures StaleCount(ts, cutoff) < |ts|
    ensures Evicted(ts, ts, cutoff)[|ts| - StaleCount(ts, cutoff) - 1] == ts[|ts| - 1]
  {
  }

  /** After eviction the head is not older than the cutoff (or nothing is left). */
  lemma EvictedHeadFresh(ts: seq<int>, cutoff: int)
    ensures var r := Evicted(ts, ts, cutoff); |r| == 0 || r[0] >= cutoff
  {
  }

  /**
    Only the head is inspected: once the head is fresh, every later sample is kept, however old
    it is, and nothing is re-sorted.
   */
  lemma FreshHeadKeepsAll(ts: seq<int>, cutoff: int)
    requires |ts| > 0 && ts[0] >= cutoff
    ensures Evicted(ts, ts, cutoff) == ts
  {
  }

  /**
    Eviction of a concatenation stops inside the first part when that part holds a sample that
    is not older than the cutoff, and otherwise goes on into the second part.
   */
  lemma {:induction false} StaleCountConcat(a: seq<int>, b: seq<int>, cutoff: int)
    ensures StaleCount(a + b, cutoff) == if StaleCount(a, cutoff) < |a| then StaleCount(a, cutoff)
                                         else |a| + StaleCount(b, cutoff)
    decreases |a|
  {
    if |a| == 0 {
      assert a + b == b;
    } else if a[0] >= cutoff {
    } else {
      assert (a + b)[1..] == a[1..] + b;
      StaleCountConcat(a[1..], b, cutoff);
    }
  }
}
