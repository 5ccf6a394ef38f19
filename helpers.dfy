/**
  The indicator and trade arithmetic of the helper library (src/utils/helpers.py):
  risk-based sizing, realised P&L and ROI, a rolling mean, resistance and support as
  window extremes, and the volume-anomaly ratio.
 */
module Helpers {
  import opened Wrappers
  import opened Stats

  /** calculate_position_size: the size whose price risk equals the money at risk; raises when entry equals stop. */
  function CalculatePositionSize(balance: real, riskPerTrade: real, entry: real, stop: real): (r: Result<real>)
    ensures r.Err? <==> entry == stop
    ensures r.Err? ==> r.error.ValueError?
    ensures r.Ok? ==> r.value * Abs(entry - stop) == balance * riskPerTrade
  {
    var priceRisk := Abs(entry - stop);
    if priceRisk == 0.0 then Err(ValueError("Entry price equals stop loss"))
    else Ok(balance * riskPerTrade / priceRisk)
  }

  /** calculate_pnl: a 'buy' earns the price rise on its size; every other side earns the fall. */
  function CalculatePnl(entry: real, exit: real, size: real, side: string): (r: real)
    ensures side == "buy" && size > 0.0 ==> (r > 0.0 <==> exit > entry)
    ensures side != "buy" && size > 0.0 ==> (r > 0.0 <==> exit < entry)
  {
    if side == "buy" then (exit - entry) * size else (entry - exit) * size
  }

  /** calculate_roi: the return as a percentage of the entry price; raises on a zero entry. */
  function CalculateRoi(entry: real, exit: real, side: string): (r: Result<real>)
    ensures r.Err? <==> entry == 0.0
    ensures r.Err? ==> r.error == ZeroDivisionError
    ensures r.Ok? && side == "buy" && entry > 0.0 ==> (r.value > 0.0 <==> exit > entry)
  {
    if entry == 0.0 then Err(ZeroDivisionError)
    else if side == "buy" then Ok((exit - entry) / entry * 100.0)
    else Ok((entry - exit) / entry * 100.0)
  }

  /** Any side other than 'buy' gets exactly the negated P&L of a 'buy'. */
  lemma PnlSidesOpposite(entry: real, exit: real, size: real, side: string)
    requires side != "buy"
    ensures CalculatePnl(entry, exit, size, side) == -CalculatePnl(entry, exit, size, "buy")
  {
  }

  /** ROI is the P&L of one unit as a percentage of the entry price, on either side. */
  lemma RoiIsUnitPnlPercent(entry: real, exit: real, side: string)
    requires entry != 0.0
    ensures CalculateRoi(entry, exit, side).Ok?
    ensures CalculateRoi(entry, exit, side).value * entry == CalculatePnl(entry, exit, 1.0, side) * 100.0
  {
  }

  /** pandas `Series(prices).rolling(window).mean().dropna()`: the mean of every full window, in order. */
  function RollingMean(prices: seq<real>, window: nat): (r: seq<real>)
    requires window > 0
    ensures |r| == if |prices| < window then 0 else |prices| - window + 1
    ensures forall i :: 0 <= i < |r| ==> r[i] == Mean(prices[i..i + window])
    decreases |prices|
  {
    if |prices| < window then []
    else
      var rest := RollingMean(prices[1..], window);
      WindowsShift(prices, window, rest);
      var r := [Mean(prices[..window])] + rest;
      assert forall i :: 1 <= i < |r| ==> r[i] == rest[i - 1];
      r
  }

  /** The windows of `prices[1..]` are the windows of `prices` from the second on. */
  lemma WindowsShift(prices: seq<real>, window: nat, rest: seq<real>)
    requires window > 0 && |prices| >= window && |rest| == |prices| - window
    requires forall i :: 0 <= i < |rest| ==> rest[i] == Mean(prices[1..][i..i + window])
    ensures forall i :: 0 <= i < |rest| ==> rest[i] == Mean(prices[i + 1..i + 1 + window])
  {
    forall i | 0 <= i < |rest|
      ensures rest[i] == Mean(prices[i + 1..i + 1 + window])
    {
      assert prices[1..][i..i + window] == prices[i + 1..i + 1 + window];
    }
  }

  /** calculate_moving_average: [] below one full window, otherwise one mean per window. */
  function CalculateMovingAverage(prices: seq<real>, window: nat): (r: seq<real>)
    requires window > 0
    ensures |prices| < window ==> r == []
    ensures |prices| >= window ==> |r| == |prices| - window + 1
    ensures forall i :: 0 <= i < |r| ==> r[i] == Mean(prices[i..i + window])
  {
    if |prices| < window then [] else RollingMean(prices, window)
  }

  /**
    calculate_resistance: None below `period` prices, otherwise `max(prices[-period:])`; that
    slice is empty only for a non-positive period, and Python's max then raises.
   */
  function CalculateResistance(prices: seq<real>, period: int): (r: Result<Option<real>>)
    ensures r == Ok(None) <==> |prices| < period
    ensures r.Err? <==> |prices| >= period && |TailSlice(prices, period)| == 0
    ensures r.Ok? && r.value.Some? ==>
      r.value.value in TailSlice(prices, period) &&
      forall i :: TailStart(|prices|, period) <= i < |prices| ==> prices[i] <= r.value.value
  {
    if |prices| < period then Ok(None)
    else
      var window := TailSlice(prices, period);
      if |window| == 0 then Err(ValueError("max() arg is an empty sequence"))
      else
        assert forall i :: TailStart(|prices|, period) <= i < |prices| ==>
          prices[i] == window[i - TailStart(|prices|, period)];
        Ok(Some(Max(window)))
  }

  /** calculate_support: the same window as calculate_resistance, taking the minimum. */
  function CalculateSupport(prices: seq<real>, period: int): (r: Result<Option<real>>)
    ensures r == Ok(None) <==> |prices| < period
    ensures r.Err? <==> |prices| >= period && |TailSlice(prices, period)| == 0
    ensures r.Ok? && r.value.Some? ==>
      r.value.value in TailSlice(prices, period) &&
      forall i :: TailStart(|prices|, period) <= i < |prices| ==> r.value.value <= prices[i]
  {
    if |prices| < period then Ok(None)
    else
      var window := TailSlice(prices, period);
      if |window| == 0 then Err(ValueError("min() arg is an empty sequence"))
      else
        assert forall i :: TailStart(|prices|, period) <= i < |prices| ==>
          prices[i] == window[i - TailStart(|prices|, period)];
        Ok(Some(Min(window)))
  }

  /** With a positive period and enough prices, the resistance is the exact maximum of the last `period` prices. */
  lemma ResistanceIsWindowMax(prices: seq<real>, period: int)
    requires 0 < period <= |prices|
    ensures CalculateResistance(prices, period) == Ok(Some(Max(prices[|prices| - period..])))
  {
  }

  /** Support never exceeds resistance for the same prices and period. */
  lemma SupportAtMostResistance(prices: seq<real>, period: int)
    requires CalculateResistance(prices, period).Ok? && CalculateResistance(prices, period).value.Some?
    ensures CalculateSupport(prices, period).Ok? && CalculateSupport(prices, period).value.Some?
    ensures CalculateSupport(prices, period).value.value <= CalculateResistance(prices, period).value.value
  {
    MinAtMostMax(TailSlice(prices, period));
  }

  /** The latest price always lies in the resistance window, so it never exceeds the resistance. */
  lemma LatestPriceAtMostResistance(prices: seq<real>, period: int)
    requires CalculateResistance(prices, period).Ok? && CalculateResistance(prices, period).value.Some?
    ensures prices[|prices| - 1] <= CalculateResistance(prices, period).value.value
  {
  }

  /**
    calculate_volume_anomaly: the last volume over the mean of all the earlier ones; None with
    fewer than two volumes or a baseline mean that is not positive.
   */
  function CalculateVolumeAnomaly(volumes: seq<real>): (r: Option<real>)
    ensures r.Some? <==> |volumes| >= 2 && Mean(volumes[..|volumes| - 1]) > 0.0
    ensures r.Some? ==> r.value * Mean(volumes[..|volumes| - 1]) == volumes[|volumes| - 1]
  {
    if |volumes| < 2 then None
    else
      var current := volumes[|volumes| - 1];
      var avg := Mean(AllButLast(volumes));
      if avg > 0.0 then Some(current / avg) else None
  }

  /** The latest sample is never in its own baseline: the ratio depends only on the mean of the earlier ones. */
  lemma AnomalyOfAppended(earlier: seq<real>, latest: real)
    requires |earlier| > 0
    ensures CalculateVolumeAnomaly(earlier + [latest]) ==
      if Mean(earlier) > 0.0 then Some(latest / Mean(earlier)) else None
  {
    assert (earlier + [latest])[..|earlier|] == earlier;
  }

  /** With the earlier volumes fixed and their mean positive, the ratio strictly increases with the latest volume. */
  lemma AnomalyStrictlyIncreasing(earlier: seq<real>, v1: real, v2: real)
    requires |earlier| > 0 && Mean(earlier) > 0.0
    requires v1 < v2
    ensures CalculateVolumeAnomaly(earlier + [v1]).Some? && CalculateVolumeAnomaly(earlier + [v2]).Some?
    ensures CalculateVolumeAnomaly(earlier + [v1]).value < CalculateVolumeAnomaly(earlier + [v2]).value
  {
    AnomalyOfAppended(earlier, v1);
    AnomalyOfAppended(earlier, v2);
    var m := Mean(earlier);
    assert v1 / m < v2 / m by {
      assert v1 / m * m == v1 && v2 / m * m == v2;
    }
  }
}
