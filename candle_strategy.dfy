/**
  The candle-based breakout strategy of src/strategies/strategy.py: it keeps a resistance level
  and an average volume computed from the latest candles, tests the latest price and candle
  volume against them, and places stop loss and take profit around the resistance level.
 */
module CandleStrategy {
  import opened Wrappers
  import opened Stats
  import Signals = BreakoutStrategy

  /** The two candle columns the strategy reads. */
  datatype Candle = Candle(high: real, volume: real)

  function Highs(candles: seq<Candle>): (r: seq<real>)
    ensures |r| == |candles| && forall i :: 0 <= i < |candles| ==> r[i] == candles[i].high
  {
    seq(|candles|, i requires 0 <= i < |candles| => candles[i].high)
  }

  function CandleVolumes(candles: seq<Candle>): (r: seq<real>)
    ensures |r| == |candles| && forall i :: 0 <= i < |candles| ==> r[i] == candles[i].volume
  {
    seq(|candles|, i requires 0 <= i < |candles| => candles[i].volume)
  }

  /** The signal dictionary of check_breakout_signal. */
  datatype SignalDetails = SignalDetails(
    signal: bool,
    currentPrice: real,
    resistanceLevel: real,
    currentVolume: real,
    averageVolume: real,
    volumeFactor: real,
    priceBreakout: bool,
    volumeConfirmation: bool)

  /**
    check_breakout_signal on given indicator values: the latest candle's volume (0 without
    candles) must exceed average·factor, and the price must exceed the resistance level, both
    strictly. A missing latest price cannot be compared and raises TypeError.
   */
  function CheckSignal(currentPrice: Option<real>, candles: seq<Candle>, resistanceLevel: real,
                       averageVolume: real, volumeFactor: real): (r: Result<SignalDetails>)
    ensures r.Err? <==> currentPrice.None?
    ensures r.Err? ==> r.error == TypeError
    ensures r.Ok? ==> r.value.currentVolume == (if |candles| > 0 then candles[|candles| - 1].volume else 0.0)
    ensures r.Ok? ==> r.value.priceBreakout == (currentPrice.value > resistanceLevel)
    ensures r.Ok? ==> r.value.volumeConfirmation == (r.value.currentVolume > averageVolume * volumeFactor)
    ensures r.Ok? ==> (r.value.signal <==> r.value.priceBreakout && r.value.volumeConfirmation)
    ensures r.Ok? ==> r.value.resistanceLevel == resistanceLevel && r.value.averageVolume == averageVolume &&
                      r.value.volumeFactor == volumeFactor && r.value.currentPrice == currentPrice.value
  {
    if currentPrice.None? then Err(TypeError)
    else
      var currentVolume := if |candles| > 0 then candles[|candles| - 1].volume else 0.0;
      var priceBreakout := currentPrice.value > resistanceLevel;
      var volumeConfirmation := currentVolume > averageVolume * volumeFactor;
      Ok(SignalDetails(priceBreakout && volumeConfirmation, currentPrice.value, resistanceLevel,
                       currentVolume, averageVolume, volumeFactor, priceBreakout, volumeConfirmation))
  }

  /** Without candles the current volume is 0, so no signal fires while average·factor is not negative. */
  lemma NoCandlesNoSignal(currentPrice: real, resistanceLevel: real, averageVolume: real, volumeFactor: real)
    requires averageVolume * volumeFactor >= 0.0
    ensures CheckSignal(Some(currentPrice), [], resistanceLevel, averageVolume, volumeFactor).Ok?
    ensures !CheckSignal(Some(currentPrice), [], resistanceLevel, averageVolume, volumeFactor).value.signal
  {
  }

  /**
    The latest candle is part of its own average: with non-negative volumes and factor, and the
    average taken over the last `n` candles, volume confirmation needs a factor below `n`.
   */
  lemma {:induction false} ConfirmationNeedsFactorBelowWindow(candles: seq<Candle>, periods: int,
                                                               currentPrice: real, resistanceLevel: real, volumeFactor: real)
    requires |candles| > 0 && periods > 0 && volumeFactor >= 0.0
    requires forall i :: 0 <= i < |candles| ==> candles[i].volume >= 0.0
    requires CheckSignal(Some(currentPrice), candles, resistanceLevel,
                         Mean(TailSlice(CandleVolumes(candles), periods)), volumeFactor).value.volumeConfirmation
    ensures volumeFactor < |TailSlice(CandleVolumes(candles), periods)| as real
  {
    var window := TailSlice(CandleVolumes(candles), periods);
    var n := |window| as real;
    var avg := Mean(window);
    var v := candles[|candles| - 1].volume;
    LastInTail(CandleVolumes(candles), periods);
    assert window[|window| - 1] == v;
    ElementAtMostSum(window, |window| - 1);
    assert v <= avg * n;
    assert v > avg * volumeFactor;
    SumNonNegative(window);
    assert avg >= 0.0 && avg * volumeFactor >= 0.0;
    assert avg > 0.0;
    assert avg * volumeFactor < avg * n;
  }

  /** The levels dictionary of calculate_entry_exit_levels. */
  datatype Levels = Levels(entryPrice: real, stopLoss: real, takeProfit: real, risk: real, reward: real, riskRewardRatio: real)

  /**
    calculate_entry_exit_levels on a resistance level: stop 1% below it, reward the risk times the
    ratio, take profit the entry plus the reward.
   */
  function EntryExitLevels(resistanceLevel: real, riskRewardRatio: real, entryPrice: real): (r: Levels)
    ensures r.stopLoss == resistanceLevel * 0.99
    ensures r.risk == entryPrice - r.stopLoss
    ensures r.reward == r.risk * riskRewardRatio
    ensures r.takeProfit == entryPrice + r.reward
    ensures r.entryPrice == entryPrice && r.riskRewardRatio == riskRewardRatio
  {
    var stopLoss := resistanceLevel * 0.99;
    var risk := entryPrice - stopLoss;
    Levels(entryPrice, stopLoss, entryPrice + risk * riskRewardRatio, risk, risk * riskRewardRatio, riskRewardRatio)
  }

  /** The candle strategy places the same stop and take profit as the analysis-based strategy does for that resistance. */
  lemma LevelsAgreeWithExitTargets(cfg: Signals.StrategyConfig, a: Signals.Analysis, entryPrice: real)
    requires a.resistance.Some?
    ensures EntryExitLevels(a.resistance.value, cfg.riskRewardRatio, entryPrice).stopLoss ==
            Signals.CalculateExitTargets(cfg, a, entryPrice).stopLoss
    ensures EntryExitLevels(a.resistance.value, cfg.riskRewardRatio, entryPrice).takeProfit ==
            Signals.CalculateExitTargets(cfg, a, entryPrice).takeProfit
  {
  }

  class BreakoutStrategy {
    const volumeFactor: real
    const resistancePeriods: int
    const riskRewardRatio: real
    var resistanceLevel: real
    var averageVolume: real

    /** Both indicators start at 0.0. */
    constructor (volumeFactor: real, resistancePeriods: int, riskRewardRatio: real)
      requires resistancePeriods > 0
      ensures this.volumeFactor == volumeFactor && this.resistancePeriods == resistancePeriods
      ensures this.riskRewardRatio == riskRewardRatio
      ensures resistanceLevel == 0.0 && averageVolume == 0.0
    {
      this.volumeFactor := volumeFactor;
      this.resistancePeriods := resistancePeriods;
      this.riskRewardRatio := riskRewardRatio;
      resistanceLevel := 0.0;
      averageVolume := 0.0;
    }

    /**
      update_market_data with the fetched candles: the highest high and the mean volume of the last
      `resistance_periods` candles; without candles both indicators keep their values.
     */
    method UpdateMarketData(candles: seq<Candle>)
      requires resistancePeriods > 0
      modifies this
      ensures |candles| == 0 ==> resistanceLevel == old(resistanceLevel) && averageVolume == old(averageVolume)
      ensures |candles| > 0 ==>
        resistanceLevel in TailSlice(Highs(candles), resistancePeriods) &&
        (forall i :: TailStart(|candles|, resistancePeriods) <= i < |candles| ==> candles[i].high <= resistanceLevel) &&
        averageVolume == Mean(TailSlice(CandleVolumes(candles), resistancePeriods))
    {
      if |candles| > 0 {
        var highs := TailSlice(Highs(candles), resistancePeriods);
        var k := TailStart(|candles|, resistancePeriods);
        assert forall i :: k <= i < |candles| ==> candles[i].high == highs[i - k];
        resistanceLevel := Max(highs);
        averageVolume := Mean(TailSlice(CandleVolumes(candles), resistancePeriods));
      }
    }

    function CheckBreakoutSignal(currentPrice: Option<real>, candles: seq<Candle>): (r: Result<SignalDetails>)
      reads this
      ensures r == CheckSignal(currentPrice, candles, resistanceLevel, averageVolume, volumeFactor)
    {
      CheckSignal(currentPrice, candles, resistanceLevel, averageVolume, volumeFactor)
    }

    function CalculateEntryExitLevels(entryPrice: real): (r: Levels)
      reads this
      ensures r == EntryExitLevels(resistanceLevel, riskRewardRatio, entryPrice)
    {
      EntryExitLevels(resistanceLevel, riskRewardRatio, entryPrice)
    }
  }
}
