/**
  The breakout strategy of src/strategies/breakout_strategy.py: it analyses a price and volume
  history into a signal, decides entries and exits, sizes a position from the account equity and
  places the stop loss and take profit relative to the resistance level.
 */
module BreakoutStrategy {
  import opened Wrappers
  import opened Stats

  /** The configuration values the strategy reads at construction and never changes. */
  datatype StrategyConfig = StrategyConfig(
    volumeFactor: real,
    riskRewardRatio: real,
    resistancePeriod: int,
    maxPositionSize: real,
    maxRiskPerTrade: real)

  datatype Signal = InsufficientData | Neutral | Breakout

  /**
    The analysis dictionary. An 'insufficient_data' analysis has no resistance and no volume
    anomaly; its current price is absent when there are no prices at all.
   */
  datatype Analysis = Analysis(
    signal: Signal,
    currentPrice: Option<real>,
    resistance: Option<real>,
    volumeAnomaly: Option<real>,
    timestamp: int)

  /**
    The volume anomaly of analyze: the last volume over the mean of the earlier ones, with the
    last volume as its own baseline when it is alone, and 1.0 whenever the baseline is not positive.
   */
  function VolumeRatio(volumes: seq<real>): (r: real)
    requires |volumes| > 0
    ensures |volumes| == 1 ==> r == 1.0
    ensures |volumes| >= 2 && Mean(AllButLast(volumes)) > 0.0 ==>
      r * Mean(AllButLast(volumes)) == volumes[|volumes| - 1]
    ensures |volumes| >= 2 && Mean(AllButLast(volumes)) <= 0.0 ==> r == 1.0
  {
    var current := volumes[|volumes| - 1];
    var avg := if |volumes| > 1 then Mean(AllButLast(volumes)) else current;
    assert |volumes| == 1 && avg > 0.0 ==> current / avg == 1.0;
    if avg > 0.0 then current / avg else 1.0
  }

  /**
    analyze: 'insufficient_data' without prices or with fewer than `resistance_period` of them;
    otherwise the resistance is the maximum of `prices[-resistance_period:]` (which raises when that
    slice is empty), the anomaly needs at least one volume (IndexError otherwise), and the signal is
    'breakout' iff the current price is strictly above the resistance and the anomaly strictly above
    the volume factor.
   */
  function Analyze(cfg: StrategyConfig, prices: seq<real>, volumes: seq<real>, now: int): (r: Result<Analysis>)
    ensures (|prices| == 0 || |prices| < cfg.resistancePeriod) <==> r.Ok? && r.value.signal == InsufficientData
    ensures r.Ok? && r.value.signal == InsufficientData ==>
      r.value.resistance.None? && r.value.volumeAnomaly.None? &&
      r.value.currentPrice == if |prices| > 0 then Some(prices[|prices| - 1]) else None
    ensures r.Err? <==> (|prices| > 0 && |prices| >= cfg.resistancePeriod &&
                         (|TailSlice(prices, cfg.resistancePeriod)| == 0 || |volumes| == 0))
    ensures r.Err? ==> r.error == if |TailSlice(prices, cfg.resistancePeriod)| == 0 then ValueError("max() arg is an empty sequence") else IndexError
    ensures r.Ok? && r.value.signal != InsufficientData ==>
      r.value.currentPrice == Some(prices[|prices| - 1]) &&
      r.value.resistance == Some(Max(TailSlice(prices, cfg.resistancePeriod))) &&
      r.value.volumeAnomaly == Some(VolumeRatio(volumes)) &&
      (r.value.signal == Breakout <==>
        prices[|prices| - 1] > r.value.resistance.value && VolumeRatio(volumes) > cfg.volumeFactor)
    ensures r.Ok? ==> r.value.timestamp == now
  {
    if |prices| == 0 || |prices| < cfg.resistancePeriod then
      Ok(Analysis(InsufficientData, if |prices| > 0 then Some(prices[|prices| - 1]) else None, None, None, now))
    else
      var currentPrice := prices[|prices| - 1];
      var window := TailSlice(prices, cfg.resistancePeriod);
      if |window| == 0 then Err(ValueError("max() arg is an empty sequence"))
      else if |volumes| == 0 then Err(IndexError)
      else
        var resistance := Max(window);
        var anomaly := VolumeRatio(volumes);
        var signal := if currentPrice > resistance && anomaly > cfg.volumeFactor then Breakout else Neutral;
        Ok(Analysis(signal, Some(currentPrice), Some(resistance), Some(anomaly), now))
  }

  /**
    The resistance window always ends with the current price, so the current price is never
    strictly above the resistance and analyze never reports a breakout.
   */
  lemma BreakoutUnreachable(cfg: StrategyConfig, prices: seq<real>, volumes: seq<real>, now: int)
    ensures Analyze(cfg, prices, volumes, now).Ok? ==> Analyze(cfg, prices, volumes, now).value.signal != Breakout
  {
    var r := Analyze(cfg, prices, volumes, now);
    if r.Ok? && r.value.signal != InsufficientData {
      var window := TailSlice(prices, cfg.resistancePeriod);
      LastInTail(prices, cfg.resistancePeriod);
      assert prices[|prices| - 1] == window[|window| - 1];
    }
  }

  /** should_enter: enter exactly on a breakout. */
  function ShouldEnter(a: Analysis): (r: bool)
    ensures r <==> a.signal == Breakout
  {
    a.signal == Breakout
  }

  /** Hence no analysis that analyze produces ever leads to an entry. */
  lemma NeverEnters(cfg: StrategyConfig, prices: seq<real>, volumes: seq<real>, now: int)
    requires Analyze(cfg, prices, volumes, now).Ok?
    ensures !ShouldEnter(Analyze(cfg, prices, volumes, now).value)
  {
    BreakoutUnreachable(cfg, prices, volumes, now);
  }

  /** Python truthiness of an optional number. */
  predicate Truthy(x: Option<real>) {
    x.Some? && x.value != 0.0
  }

  /**
    should_exit: false unless the current price, the entry price and the side are all present and
    non-zero/non-empty; then a 'buy' exits iff the price fell below the entry, any other side never.
   */
  function ShouldExit(currentPrice: Option<real>, entryPrice: Option<real>, side: Option<string>): (r: bool)
    ensures r <==> Truthy(currentPrice) && Truthy(entryPrice) && side == Some("buy") &&
                   currentPrice.value < entryPrice.value
  {
    if !(Truthy(currentPrice) && Truthy(entryPrice) && side.Some? && side.value != "") then false
    else if side.value == "buy" then currentPrice.value < entryPrice.value
    else false
  }

  /**
    calculate_position_size: 0 without positive equity, without a (non-zero) current price or
    resistance, or when the current price is not above the stop at 0.99·resistance; otherwise the
    size that risks `equity * max_risk_per_trade` down to the stop, capped at max_position_size.
   */
  function CalculatePositionSize(cfg: StrategyConfig, a: Analysis, equity: real): (r: real)
    ensures equity <= 0.0 || !Truthy(a.currentPrice) || !Truthy(a.resistance) ==> r == 0.0
    ensures equity > 0.0 && Truthy(a.currentPrice) && Truthy(a.resistance) ==>
      var priceRisk := a.currentPrice.value - a.resistance.value * 0.99;
      (priceRisk <= 0.0 ==> r == 0.0) &&
      (priceRisk > 0.0 ==>
         (r * priceRisk == equity * cfg.maxRiskPerTrade && r <= cfg.maxPositionSize) ||
         (r == cfg.maxPositionSize && equity * cfg.maxRiskPerTrade >= cfg.maxPositionSize * priceRisk))
  {
    if equity <= 0.0 then 0.0
    else
      var riskAmount := equity * cfg.maxRiskPerTrade;
      if !Truthy(a.currentPrice) || !Truthy(a.resistance) then 0.0
      else
        var stopLoss := a.resistance.value * 0.99;
        var priceRisk := a.currentPrice.value - stopLoss;
        if priceRisk <= 0.0 then 0.0
        else
          var size := riskAmount / priceRisk;
          if size <= cfg.maxPositionSize then size else cfg.maxPositionSize
  }

  /** With non-negative risk settings the size always lies between 0 and max_position_size. */
  lemma PositionSizeBounded(cfg: StrategyConfig, a: Analysis, equity: real)
    requires cfg.maxRiskPerTrade >= 0.0 && cfg.maxPositionSize >= 0.0
    ensures 0.0 <= CalculatePositionSize(cfg, a, equity) <= cfg.maxPositionSize
  {
    if equity > 0.0 && Truthy(a.currentPrice) && Truthy(a.resistance) {
      var priceRisk := a.currentPrice.value - a.resistance.value * 0.99;
      if priceRisk > 0.0 {
        assert equity * cfg.maxRiskPerTrade >= 0.0;
        assert equity * cfg.maxRiskPerTrade / priceRisk >= 0.0;
      }
    }
  }

  /** calculate_entry_price: the analysed current price. */
  function CalculateEntryPrice(a: Analysis): (r: Option<real>)
    ensures r == a.currentPrice
  {
    a.currentPrice
  }

  /** Every analysis with prices enters at the latest price. */
  lemma EntryPriceIsLatestPrice(cfg: StrategyConfig, prices: seq<real>, volumes: seq<real>, now: int)
    requires |prices| > 0 && Analyze(cfg, prices, volumes, now).Ok?
    ensures CalculateEntryPrice(Analyze(cfg, prices, volumes, now).value) == Some(prices[|prices| - 1])
  {
  }

  datatype ExitTargets = ExitTargets(stopLoss: real, takeProfit: real, riskRewardRatio: real)

  /**
    calculate_exit_targets: the stop just below resistance (0.99·resistance, or 0 when the analysis
    has none) and the take profit `risk_reward_ratio` times the entry-to-stop risk above the entry.
   */
  function CalculateExitTargets(cfg: StrategyConfig, a: Analysis, entryPrice: real): (r: ExitTargets)
    ensures r.stopLoss == a.resistance.GetOr(0.0) * 0.99
    ensures r.takeProfit - entryPrice == cfg.riskRewardRatio * (entryPrice - r.stopLoss)
    ensures r.riskRewardRatio == cfg.riskRewardRatio
  {
    var resistance := a.resistance.GetOr(0.0);
    var stopLoss := resistance * 0.99;
    var risk := entryPrice - stopLoss;
    ExitTargets(stopLoss, entryPrice + risk * cfg.riskRewardRatio, cfg.riskRewardRatio)
  }

  /** An entry above the stop with a positive ratio is bracketed: stop < entry < take profit. */
  lemma ExitTargetsBracketEntry(cfg: StrategyConfig, a: Analysis, entryPrice: real)
    requires cfg.riskRewardRatio > 0.0
    requires entryPrice > a.resistance.GetOr(0.0) * 0.99
    ensures var t := CalculateExitTargets(cfg, a, entryPrice); t.stopLoss < entryPrice < t.takeProfit
  {
    var t := CalculateExitTargets(cfg, a, entryPrice);
    assert cfg.riskRewardRatio * (entryPrice - t.stopLoss) > 0.0;
  }

  /** The configuration of the strategy tests. */
  function TestConfig(): StrategyConfig {
    StrategyConfig(2.0, 3.0, 10, 0.1, 0.02)
  }

  /** Ten flat prices of 1000, then a rise to the breakout at 1080. */
  function TestPrices(): seq<real> {
    seq(10, _ => 1000.0) + TestRise()
  }

  function TestRise(): seq<real> {
    [1000.0, 1005.0, 1010.0, 1015.0, 1020.0, 1025.0, 1030.0, 1040.0, 1050.0, 1080.0]
  }

  /** Nineteen volumes of 100 and a spike of 300. */
  function TestVolumes(): seq<real> {
    seq(19, _ => 100.0) + [300.0]
  }

  /** The spike is three times the average of the earlier volumes. */
  lemma TestVolumeRatio()
    ensures VolumeRatio(TestVolumes()) == 3.0
  {
    var earlier := seq(19, _ => 100.0);
    assert AllButLast(TestVolumes()) == earlier;
    SumOfConstant(earlier, 100.0);
  }

  /**
    On the breakout test data the analysis is 'neutral', with current price and resistance both
    1080 and anomaly 3.0: the test's expected 'breakout' cannot come out of this code.
   */
  lemma TestDataGivesNeutral(now: int)
    ensures Analyze(TestConfig(), TestPrices(), TestVolumes(), now) ==
      Ok(Analysis(Neutral, Some(1080.0), Some(1080.0), Some(3.0), now))
  {
    TestVolumeRatio();
    var prices := TestPrices();
    assert |prices| == 20 && prices[19] == 1080.0;
    var window := TailSlice(prices, 10);
    assert window == TestRise();
    assert forall i :: 0 <= i < |window| ==> window[i] <= 1080.0;
    assert Max(window) == 1080.0;
    var r := Analyze(TestConfig(), prices, TestVolumes(), now);
    assert r.Ok? && r.value.signal != InsufficientData;
    assert r.value.signal == Neutral;
  }

  /** The position-size test: equity 10000, price 1080 and resistance 1000 give the cap 0.1. */
  lemma TestPositionSize()
    ensures CalculatePositionSize(TestConfig(), Analysis(Neutral, Some(1080.0), Some(1000.0), None, 0), 10000.0) == 0.1
  {
  }

  /**
    The corrected analysis: the resistance is the maximum of the `resistance_period` prices before
    the current one, so that a price above every recent price is a breakout. It needs one price
    more than the period.
   */
  function AnalyzePriorWindow(cfg: StrategyConfig, prices: seq<real>, volumes: seq<real>, now: int): (r: Result<Analysis>)
    ensures (|prices| == 0 || |prices| - 1 < cfg.resistancePeriod) <==> r.Ok? && r.value.signal == InsufficientData
    ensures r.Err? <==> (|prices| > 0 && |prices| - 1 >= cfg.resistancePeriod &&
                         (|TailSlice(AllButLast(prices), cfg.resistancePeriod)| == 0 || |volumes| == 0))
    ensures r.Ok? && r.value.signal != InsufficientData ==>
      r.value.currentPrice == Some(prices[|prices| - 1]) &&
      r.value.volumeAnomaly == Some(VolumeRatio(volumes)) &&
      (r.value.signal == Breakout <==>
        VolumeRatio(volumes) > cfg.volumeFactor &&
        forall i :: TailStart(|prices| - 1, cfg.resistancePeriod) <= i < |prices| - 1 ==> prices[i] < prices[|prices| - 1])
  {
    if |prices| == 0 || |prices| - 1 < cfg.resistancePeriod then
      Ok(Analysis(InsufficientData, if |prices| > 0 then Some(prices[|prices| - 1]) else None, None, None, now))
    else
      var currentPrice := prices[|prices| - 1];
      var earlier := AllButLast(prices);
      var window := TailSlice(earlier, cfg.resistancePeriod);
      if |window| == 0 then Err(ValueError("max() arg is an empty sequence"))
      else if |volumes| == 0 then Err(IndexError)
      else
        var resistance := Max(window);
        var k := TailStart(|earlier|, cfg.resistancePeriod);
        assert forall i :: k <= i < |earlier| ==> prices[i] == window[i - k];
        var anomaly := VolumeRatio(volumes);
        var signal := if currentPrice > resistance && anomaly > cfg.volumeFactor then Breakout else Neutral;
        Ok(Analysis(signal, Some(currentPrice), Some(resistance), Some(anomaly), now))
  }

  /** With the prior window the breakout test data does give the breakout the test expects. */
  lemma TestDataBreaksOutOfPriorWindow(now: int)
    ensures AnalyzePriorWindow(TestConfig(), TestPrices(), TestVolumes(), now).Ok?
    ensures AnalyzePriorWindow(TestConfig(), TestPrices(), TestVolumes(), now).value.signal == Breakout
  {
    TestVolumeRatio();
    var prices := TestPrices();
    assert |prices| == 20 && prices[19] == 1080.0;
    assert forall i :: 0 <= i < 10 ==> prices[i] == 1000.0;
    assert forall i :: 10 <= i < 20 ==> prices[i] == TestRise()[i - 10];
    assert forall i :: 0 <= i < 19 ==> prices[i] <= 1050.0;
    var r := AnalyzePriorWindow(TestConfig(), prices, TestVolumes(), now);
    assert r.Ok? && r.value.signal != InsufficientData;
  }
}
