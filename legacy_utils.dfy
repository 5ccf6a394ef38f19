/**
  The helpers of the older Portuguese layer (src/utils.py): the required-key validation of the
  loaded configuration, which raises a bare Exception naming the first missing key, and a
  risk-based position size.
 */
module LegacyUtils {
  import opened Wrappers
  import opened Stats
  import opened ConfigCheck
  import Helpers

  /** The required keys, in their iteration order; the endpoints must name grpc and rest. */
  const Required: seq<Entry> := [
    Entry("trading", SubKeys(["market", "timeframe", "volume_factor", "risk_reward_ratio"])),
    Entry("risk", SubKeys(["max_position_size", "max_risk_per_trade"])),
    Entry("technical", SubKeys(["resistance_period", "volume_lookback"])),
    Entry("network", Nested([Entry("endpoints", SubKeys(["grpc", "rest"]))]))
  ]

  const MissingMessage: string := "Configuração obrigatória faltando: "

  /**
    validate_config: nothing when every required key is present; otherwise an Exception naming
    the first missing key by its dotted path, or the TypeError that `in` or `[]` raised on a
    value that is not a dictionary.
   */
  function ValidateConfig(config: Value): (r: Result<()>)
    ensures r.Ok? <==> Satisfies(config, Required)
    ensures r.Err? ==> r.error == TypeError || (r.error.Exception? && exists p :: r.error.msg == MissingMessage + p)
  {
    CompleteIffSatisfies(config, Required, "");
    match CheckKeys(config, Required, "")
    case Complete => Ok(())
    case Missing(path) => Err(Exception(MissingMessage + path))
    case TypeFailure => Err(TypeError)
  }

  /**
    A reported key is the first required entry, in iteration order, that the configuration
    does not satisfy, named by exactly the dotted path check_keys builds for it.
   */
  lemma ReportsFirstMissing(config: Value, p: string)
    requires ValidateConfig(config) == Err(Exception(MissingMessage + p))
    ensures exists i :: FirstFailing(config, Required, i) && ReportedPath(config, Required[i], "", p)
  {
    MissingIsFirstFailure(config, Required, "");
    assert CheckKeys(config, Required, "") == Missing(p) by {
      assert (MissingMessage + CheckKeys(config, Required, "").path)[|MissingMessage|..] == CheckKeys(config, Required, "").path;
      assert (MissingMessage + p)[|MissingMessage|..] == p;
    }
  }

  /** A configuration that passes holds a network.endpoints section naming both grpc and rest. */
  lemma PassingConfigHasEndpoints(config: Value)
    requires ValidateConfig(config).Ok?
    ensures config.Dict? && "network" in config.fields
    ensures var network := config.fields["network"];
      Get(network, "endpoints").Ok? &&
      Has(Get(network, "endpoints").value, "grpc") && Has(Get(network, "endpoints").value, "rest")
  {
    assert Holds(config, Required[0]);
    assert Holds(config, Required[3]);
    var network := Get(config, "network").value;
    var inner := [Entry("endpoints", SubKeys(["grpc", "rest"]))];
    assert Satisfies(network, inner);
    assert Holds(network, inner[0]);
  }

  /** Extra keys at any depth never make validation fail. */
  lemma ExtraKeysAccepted(big: Value, small: Value)
    requires Extends(big, small) && ValidateConfig(small).Ok?
    ensures ValidateConfig(big).Ok?
  {
    ExtraKeysNeverFail(big, small, Required);
  }

  /** calculate_position_size: the money at risk over the price risk; raises ValueError on a zero price risk. */
  function CalculatePositionSize(balance: real, riskPerTrade: real, entry: real, stop: real): (r: Result<real>)
    ensures r.Err? <==> entry == stop
    ensures r.Err? ==> r.error == ValueError("Preço de entrada igual ao stop loss")
    ensures r.Ok? ==> r.value * Abs(entry - stop) == balance * riskPerTrade
  {
    var priceRisk := Abs(entry - stop);
    if priceRisk == 0.0 then Err(ValueError("Preço de entrada igual ao stop loss"))
    else Ok(balance * riskPerTrade / priceRisk)
  }

  /** The size does not depend on which side of the entry the stop lies. */
  lemma SizeIgnoresStopSide(balance: real, riskPerTrade: real, entry: real, stop: real)
    ensures CalculatePositionSize(balance, riskPerTrade, entry, stop) == CalculatePositionSize(balance, riskPerTrade, stop, entry)
  {
    assert Abs(entry - stop) == Abs(stop - entry);
  }

  /** The older helper computes the same size as the helper library; only the error message differs. */
  lemma AgreesWithHelpers(balance: real, riskPerTrade: real, entry: real, stop: real)
    ensures CalculatePositionSize(balance, riskPerTrade, entry, stop).Ok? <==>
      Helpers.CalculatePositionSize(balance, riskPerTrade, entry, stop).Ok?
    ensures CalculatePositionSize(balance, riskPerTrade, entry, stop).Ok? ==>
      CalculatePositionSize(balance, riskPerTrade, entry, stop).value ==
      Helpers.CalculatePositionSize(balance, riskPerTrade, entry, stop).value
  {
  }
}
