/**
  The configuration helpers of the newer layer (src/utils/config.py): the same required-key
  validation as the older layer, raising ValueError and requiring rest and ws endpoints, and the
  environment lookup, with the process environment as a map.
 */
module ConfigUtils {
  import opened Wrappers
  import opened ConfigCheck
  import LegacyUtils

  /** The required keys, in their iteration order; the endpoints must name rest and ws. */
  const Required: seq<Entry> := [
    Entry("trading", SubKeys(["market", "timeframe", "volume_factor", "risk_reward_ratio"])),
    Entry("risk", SubKeys(["max_position_size", "max_risk_per_trade"])),
    Entry("technical", SubKeys(["resistance_period", "volume_lookback"])),
    Entry("network", Nested([Entry("endpoints", SubKeys(["rest", "ws"]))]))
  ]

  const MissingMessage: string := "Missing required configuration: "

  /**
    validate_config: nothing when every required key is present; otherwise a ValueError naming
    the first missing key by its dotted path, or the TypeError of `in` or `[]` on a value that is
    not a dictionary.
   */
  function ValidateConfig(config: Value): (r: Result<()>)
    ensures r.Ok? <==> Satisfies(config, Required)
    ensures r.Err? ==> r.error == TypeError || (r.error.ValueError? && exists p :: r.error.msg == MissingMessage + p)
  {
    CompleteIffSatisfies(config, Required, "");
    match CheckKeys(config, Required, "")
    case Complete => Ok(())
    case Missing(path) => Err(ValueError(MissingMessage + path))
    case TypeFailure => Err(TypeError)
  }

  /** A reported key is the first required entry the configuration does not satisfy, named by exactly its dotted path. */
  lemma ReportsFirstMissing(config: Value, p: string)
    requires ValidateConfig(config) == Err(ValueError(MissingMessage + p))
    ensures exists i :: FirstFailing(config, Required, i) && ReportedPath(config, Required[i], "", p)
  {
    MissingIsFirstFailure(config, Required, "");
    assert CheckKeys(config, Required, "") == Missing(p) by {
      assert (MissingMessage + CheckKeys(config, Required, "").path)[|MissingMessage|..] == CheckKeys(config, Required, "").path;
      assert (MissingMessage + p)[|MissingMessage|..] == p;
    }
  }

  /** Extra keys at any depth never make validation fail. */
  lemma ExtraKeysAccepted(big: Value, small: Value)
    requires Extends(big, small) && ValidateConfig(small).Ok?
    ensures ValidateConfig(big).Ok?
  {
    ExtraKeysNeverFail(big, small, Required);
  }

  /** A configuration with every required section, whose endpoints are grpc and rest. */
  function GrpcConfig(): Value {
    Dict(map[
      "trading" := Dict(map["market" := Text("ETH-USD"), "timeframe" := Text("1m"), "volume_factor" := Scalar,
                            "risk_reward_ratio" := Scalar]),
      "risk" := Dict(map["max_position_size" := Scalar, "max_risk_per_trade" := Scalar]),
      "technical" := Dict(map["resistance_period" := Scalar, "volume_lookback" := Scalar]),
      "network" := Dict(map["endpoints" := Dict(map["grpc" := Text("grpc"), "rest" := Text("rest")])])])
  }

  /** The configuration satisfies every entry of the older table. */
  lemma GrpcConfigPassesOlderCheck()
    ensures LegacyUtils.ValidateConfig(GrpcConfig()).Ok?
  {
    var config := GrpcConfig();
    var network := config.fields["network"];
    var endpoints := Entry("endpoints", SubKeys(["grpc", "rest"]));
    assert Has(network.fields["endpoints"], "grpc") && Has(network.fields["endpoints"], "rest");
    assert Holds(network, endpoints);
    assert Satisfies(network, [endpoints]);
    forall i | 0 <= i < |LegacyUtils.Required| ensures Holds(config, LegacyUtils.Required[i]) {
      var e := LegacyUtils.Required[i];
      assert e.key in config.fields;
      if e.need.SubKeys? {
        var value := config.fields[e.key];
        assert forall k :: k in e.need.keys ==> k in value.fields;
      }
    }
  }

  /** The newer check passes the first three sections and stops at the missing ws endpoint. */
  lemma GrpcConfigFailsNewerCheck()
    ensures ValidateConfig(GrpcConfig()) == Err(ValueError(MissingMessage + "network.endpoints.ws"))
  {
    NetworkSectionMissesWs();
    SectionPasses(0);
    SectionPasses(1);
    SectionPasses(2);
  }

  /** Each of the first three sections of the configuration is complete, so the check moves on. */
  lemma SectionPasses(k: nat)
    requires k < 3
    ensures CheckKeys(GrpcConfig(), Required[k..], "") == CheckKeys(GrpcConfig(), Required[k + 1..], "")
  {
    var config := GrpcConfig();
    var e := Required[k];
    assert Required[k..][0] == e && Required[k..][1..] == Required[k + 1..];
    assert e.key in config.fields;
    var value := config.fields[e.key];
    assert forall s :: s in e.need.keys ==> s in value.fields;
    SubKeysCompleteIff(config, e.key, e.need.keys, "");
  }

  /** The network section of the configuration lacks the ws endpoint. */
  lemma NetworkSectionMissesWs()
    ensures CheckKeys(GrpcConfig(), Required[3..], "") == Missing("network.endpoints.ws")
  {
    var config := GrpcConfig();
    var network := config.fields["network"];
    var endpoints := Entry("endpoints", SubKeys(["rest", "ws"]));
    assert CheckSubKeys(network, "endpoints", ["ws"], "network.") == Missing("network.endpoints.ws");
    assert CheckSubKeys(network, "endpoints", ["rest", "ws"], "network.") == Missing("network.endpoints.ws") by {
      assert ["rest", "ws"][1..] == ["ws"];
    }
    assert CheckKeys(network, [endpoints], "network.") == Missing("network.endpoints.ws");
    assert Required[3..] == [Required[3]];
  }

  /**
    The two layers disagree on the endpoints: a configuration with grpc and rest endpoints passes
    the older validator, and the newer one rejects it for the missing network.endpoints.ws.
   */
  lemma EndpointRequirementsDiffer()
    ensures LegacyUtils.ValidateConfig(GrpcConfig()).Ok?
    ensures ValidateConfig(GrpcConfig()) == Err(ValueError(MissingMessage + "network.endpoints.ws"))
  {
    GrpcConfigPassesOlderCheck();
    GrpcConfigFailsNewerCheck();
  }

  /**
    get_env_var: the environment's value for the name when it is set, else the default; raises
    ValueError only when the variable is required and that value is None.
   */
  function GetEnvVar(env: map<string, string>, name: string, default: Option<string>, required: bool)
    : (r: Result<Option<string>>)
    ensures r.Err? <==> required && name !in env && default.None?
    ensures r.Err? ==> r.error == ValueError("Required environment variable not found: " + name)
    ensures r.Ok? && name in env ==> r.value == Some(env[name])
    ensures r.Ok? && name !in env ==> r.value == default
  {
    var value := if name in env then Some(env[name]) else default;
    if required && value.None? then Err(ValueError("Required environment variable not found: " + name))
    else Ok(value)
  }

  /** A default that is not None suppresses the error, required or not, and is what an unset variable yields. */
  lemma DefaultSuppressesError(env: map<string, string>, name: string, default: string, required: bool)
    requires name !in env
    ensures GetEnvVar(env, name, Some(default), required) == Ok(Some(default))
  {
  }
}
