/**
  The order execution of the older Portuguese layer (src/execution.py): the order payload is
  built from the configured market, MARKET without a price and LIMIT with one; the client's
  answer is passed through, and an empty answer or a raised exception becomes an error
  dictionary instead of propagating. The stop loss mirrors the entry across the resistance and
  the take profit sits at the risk-reward multiple of the distance above the entry.
 */
module LegacyExecution {
  import opened Json
  import opened Wrappers
  import Stats

  /** The configuration the class reads: `trading.market` and `trading.risk_reward_ratio`. */
  datatype Execution = Execution(market: string, riskRewardRatio: real)

  /** What `api_client.place_order` did: raised with a message, or returned a dictionary or None. */
  datatype PlaceOutcome = PlaceRaised(message: string) | PlaceReturned(response: Option<Record>)

  /** The payload for an order: the four base fields, and the price only for a limit order. */
  function Payload(ex: Execution, side: string, size: real, price: Option<real>): (d: Record)
  {
    var base := map["market" := JStr(ex.market), "side" := JStr(side), "size" := JNum(size),
                     "type" := JStr(if price.None? then "MARKET" else "LIMIT")];
    if price.Some? then base["price" := JNum(price.value)] else base
  }

  /**
    The payload names the configured market, the side and the size as a number; its type is
    MARKET exactly when there is no price, and the price key is present exactly when there is one.
   */
  lemma PayloadFields(ex: Execution, side: string, size: real, price: Option<real>)
    ensures var d := Payload(ex, side, size, price);
      {"market", "side", "size", "type"} <= d.Keys <= {"market", "side", "size", "type", "price"} &&
      d["market"] == JStr(ex.market) && d["side"] == JStr(side) && d["size"] == JNum(size)
    ensures Payload(ex, side, size, price)["type"] == JStr("MARKET") <==> price.None?
    ensures Payload(ex, side, size, price)["type"] == JStr("LIMIT") <==> price.Some?
    ensures "price" in Payload(ex, side, size, price) <==> price.Some?
    ensures price.Some? ==> Payload(ex, side, size, price)["price"] == JNum(price.value)
  {
    assert "price" !in {"market", "side", "size", "type"};
  }

  /** An error dictionary `{"status": "erro", "detalhe": detail}`. */
  function ErrorReply(detail: string): (d: Record)
    ensures d.Keys == {"status", "detalhe"} && d["status"] == JStr("erro") && d["detalhe"] == JStr(detail)
  {
    map["status" := JStr("erro"), "detalhe" := JStr(detail)]
  }

  /**
    The answer of send_order: a truthy response as it came; None or an empty dictionary as the
    "resposta vazia" error; a raised exception as an error carrying its message.
   */
  function Answer(live: PlaceOutcome): (d: Record)
    ensures live.PlaceReturned? && live.response.Some? && |live.response.value| > 0 ==> d == live.response.value
    ensures live.PlaceReturned? && (live.response.None? || |live.response.value| == 0) ==> d == ErrorReply("resposta vazia")
    ensures live.PlaceRaised? ==> d == ErrorReply(live.message)
  {
    match live
    case PlaceRaised(message) => ErrorReply(message)
    case PlaceReturned(response) =>
      if response.Some? && |response.value| > 0 then response.value else ErrorReply("resposta vazia")
  }

  /**
    send_order: builds the payload field by field and hands it to the client; what the client
    did is `live`. Returns the payload that was sent and the answer, which is never an exception.
   */
  method SendOrder(ex: Execution, side: string, size: real, price: Option<real>, live: PlaceOutcome)
    returns (sent: Record, answer: Record)
    ensures sent == Payload(ex, side, size, price)
    ensures answer == Answer(live)
  {
    sent := map["market" := JStr(ex.market), "side" := JStr(side), "size" := JNum(size),
                "type" := JStr(if price.None? then "MARKET" else "LIMIT")];
    if price.Some? {
      sent := sent["price" := JNum(price.value)];
    }
    match live {
      case PlaceRaised(message) =>
        answer := ErrorReply(message);
      case PlaceReturned(response) =>
        if response.Some? && |response.value| > 0 {
          answer := response.value;
        } else {
          answer := ErrorReply("resposta vazia");
        }
    }
  }

  /** Whatever the client did, the answer is its own non-empty reply or an error dictionary. */
  lemma AnswerIsReplyOrError(live: PlaceOutcome)
    ensures var d := Answer(live);
      (live.PlaceReturned? && live.response == Some(d) && |d| > 0) ||
      (d["status"] == JStr("erro") && "detalhe" in d)
  {
  }

  /** The stop loss and take profit of calcular_sl_tp. */
  datatype Targets = Targets(sl: real, tp: real)

  /** calcular_sl_tp: the risk is `entry - resistance`; sl = resistance - risk; tp = entry + |risk| * rr. */
  function CalcularSlTp(ex: Execution, entry: real, resistance: real): (t: Targets)
    ensures t.sl == 2.0 * resistance - entry
    ensures t.tp - entry == Stats.Abs(entry - resistance) * ex.riskRewardRatio
  {
    var risk := entry - resistance;
    Targets(resistance - risk, entry + Stats.Abs(risk) * ex.riskRewardRatio)
  }

  /** The stop lies as far from the resistance as the entry, on the other side of it. */
  lemma StopMirrorsEntry(ex: Execution, entry: real, resistance: real)
    ensures CalcularSlTp(ex, entry, resistance).sl - resistance == resistance - entry
  {
  }

  /** A non-negative risk-reward ratio puts the take profit at or above the entry, whichever side of the resistance the entry is on. */
  lemma TakeProfitNotBelowEntry(ex: Execution, entry: real, resistance: real)
    requires ex.riskRewardRatio >= 0.0
    ensures CalcularSlTp(ex, entry, resistance).tp >= entry
  {
    var t := CalcularSlTp(ex, entry, resistance);
    assert t.tp - entry == Stats.Abs(entry - resistance) * ex.riskRewardRatio;
    assert Stats.Abs(entry - resistance) >= 0.0;
  }

  /** Above the resistance the levels are ordered stop < resistance < entry, and with a positive ratio the take profit is above the entry. */
  lemma BreakoutLevelsOrdered(ex: Execution, entry: real, resistance: real)
    requires entry > resistance
    ensures CalcularSlTp(ex, entry, resistance).sl < resistance < entry
    ensures ex.riskRewardRatio > 0.0 ==> CalcularSlTp(ex, entry, resistance).tp > entry
  {
    var t := CalcularSlTp(ex, entry, resistance);
    assert Stats.Abs(entry - resistance) == entry - resistance;
    assert t.tp - entry == (entry - resistance) * ex.riskRewardRatio;
  }
}
