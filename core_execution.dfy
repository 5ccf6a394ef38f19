/**
  The execution service of src/core/execution.py: orders are built through the order model and,
  in simulation mode, answered locally; a position is closed by a reduce-only market order on the
  opposite side; exit levels sit 2% from the entry with the take profit at the risk-reward
  multiple. The REST client's answers (position, order reply) are parameters and the service's
  configuration is a value.
 */
module CoreExecution {
  import opened Wrappers
  import opened Json
  import opened Orders
  import DataStore
  import Stats

  /** The configuration the service reads: `trading.market`, `trading.risk_reward_ratio`, `execution.simulation_mode`. */
  datatype Service = Service(market: string, riskRewardRatio: real, simulationMode: bool)

  /** What the REST client did with a live order: raised with a message, or returned a reply (empty when falsy). */
  datatype SendOutcome = SendRaised(message: string) | SendReturned(reply: Record)

  /** The dictionaries the service answers with. */
  datatype Reply =
      /** `{"status": "success", "order": order.to_dict(), "simulation": True, "timestamp": now}` */
    | Success(order: Record, timestamp: int)
      /** The exchange's own reply, passed through. */
    | Passed(response: Record)
      /** `{"status": "error", "message": message}` */
    | Error(message: string)
      /** `{"status": "info", "message": "No position to close"}` */
    | NothingToClose
      /** `{"status": "error", "message": "Error closing position: ..."}` for a size that does not convert. */
    | CloseError

  /** The order type send_order uses: the given one, else MARKET without a price and LIMIT with one. */
  function ChooseType(price: Option<real>, orderType: Option<string>): (t: string)
    ensures orderType.Some? ==> t == orderType.value
    ensures orderType.None? ==> (t == "MARKET" <==> price.None?) && (t == "LIMIT" <==> price.Some?)
  {
    if orderType.Some? then orderType.value else if price.None? then "MARKET" else "LIMIT"
  }

  /**
    send_order: the order is built (and so validated) first, so an invalid side or type raises out
    of the call; in simulation mode it is answered as a success carrying its dictionary and no
    order is sent; live, the reply is passed through, and an empty reply or a raise becomes an
    error answer. The order is always placed on the configured market.
   */
  function SendOrder(svc: Service, side: string, size: real, price: Option<real>, orderType: Option<string>,
                     reduceOnly: bool, freshId: string, live: SendOutcome, now: int): (r: Result<Reply>)
    ensures var order := NewOrder(svc.market, side, size, ChooseType(price, orderType), price, None,
                                  DefaultTimeInForce, None, None, false, reduceOnly, freshId);
      (r.Err? <==> order.Err?) && (r.Err? ==> r.error == order.error) &&
      (r.Ok? && svc.simulationMode ==> r.value == Success(OrderDict(order.value), now))
    ensures r.Ok? && !svc.simulationMode && live.SendRaised? ==> r.value == Error("Error sending order: " + live.message)
    ensures r.Ok? && !svc.simulationMode && live.SendReturned? && |live.reply| == 0 ==>
      r.value == Error("Failed to send order: Empty response")
    ensures r.Ok? && !svc.simulationMode && live.SendReturned? && |live.reply| > 0 ==> r.value == Passed(live.reply)
  {
    var order := NewOrder(svc.market, side, size, ChooseType(price, orderType), price, None,
                          DefaultTimeInForce, None, None, false, reduceOnly, freshId);
    if order.Err? then Err(order.error)
    else if svc.simulationMode then Ok(Success(OrderDict(order.value), now))
    else match live
      case SendRaised(message) => Ok(Error("Error sending order: " + message))
      case SendReturned(reply) =>
        if |reply| == 0 then Ok(Error("Failed to send order: Empty response")) else Ok(Passed(reply))
  }

  /** `float(position.get('size', 0))`: a missing size is 0; text that is not a number, a timestamp or null does not convert. */
  function PositionSize(position: Record): (s: Option<real>)
    ensures "size" !in position ==> s == Some(0.0)
    ensures "size" in position && (position["size"].JNum? || position["size"].JNumText?) ==> s == Some(position["size"].r)
    ensures "size" in position && position["size"].JInt? ==> s == Some(position["size"].i as real)
    ensures "size" in position && (position["size"].JStr? || position["size"].JTime? || position["size"].JNull?) ==> s.None?
  {
    match DataStore.Lookup(position, "size")
    case JNum(r) => Some(r)
    case JNumText(r) => Some(r)
    case JInt(i) => Some(i as real)
    case JBool(b) => Some(if b then 1.0 else 0.0)
    case JStr(_) => None
    case JTime(_) => None
    case JNull => if "size" in position then None else Some(0.0)
  }

  /** The side that closes a position: sell for a long, buy for anything else. */
  function ClosingSide(position: Record): (side: string)
    ensures DataStore.Lookup(position, "side") == JStr("long") ==> side == "sell"
    ensures DataStore.Lookup(position, "side") != JStr("long") ==> side == "buy"
  {
    if DataStore.Lookup(position, "side") == JStr("long") then "sell" else "buy"
  }

  /**
    close_position on the position read for the market (None when the read failed or found
    nothing): nothing to close without a position or with a zero size; otherwise a reduce-only
    MARKET order of the absolute size on the closing side. Building that order cannot fail.
   */
  function ClosePosition(svc: Service, position: Option<Record>, freshId: string, live: SendOutcome, now: int): (r: Reply)
    ensures position.None? || |position.value| == 0 ==> r == NothingToClose
    ensures position.Some? && |position.value| > 0 && PositionSize(position.value).None? ==> r == CloseError
    ensures position.Some? && |position.value| > 0 && PositionSize(position.value) == Some(0.0) ==> r == NothingToClose
    ensures position.Some? && |position.value| > 0 && PositionSize(position.value).Some? &&
            PositionSize(position.value) != Some(0.0) ==>
      var sent := SendOrder(svc, ClosingSide(position.value), Stats.Abs(PositionSize(position.value).value), None, Some("MARKET"),
                            true, freshId, live, now);
      sent.Ok? && r == sent.value
  {
    if position.None? || |position.value| == 0 then NothingToClose
    else match PositionSize(position.value)
      case None => CloseError
      case Some(size) =>
        if size == 0.0 then NothingToClose
        else
          var sent := SendOrder(svc, ClosingSide(position.value), Stats.Abs(size), None, Some("MARKET"), true, freshId, live, now);
          if sent.Ok? then sent.value else CloseError
  }

  /** get_all_positions: the client's list, or none when it is empty, missing or the call raised. */
  function GetAllPositions(positions: Option<seq<Record>>): (r: seq<Record>)
    ensures positions.Some? ==> r == positions.value
    ensures positions.None? ==> r == []
  {
    if positions.Some? then positions.value else []
  }

  /** The dictionary of calculate_exit_levels. */
  datatype ExitLevels = ExitLevels(stopLoss: real, takeProfit: real, riskRewardRatio: real)

  /**
    calculate_exit_levels: for a buy the stop is 2% below the entry and the take profit the
    risk-reward multiple of that risk above it; for any other side both mirror above and below.
   */
  function CalculateExitLevels(svc: Service, entryPrice: real, side: string): (r: ExitLevels)
    ensures r.riskRewardRatio == svc.riskRewardRatio
    ensures side == "buy" ==>
      (r.stopLoss == entryPrice * 0.98 && r.takeProfit - entryPrice == svc.riskRewardRatio * (entryPrice - r.stopLoss))
    ensures side != "buy" ==>
      (r.stopLoss == entryPrice * 1.02 && entryPrice - r.takeProfit == svc.riskRewardRatio * (r.stopLoss - entryPrice))
  {
    if side == "buy" then
      var stop := entryPrice * 0.98;
      ExitLevels(stop, entryPrice + (entryPrice - stop) * svc.riskRewardRatio, svc.riskRewardRatio)
    else
      var stop := entryPrice * 1.02;
      ExitLevels(stop, entryPrice - (stop - entryPrice) * svc.riskRewardRatio, svc.riskRewardRatio)
  }

  /** For a positive entry and ratio a buy's levels bracket the entry from below and above, and a sell's the other way round. */
  lemma ExitLevelsBracketEntry(svc: Service, entryPrice: real)
    requires entryPrice > 0.0 && svc.riskRewardRatio > 0.0
    ensures var b := CalculateExitLevels(svc, entryPrice, "buy"); b.stopLoss < entryPrice < b.takeProfit
    ensures var s := CalculateExitLevels(svc, entryPrice, "sell"); s.takeProfit < entryPrice < s.stopLoss
  {
    var b := CalculateExitLevels(svc, entryPrice, "buy");
    assert entryPrice - b.stopLoss == entryPrice * 0.02;
    var s := CalculateExitLevels(svc, entryPrice, "sell");
    assert s.stopLoss - entryPrice == entryPrice * 0.02;
  }

  /** At entry 1000 and ratio 3: stop 980 and take profit 1060 for a buy, stop 1020 and take profit 940 for a sell. */
  lemma ExitLevelsExample(svc: Service)
    requires svc.riskRewardRatio == 3.0
    ensures CalculateExitLevels(svc, 1000.0, "buy") == ExitLevels(980.0, 1060.0, 3.0)
    ensures CalculateExitLevels(svc, 1000.0, "sell") == ExitLevels(1020.0, 940.0, 3.0)
  {
  }

  /** A simulated send never reaches the client: whatever the client would do, the answer is the same success. */
  lemma SimulationIgnoresClient(svc: Service, side: string, size: real, price: Option<real>, orderType: Option<string>,
                                reduceOnly: bool, freshId: string, a: SendOutcome, b: SendOutcome, now: int)
    requires svc.simulationMode
    ensures SendOrder(svc, side, size, price, orderType, reduceOnly, freshId, a, now) ==
            SendOrder(svc, side, size, price, orderType, reduceOnly, freshId, b, now)
  {
  }

  /** An invalid side raises out of send_order even in simulation mode, because the order is built before the branch. */
  lemma InvalidSideRaises(svc: Service, size: real, price: Option<real>, freshId: string, live: SendOutcome, now: int)
    ensures SendOrder(svc, "long", size, price, None, false, freshId, live, now) ==
            Err(ValueError("Invalid side: " + "long" + ". Must be 'buy' or 'sell'."))
  {
    assert !ValidSide("long");
  }

  /**
    Closing a long of size 0.1 in simulation sends a reduce-only sell MARKET order whose dictionary
    has the key `reduceOnly` with True, no key `reduce_only`, and the size as a string rather than
    the float 0.1.
   */
  lemma SimulatedCloseOfLong(svc: Service, freshId: string, live: SendOutcome, now: int)
    requires svc.simulationMode
    ensures var r := ClosePosition(svc, Some(map["side" := JStr("long"), "size" := JNumText(0.1)]), freshId, live, now);
      r.Success? && r.order["side"] == JStr("sell") && r.order["type"] == JStr("MARKET") &&
      r.order["reduceOnly"] == JBool(true) && "reduce_only" !in r.order &&
      r.order["size"] == JNumText(0.1) && r.order["size"] != JNum(0.1)
  {
    var position := map["side" := JStr("long"), "size" := JNumText(0.1)];
    assert PositionSize(position) == Some(0.1);
    var order := MarketSellReduceOnly(svc.market, freshId);
    OrderDictFields(order);
  }

  /** The reduce-only market sell of size 0.1 that closes the long above. */
  function MarketSellReduceOnly(market: string, freshId: string): (o: Order)
    ensures NewOrder(market, "sell", 0.1, "MARKET", None, None, DefaultTimeInForce, None, None, false, true, freshId) == Ok(o)
  {
    NewOrder(market, "sell", 0.1, "MARKET", None, None, DefaultTimeInForce, None, None, false, true, freshId).value
  }

  /** The order that closes a position is placed on the configured market, whatever market the position was read for. */
  lemma CloseUsesConfiguredMarket(svc: Service, position: Record, freshId: string, now: int)
    requires svc.simulationMode && |position| > 0 && PositionSize(position).Some? && PositionSize(position) != Some(0.0)
    ensures var r := ClosePosition(svc, Some(position), freshId, SendReturned(map[]), now);
      r.Success? && "market" in r.order && r.order["market"] == JStr(svc.market)
  {
    var order := NewOrder(svc.market, ClosingSide(position), Stats.Abs(PositionSize(position).value), "MARKET", None, None,
                          DefaultTimeInForce, None, None, false, true, freshId).value;
    OrderDictFields(order);
  }
}
