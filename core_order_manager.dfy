/**
  The order manager of src/core/order_manager.py: the order manager of order_manager.py with the
  risk manager's gates in front of every open, the position saved to the data manager when it
  opens, and the closed trade saved and its P&L booked into the daily total when it closes.
  The exchange client's answers (the account replies, one per balance read, the order outcome, the
  latest candle close and the position list) are parameters.
 */
module CoreOrders {
  import opened Wrappers
  import opened Json
  import opened Stats
  import opened Positions
  import opened RiskManagement
  import opened DataStore

  /**
    The potential loss handed to the daily gate, `(entry - stop) * (usd / entry)`: the loss, as a
    positive amount, of the unrounded position if the stop is hit.
   */
  function PotentialLoss(entryPrice: real, stopLoss: real, positionSizeUsd: real): (r: real)
    requires entryPrice != 0.0
    ensures r == -SidePnl("LONG", entryPrice, stopLoss, positionSizeUsd / entryPrice)
    ensures entryPrice > 0.0 && positionSizeUsd > 0.0 ==> (r > 0.0 <==> stopLoss < entryPrice)
  {
    var size := positionSizeUsd / entryPrice;
    assert entryPrice > 0.0 && positionSizeUsd > 0.0 ==> size > 0.0;
    (entryPrice - stopLoss) * size
  }

  /** The OPEN LONG built from a BUY response, as the data manager's stamp leaves it in the shared dictionary. */
  function Opened(market: string, response: OrderResponse, entryPrice: real, stopLoss: real, takeProfit: real, now: int): (p: Position)
    ensures p.side == "LONG" && p.status == "OPEN" && p.market == market && p.entryPrice == entryPrice
    ensures p.size == FilledSize(response) && p.orderId == Some(FilledOrderId(response)) && p.sizeUsd.None?
    ensures p.stopLoss == stopLoss && p.takeProfit == takeProfit && p.openedAt == now && p.timestamp == Some(now)
  {
    OpenLong(market, entryPrice, FilledSize(response), None, stopLoss, takeProfit, Some(FilledOrderId(response)), now)
      .(timestamp := Some(now))
  }

  /**
    save_position adds the timestamp to the very dictionary the manager keeps as its active
    position, so stamping the record of an unstamped position is the record of the stamped one.
   */
  lemma StampIsShared(p: Position, now: int)
    requires p.timestamp.None?
    ensures Stamped(PositionRecord(p), now) == PositionRecord(p.(timestamp := Some(now)))
  {
    var stamped := p.(timestamp := Some(now));
    var fields := PositionFields(p);
    assert "timestamp" !in fields;
    assert PositionFields(stamped) == fields["timestamp" := JTime(now)];
    var before := fields["status" := JStr(p.status)];
    assert PositionRecord(p) == before;
    assert PositionRecord(stamped) == fields["timestamp" := JTime(now)]["status" := JStr(p.status)];
    assert Stamped(before, now) == before["timestamp" := JTime(now)];
  }

  /** A closed trade of a stamped position already carries the stamp, so save_trade stores it as it is. */
  lemma TradeKeepsOpenStamp(c: ClosedPosition, now: int)
    requires c.position.timestamp.Some?
    ensures Stamped(ClosedRecord(c), now) == ClosedRecord(c)
    ensures ClosedRecord(c)["timestamp"] == JTime(c.position.timestamp.value)
  {
    assert "timestamp" in PositionFields(c.position);
  }

  /**
    The daily gate adds the positive potential loss to the day's P&L, so a losing day is judged as
    if the new trade would win: at -450 against a 500 limit, a position whose stop would lose 100
    more passes the gate although a stop-out leaves the day at -550.
   */
  lemma DailyGateCountsLossAsGain(rm: RiskManager)
    requires rm.dailyPnl == -450.0 && rm.maxDailyLossUsd == 500.0
    ensures PotentialLoss(1000.0, 900.0, 1000.0) == 100.0
    ensures rm.ValidateDailyLoss(PotentialLoss(1000.0, 900.0, 1000.0)).ok
    ensures Abs(rm.dailyPnl + SidePnl("LONG", 1000.0, 900.0, 1000.0 / 1000.0)) > rm.maxDailyLossUsd
  {
  }

  /**
    Two simulated opens in the same second get the same order id `sim_<now>`, so the second
    save_position overwrites the first record instead of adding one.
   */
  lemma SameSecondOpensShareRecord(positions: seq<Record>, market: string, first: OrderInfo, second: OrderInfo,
                                   entryPrice: real, stopLoss: real, takeProfit: real, now: int)
    ensures var id := JStr(SimulatedOrderId(now));
      var a := PositionRecord(Opened(market, Simulated(SimulatedOrderId(now), first), entryPrice, stopLoss, takeProfit, now));
      var b := PositionRecord(Opened(market, Simulated(SimulatedOrderId(now), second), entryPrice, stopLoss, takeProfit, now));
      var once := Upsert(positions, a, id);
      var twice := Upsert(once, b, id);
      FirstMatch(once, id) < |once| && |twice| == |once| && twice[FirstMatch(once, id)] == b
  {
    var id := JStr(SimulatedOrderId(now));
    var a := PositionRecord(Opened(market, Simulated(SimulatedOrderId(now), first), entryPrice, stopLoss, takeProfit, now));
    var b := PositionRecord(Opened(market, Simulated(SimulatedOrderId(now), second), entryPrice, stopLoss, takeProfit, now));
    var once := Upsert(positions, a, id);
    assert Lookup(a, "order_id") == id;
    var i := if FirstMatch(positions, id) < |positions| then FirstMatch(positions, id) else |positions|;
    assert once[i] == a;
    assert FirstMatch(once, id) < |once|;
    var twice := Upsert(once, b, id);
    var k := FirstMatch(once, id);
    assert twice[k] == b;
  }

  class OrderManager {
    const market: string
    const positionSizeUsd: real
    const simulationMode: bool
    const riskManager: RiskManager
    const dataManager: DataManager
    var activePosition: Option<Position>

    /** A manager with no position, a risk manager at its defaults, and an empty data store. */
    constructor (market: string, positionSizeUsd: real, simulationMode: bool)
      ensures this.market == market && this.positionSizeUsd == positionSizeUsd
      ensures this.simulationMode == simulationMode && activePosition.None?
      ensures fresh(riskManager) && riskManager.dailyPnl == 0.0 && riskManager.initialBalance == 0.0
      ensures riskManager.maxPositionSizeUsd == 1000.0 && riskManager.maxDrawdownPercent == 10.0
      ensures riskManager.maxDailyLossUsd == 500.0
      ensures fresh(dataManager) && dataManager.trades == [] && dataManager.positions == []
    {
      this.market := market;
      this.positionSizeUsd := positionSizeUsd;
      this.simulationMode := simulationMode;
      activePosition := None;
      riskManager := new RiskManager.Default();
      dataManager := new DataManager();
    }

    /**
      place_market_order: the order dictionary for `usd / price` rounded to four decimals; in
      simulation always FILLED under `sim_<now>`; live the client's reply, or a FAILED dictionary
      carrying the order fields when the client raised or returned nothing. A zero price raises.
     */
    function PlaceMarketOrder(side: string, price: real, live: LiveOutcome, now: int): (r: Result<OrderResponse>)
      ensures r.Err? <==> price == 0.0
      ensures r.Err? ==> r.error == ZeroDivisionError
      ensures r.Ok? && simulationMode ==>
        r.value == Simulated(SimulatedOrderId(now), MarketOrderInfo(market, positionSizeUsd, side, price).value)
      ensures r.Ok? && simulationMode ==>
        (Status(r.value) == Some("FILLED") && FilledSize(r.value) == Round4(positionSizeUsd / price))
      ensures r.Ok? && !simulationMode && live.Raised? ==>
        r.value == FailedOrder(live.message, MarketOrderInfo(market, positionSizeUsd, side, price).value)
      ensures r.Ok? && !simulationMode && live.Returned? && live.reply.Some? ==> r.value == Live(live.reply.value)
      ensures r.Ok? && !simulationMode && live.Returned? && live.reply.None? ==>
        r.value == FailedOrder("Order placement returned None", MarketOrderInfo(market, positionSizeUsd, side, price).value)
    {
      match MarketOrderInfo(market, positionSizeUsd, side, price)
      case Err(e) => Err(e)
      case Ok(info) =>
        if simulationMode then Ok(Simulated(SimulatedOrderId(now), info))
        else match live
          case Raised(message) => Ok(FailedOrder(message, info))
          case Returned(reply) =>
            if reply.Some? then Ok(Live(reply.value)) else Ok(FailedOrder("Order placement returned None", info))
    }

    /** Whether check_circuit_breaker stops, from the baseline it starts with and the replies its drawdown check sees. */
    predicate Trips(initial: real, replies: DrawdownReplies)
      reads riskManager
    {
      Abs(riskManager.dailyPnl) > riskManager.maxDailyLossUsd ||
      !DrawdownCheck(CapturedInitial(initial, AvailableBalance(replies.capture)), AvailableBalance(replies.current),
                     riskManager.maxDrawdownPercent).ok
    }

    /** Whether all three gates of open_long_position pass, from the baseline the circuit breaker starts with. */
    predicate GatesPass(initial: real, replies: DrawdownReplies, account: Option<map<string, real>>,
                        entryPrice: real, stopLoss: real)
      reads riskManager
    {
      !Trips(initial, replies) && riskManager.ValidatePositionSize(positionSizeUsd, account).ok &&
      entryPrice != 0.0 && riskManager.ValidateDailyLoss(PotentialLoss(entryPrice, stopLoss, positionSizeUsd)).ok
    }

    /**
      open_long_position: the circuit breaker, the position-size gate and the daily-loss gate, in
      that order, each answer FAILED before any order is placed; past them a BUY is placed, and
      when it is FILLED or in simulation mode the OPEN LONG fills the slot, replacing any position
      already there, and is saved to the position list; otherwise FAILED. Only the circuit breaker
      touches the risk manager (it may capture the baseline), and only a stored position touches
      the data manager. The circuit breaker's drawdown check reads `replies`, the size gate a
      third reply, `account`.
     */
    method OpenLongPosition(entryPrice: real, stopLoss: real, takeProfit: real, replies: DrawdownReplies,
                            account: Option<map<string, real>>, live: LiveOutcome, now: int)
      returns (r: Result<Response<Position>>)
      modifies this`activePosition, riskManager`initialBalance, dataManager`positions
      ensures riskManager.initialBalance ==
        (if Abs(riskManager.dailyPnl) > riskManager.maxDailyLossUsd then old(riskManager.initialBalance)
         else CapturedInitial(old(riskManager.initialBalance), AvailableBalance(replies.capture)))
      ensures Trips(old(riskManager.initialBalance), replies) ==>
        r == Ok(Failed(CircuitBreaker(
          if Abs(riskManager.dailyPnl) > riskManager.maxDailyLossUsd then CircuitDailyLoss(riskManager.dailyPnl)
          else CircuitDrawdown(DrawdownCheck(riskManager.initialBalance, AvailableBalance(replies.current),
                                             riskManager.maxDrawdownPercent).reason))))
      ensures !Trips(old(riskManager.initialBalance), replies) && !riskManager.ValidatePositionSize(positionSizeUsd, account).ok ==>
        r == Ok(Failed(RiskRejected(riskManager.ValidatePositionSize(positionSizeUsd, account).reason)))
      ensures (!Trips(old(riskManager.initialBalance), replies) && riskManager.ValidatePositionSize(positionSizeUsd, account).ok &&
               entryPrice == 0.0) ==> r == Err(ZeroDivisionError)
      ensures (!Trips(old(riskManager.initialBalance), replies) && riskManager.ValidatePositionSize(positionSizeUsd, account).ok &&
               entryPrice != 0.0 && !riskManager.ValidateDailyLoss(PotentialLoss(entryPrice, stopLoss, positionSizeUsd)).ok) ==>
        r == Ok(Failed(RiskRejected(riskManager.ValidateDailyLoss(PotentialLoss(entryPrice, stopLoss, positionSizeUsd)).reason)))
      ensures GatesPass(old(riskManager.initialBalance), replies, account, entryPrice, stopLoss) ==>
        var placed := PlaceMarketOrder("BUY", entryPrice, live, now);
        placed.Ok? &&
        (Accepted(placed.value, simulationMode) ==>
          var p := Opened(market, placed.value, entryPrice, stopLoss, takeProfit, now);
          r == Ok(Done(p)) && activePosition == Some(p) &&
          dataManager.positions == Upsert(old(dataManager.positions), PositionRecord(p), JStr(FilledOrderId(placed.value)))) &&
        (!Accepted(placed.value, simulationMode) ==> r == Ok(Failed(OrderNotFilled)))
      ensures r.Err? || r.value.Failed? ==>
        activePosition == old(activePosition) && dataManager.positions == old(dataManager.positions)
    {
      var stop, why := riskManager.CheckCircuitBreaker(replies);
      if stop {
        return Ok(Failed(CircuitBreaker(why)));
      }
      var sizeCheck := riskManager.ValidatePositionSize(positionSizeUsd, account);
      if !sizeCheck.ok {
        return Ok(Failed(RiskRejected(sizeCheck.reason)));
      }
      if entryPrice == 0.0 {
        return Err(ZeroDivisionError);
      }
      var lossCheck := riskManager.ValidateDailyLoss(PotentialLoss(entryPrice, stopLoss, positionSizeUsd));
      if !lossCheck.ok {
        return Ok(Failed(RiskRejected(lossCheck.reason)));
      }
      var placed := PlaceMarketOrder("BUY", entryPrice, live, now);
      var response := placed.value;
      if !Accepted(response, simulationMode) {
        return Ok(Failed(OrderNotFilled));
      }
      var position := OpenLong(market, entryPrice, FilledSize(response), None, stopLoss, takeProfit,
                               Some(FilledOrderId(response)), now);
      dataManager.SavePosition(PositionRecord(position), now);
      StampIsShared(position, now);
      position := position.(timestamp := Some(now));
      activePosition := Some(position);
      return Ok(Done(position));
    }

    /** get_current_price: the latest one-minute candle's close, or on failure the entry price of the active position, else 0. */
    function GetCurrentPrice(candleClose: Option<real>): (r: real)
      reads this
      ensures candleClose.Some? ==> r == candleClose.value
      ensures candleClose.None? && activePosition.Some? ==> r == activePosition.value.entryPrice
      ensures candleClose.None? && activePosition.None? ==> r == 0.0
    {
      if candleClose.Some? then candleClose.value
      else if activePosition.Some? then activePosition.value.entryPrice
      else 0.0
    }

    /**
      The answer of close_position for the position `p` priced at `price`, given what placing the
      SELL gave: a raise from the order, FAILED when it is neither FILLED nor simulated, and
      otherwise the closed record with P&L `(exit - entry) * size` for a LONG and its percent of
      the USD amount, which raises when that amount is 0.
     */
    function CloseResult(p: Position, price: real, placed: Result<OrderResponse>, reason: string, now: int)
      : (r: Result<Response<ClosedPosition>>)
      ensures placed.Err? ==> r == Err(placed.error)
      ensures placed.Ok? && !Accepted(placed.value, simulationMode) ==> r == Ok(Failed(OrderNotFilled))
      ensures placed.Ok? && Accepted(placed.value, simulationMode) && positionSizeUsd == 0.0 ==> r == Err(ZeroDivisionError)
      ensures placed.Ok? && Accepted(placed.value, simulationMode) && positionSizeUsd != 0.0 ==>
        r.Ok? && r.value.Done? && r.value.value.position == p.(status := "CLOSED") &&
        r.value.value.exitPrice == price && r.value.value.exitReason == reason &&
        r.value.value.pnl == SidePnl(p.side, p.entryPrice, price, p.size) &&
        r.value.value.pnlPercent * positionSizeUsd == r.value.value.pnl * 100.0 &&
        r.value.value.closedAt == now && r.value.value.duration == now - p.openedAt
    {
      if placed.Err? then Err(placed.error)
      else if !Accepted(placed.value, simulationMode) then Ok(Failed(OrderNotFilled))
      else
        var pnl := SidePnl(p.side, p.entryPrice, price, p.size);
        if positionSizeUsd == 0.0 then Err(ZeroDivisionError)
        else
          var pct := pnl / positionSizeUsd * 100.0;
          assert pct * positionSizeUsd == pnl * 100.0;
          Ok(Done(Close(p, price, reason, pnl, pct, now)))
    }

    /**
      close_position: FAILED without a position, with nothing placed or changed; otherwise a SELL
      at the current price decides the answer, and a closed trade is appended to the trade log,
      its P&L added to the day's total and the slot emptied. Any other answer changes nothing.
     */
    method ClosePosition(reason: string, candleClose: Option<real>, live: LiveOutcome, now: int)
      returns (r: Result<Response<ClosedPosition>>)
      modifies this`activePosition, riskManager`dailyPnl, dataManager`trades
      ensures old(activePosition).None? ==> r == Ok(Failed(NoActivePosition))
      ensures old(activePosition).Some? ==>
        var p := old(activePosition).value;
        var price := if candleClose.Some? then candleClose.value else p.entryPrice;
        r == CloseResult(p, price, PlaceMarketOrder("SELL", price, live, now), reason, now)
      ensures r.Ok? && r.value.Done? ==>
        activePosition.None? && riskManager.dailyPnl == old(riskManager.dailyPnl) + r.value.value.pnl &&
        dataManager.trades == old(dataManager.trades) + [Stamped(ClosedRecord(r.value.value), now)]
      ensures r.Err? || r.value.Failed? ==>
        activePosition == old(activePosition) && riskManager.dailyPnl == old(riskManager.dailyPnl) &&
        dataManager.trades == old(dataManager.trades)
    {
      if activePosition.None? {
        return Ok(Failed(NoActivePosition));
      }
      var p := activePosition.value;
      var price := GetCurrentPrice(candleClose);
      r := CloseResult(p, price, PlaceMarketOrder("SELL", price, live, now), reason, now);
      if r.Ok? && r.value.Done? {
        dataManager.SaveTrade(ClosedRecord(r.value.value), now);
        riskManager.UpdateDailyPnl(r.value.value.pnl);
        activePosition := None;
      }
    }

    /** check_exit_conditions: nothing without a position, else the stop-loss-first test at the current price. */
    function CheckExitConditions(candleClose: Option<real>): (r: Option<string>)
      reads this
      ensures activePosition.None? || activePosition.value.side != "LONG" ==> r.None?
      ensures activePosition.Some? && activePosition.value.side == "LONG" ==>
        (r == Some("stop_loss") <==> GetCurrentPrice(candleClose) <= activePosition.value.stopLoss)
      ensures activePosition.Some? && activePosition.value.side == "LONG" ==>
        (r == Some("take_profit") <==>
          activePosition.value.stopLoss < GetCurrentPrice(candleClose) && activePosition.value.takeProfit <= GetCurrentPrice(candleClose))
      ensures (activePosition.Some? && activePosition.value.side == "LONG" &&
               activePosition.value.stopLoss < GetCurrentPrice(candleClose) < activePosition.value.takeProfit) ==> r.None?
    {
      if activePosition.None? then None else ExitCondition(activePosition, GetCurrentPrice(candleClose))
    }

    /** get_positions: in simulation the slot as a list; live the reply's `positions`, or none when the call fails. */
    function GetPositions(live: Option<seq<Position>>): (r: seq<Position>)
      reads this
      ensures simulationMode ==> r == (if activePosition.Some? then [activePosition.value] else [])
      ensures !simulationMode ==> r == (if live.Some? then live.value else [])
    {
      if simulationMode then (if activePosition.Some? then [activePosition.value] else [])
      else if live.Some? then live.value else []
    }
  }

  /**
    A full simulated round trip through the gates: once the gates pass, the open fills the slot
    and the close empties it, books exactly the trade's P&L and logs one trade that carries the
    open-time stamp.
   */
  method SimulatedRoundTrip(m: OrderManager, entryPrice: real, stopLoss: real, takeProfit: real,
                            replies: DrawdownReplies, account: Option<map<string, real>>, exitPrice: real,
                            openedAt: int, closedAt: int)
    returns (trade: ClosedPosition)
    requires m.simulationMode && m.positionSizeUsd != 0.0 && exitPrice != 0.0
    requires m.GatesPass(m.riskManager.initialBalance, replies, account, entryPrice, stopLoss)
    modifies m, m.riskManager, m.dataManager
    ensures m.activePosition.None?
    ensures m.dataManager.trades == old(m.dataManager.trades) + [ClosedRecord(trade)]
    ensures m.riskManager.dailyPnl == old(m.riskManager.dailyPnl) + trade.pnl
    ensures trade.position.timestamp == Some(openedAt) && trade.position.entryPrice == entryPrice && trade.exitPrice == exitPrice
    ensures trade.pnl == (exitPrice - entryPrice) * Round4(m.positionSizeUsd / entryPrice)
  {
    var bought := m.PlaceMarketOrder("BUY", entryPrice, Returned(None), openedAt);
    assert bought.Ok? && Accepted(bought.value, true);
    var o := m.OpenLongPosition(entryPrice, stopLoss, takeProfit, replies, account, Returned(None), openedAt);
    var p := Opened(m.market, bought.value, entryPrice, stopLoss, takeProfit, openedAt);
    assert m.activePosition == Some(p);
    assert p.size == Round4(m.positionSizeUsd / entryPrice);
    var sold := m.PlaceMarketOrder("SELL", exitPrice, Returned(None), closedAt);
    assert sold.Ok? && Accepted(sold.value, true);
    var c := m.ClosePosition("take_profit", Some(exitPrice), Returned(None), closedAt);
    assert c == m.CloseResult(p, exitPrice, sold, "take_profit", closedAt);
    trade := c.value.value;
    TradeKeepsOpenStamp(trade, closedAt);
  }
}
