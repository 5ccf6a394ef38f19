/**
  The order manager of order_manager.py: market orders sized from a fixed USD amount, and one
  `active_position` slot opened by a BUY and closed by a SELL, with no risk gates. The exchange
  client's answers (the order outcome, the ticker price, the position list) are parameters.
 */
module OrderManagement {
  import opened Wrappers
  import opened Positions

  /** What place_market_order hands back: a dictionary, or the client's None passed through. */
  datatype Placed = Placed(response: OrderResponse) | NoneReturned

  class OrderManager {
    const market: string
    const positionSizeUsd: real
    const simulationMode: bool
    var activePosition: Option<Position>

    constructor (market: string, positionSizeUsd: real, simulationMode: bool)
      ensures this.market == market && this.positionSizeUsd == positionSizeUsd
      ensures this.simulationMode == simulationMode && activePosition.None?
    {
      this.market := market;
      this.positionSizeUsd := positionSizeUsd;
      this.simulationMode := simulationMode;
      activePosition := None;
    }

    /**
      place_market_order: the order dictionary for `usd / price` rounded to four decimals; in
      simulation mode always FILLED under the id `sim_<now>`, live the client's reply, or a FAILED
      dictionary carrying the order fields when the client raised. A zero price raises.
     */
    function PlaceMarketOrder(side: string, price: real, live: LiveOutcome, now: int): (r: Result<Placed>)
      ensures r.Err? <==> price == 0.0
      ensures r.Err? ==> r.error == ZeroDivisionError
      ensures r.Ok? && simulationMode ==>
        r.value == Placed(Simulated(SimulatedOrderId(now), MarketOrderInfo(market, positionSizeUsd, side, price).value))
      ensures r.Ok? && simulationMode ==>
        (Status(r.value.response) == Some("FILLED") && FilledSize(r.value.response) == Round4(positionSizeUsd / price))
      ensures r.Ok? && !simulationMode && live.Raised? ==>
        r.value == Placed(FailedOrder(live.message, MarketOrderInfo(market, positionSizeUsd, side, price).value))
      ensures r.Ok? && !simulationMode && live.Returned? && live.reply.Some? ==> r.value == Placed(Live(live.reply.value))
      ensures r.Ok? && !simulationMode && live.Returned? && live.reply.None? ==> r.value == NoneReturned
    {
      match MarketOrderInfo(market, positionSizeUsd, side, price)
      case Err(e) => Err(e)
      case Ok(info) =>
        if simulationMode then Ok(Placed(Simulated(SimulatedOrderId(now), info)))
        else match live
          case Raised(message) => Ok(Placed(FailedOrder(message, info)))
          case Returned(reply) => if reply.Some? then Ok(Placed(Live(reply.value))) else Ok(NoneReturned)
    }

    /** get_current_price: the ticker's price, or on failure the entry price of the active position, else 0. */
    function GetCurrentPrice(ticker: Option<real>): (r: real)
      reads this
      ensures ticker.Some? ==> r == ticker.value
      ensures ticker.None? && activePosition.Some? ==> r == activePosition.value.entryPrice
      ensures ticker.None? && activePosition.None? ==> r == 0.0
    {
      if ticker.Some? then ticker.value
      else if activePosition.Some? then activePosition.value.entryPrice
      else 0.0
    }

    /**
      open_long_position: a BUY at the entry price; when it is FILLED or in simulation mode an
      OPEN LONG with the order's size and id fills the slot, whatever was there before; otherwise
      FAILED and the slot is kept. `.get` on a None reply raises.
     */
    method OpenLongPosition(entryPrice: real, stopLoss: real, takeProfit: real, live: LiveOutcome, now: int)
      returns (r: Result<Response<Position>>)
      modifies this`activePosition
      ensures var placed := PlaceMarketOrder("BUY", entryPrice, live, now);
        (placed.Err? ==> r == Err(placed.error)) &&
        (placed.Ok? && placed.value.NoneReturned? ==> r == Err(AttributeError)) &&
        (placed.Ok? && placed.value.Placed? && Accepted(placed.value.response, simulationMode) ==>
          r == Ok(Done(OpenLong(market, entryPrice, FilledSize(placed.value.response), None, stopLoss, takeProfit,
                                Some(FilledOrderId(placed.value.response)), now))) &&
          activePosition == Some(r.value.value)) &&
        (placed.Ok? && placed.value.Placed? && !Accepted(placed.value.response, simulationMode) ==>
          r == Ok(Failed(OrderNotFilled)))
      ensures r.Err? || r.value.Failed? ==> activePosition == old(activePosition)
    {
      var placed := PlaceMarketOrder("BUY", entryPrice, live, now);
      if placed.Err? {
        return Err(placed.error);
      }
      if placed.value.NoneReturned? {
        return Err(AttributeError);
      }
      var response := placed.value.response;
      if Accepted(response, simulationMode) {
        var position := OpenLong(market, entryPrice, FilledSize(response), None, stopLoss, takeProfit,
                                 Some(FilledOrderId(response)), now);
        activePosition := Some(position);
        return Ok(Done(position));
      }
      return Ok(Failed(OrderNotFilled));
    }

    /**
      close_position: FAILED without a position; otherwise a SELL at the current price, and when it
      is FILLED or in simulation mode the closed record, with P&L `(exit - entry) * size` for a LONG
      and its percent of the USD amount, after which the slot is empty; an unfilled order keeps it.
     */
    method ClosePosition(reason: string, ticker: Option<real>, live: LiveOutcome, now: int)
      returns (r: Result<Response<ClosedPosition>>)
      modifies this`activePosition
      ensures old(activePosition).None? ==> r == Ok(Failed(NoActivePosition)) && activePosition.None?
      ensures old(activePosition).Some? ==>
        var p := old(activePosition).value;
        var price := if ticker.Some? then ticker.value else p.entryPrice;
        var placed := PlaceMarketOrder("SELL", price, live, now);
        var pnl := SidePnl(p.side, p.entryPrice, price, p.size);
        (placed.Err? ==> r == Err(placed.error)) &&
        (placed.Ok? && placed.value.NoneReturned? ==> r == Err(AttributeError)) &&
        (placed.Ok? && placed.value.Placed? && Accepted(placed.value.response, simulationMode) && positionSizeUsd == 0.0 ==>
          r == Err(ZeroDivisionError)) &&
        (placed.Ok? && placed.value.Placed? && Accepted(placed.value.response, simulationMode) && positionSizeUsd != 0.0 ==>
          r == Ok(Done(Close(p, price, reason, pnl, pnl / positionSizeUsd * 100.0, now))) && activePosition.None?) &&
        (placed.Ok? && placed.value.Placed? && !Accepted(placed.value.response, simulationMode) ==>
          r == Ok(Failed(OrderNotFilled)))
      ensures r.Err? || r.value.Failed? ==> activePosition == old(activePosition)
    {
      if activePosition.None? {
        return Ok(Failed(NoActivePosition));
      }
      var p := activePosition.value;
      var price := GetCurrentPrice(ticker);
      var placed := PlaceMarketOrder("SELL", price, live, now);
      if placed.Err? {
        return Err(placed.error);
      }
      if placed.value.NoneReturned? {
        return Err(AttributeError);
      }
      if !Accepted(placed.value.response, simulationMode) {
        return Ok(Failed(OrderNotFilled));
      }
      var pnl := SidePnl(p.side, p.entryPrice, price, p.size);
      if positionSizeUsd == 0.0 {
        return Err(ZeroDivisionError);
      }
      activePosition := None;
      return Ok(Done(Close(p, price, reason, pnl, pnl / positionSizeUsd * 100.0, now)));
    }

    /** check_exit_conditions: nothing without a position, else the stop-loss-first test at the current price. */
    function CheckExitConditions(ticker: Option<real>): (r: Option<string>)
      reads this
      ensures activePosition.None? || activePosition.value.side != "LONG" ==> r.None?
      ensures activePosition.Some? && activePosition.value.side == "LONG" ==>
        (r == Some("stop_loss") <==> GetCurrentPrice(ticker) <= activePosition.value.stopLoss)
      ensures activePosition.Some? && activePosition.value.side == "LONG" ==>
        (r == Some("take_profit") <==>
          activePosition.value.stopLoss < GetCurrentPrice(ticker) && activePosition.value.takeProfit <= GetCurrentPrice(ticker))
      ensures (activePosition.Some? && activePosition.value.side == "LONG" &&
               activePosition.value.stopLoss < GetCurrentPrice(ticker) < activePosition.value.takeProfit) ==> r.None?
    {
      if activePosition.None? then None else ExitCondition(activePosition, GetCurrentPrice(ticker))
    }

    /** get_positions: in simulation the slot as a list; live the client's list, or none when it raised. */
    function GetPositions(live: Option<seq<Position>>): (r: seq<Position>)
      reads this
      ensures simulationMode ==> r == (if activePosition.Some? then [activePosition.value] else [])
      ensures !simulationMode ==> r == (if live.Some? then live.value else [])
    {
      if simulationMode then (if activePosition.Some? then [activePosition.value] else [])
      else if live.Some? then live.value else []
    }
  }

  /**
    When the ticker cannot be read the position is priced at its own entry, so a LONG whose entry
    lies strictly between its stop loss and take profit never exits on a failed price read.
   */
  lemma NoExitWhenTickerFails(m: OrderManager)
    requires m.activePosition.Some? && m.activePosition.value.side == "LONG"
    requires m.activePosition.value.stopLoss < m.activePosition.value.entryPrice < m.activePosition.value.takeProfit
    ensures m.CheckExitConditions(None).None?
  {
    assert m.GetCurrentPrice(None) == m.activePosition.value.entryPrice;
  }

  /** In simulation mode a BUY is always filled at the rounded size, so an open at a non-zero price always succeeds. */
  lemma SimulatedOpenAlwaysFills(m: OrderManager, entryPrice: real, live: LiveOutcome, now: int)
    requires m.simulationMode && entryPrice != 0.0
    ensures m.PlaceMarketOrder("BUY", entryPrice, live, now).Ok?
    ensures Accepted(m.PlaceMarketOrder("BUY", entryPrice, live, now).value.response, true)
    ensures FilledSize(m.PlaceMarketOrder("BUY", entryPrice, live, now).value.response) == Round4(m.positionSizeUsd / entryPrice)
  {
  }
}
