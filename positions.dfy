/**
  The position records and rules shared by the three position managers (position_manager.py,
  order_manager.py and src/core/order_manager.py): the position dictionary, its closed form, the
  stop-loss-first exit test, the side-dependent P&L, the market-order dictionaries and the
  four-decimal rounding of order sizes.
 */
module Positions {
  import opened Wrappers
  import opened Json
  import Numerals
  import RiskManagement

  /**
    The position dictionary. `sizeUsd` is present only in position_manager.py, `orderId` only in
    the order managers, and `timestamp` only once the data manager has stamped the dictionary.
   */
  datatype Position = Position(
    market: string,
    side: string,
    entryPrice: real,
    size: real,
    sizeUsd: Option<real>,
    stopLoss: real,
    takeProfit: real,
    status: string,
    orderId: Option<string>,
    openedAt: int,
    timestamp: Option<int>)

  /** The closed dictionary `{**position, "status": "CLOSED", ...}`. */
  datatype ClosedPosition = ClosedPosition(
    position: Position,
    exitPrice: real,
    exitReason: string,
    pnl: real,
    pnlPercent: real,
    closedAt: int,
    duration: int)

  /** Why a manager answered `{"status": "FAILED", "error": ...}`. */
  datatype Failure =
    | NoActivePosition
    | OrderNotFilled
    | CircuitBreaker(reason: RiskManagement.Reason)
    | RiskRejected(reason: RiskManagement.Reason)

  /** A manager's answer: the record it produced, or a FAILED dictionary. */
  datatype Response<T> = Done(value: T) | Failed(error: Failure)

  /** A fresh OPEN LONG position as the managers build it. */
  function OpenLong(market: string, entryPrice: real, size: real, sizeUsd: Option<real>, stopLoss: real,
                    takeProfit: real, orderId: Option<string>, now: int): (p: Position)
    ensures p.side == "LONG" && p.status == "OPEN" && p.timestamp.None?
    ensures p.market == market && p.entryPrice == entryPrice && p.size == size && p.sizeUsd == sizeUsd
    ensures p.stopLoss == stopLoss && p.takeProfit == takeProfit && p.orderId == orderId && p.openedAt == now
  {
    Position(market, "LONG", entryPrice, size, sizeUsd, stopLoss, takeProfit, "OPEN", orderId, now, None)
  }

  /** The closed record: every field of the position kept, the status set to CLOSED, and the exit figures added. */
  function Close(p: Position, exitPrice: real, reason: string, pnl: real, pnlPercent: real, now: int): (c: ClosedPosition)
    ensures c.position == p.(status := "CLOSED")
    ensures c.exitPrice == exitPrice && c.exitReason == reason && c.pnl == pnl && c.pnlPercent == pnlPercent
    ensures c.closedAt == now && c.duration == now - p.openedAt
  {
    ClosedPosition(p.(status := "CLOSED"), exitPrice, reason, pnl, pnlPercent, now, now - p.openedAt)
  }

  /**
    check_exit_conditions: nothing without a position; for a LONG, "stop_loss" when the price is at
    or below the stop (checked first, so it wins ties), else "take_profit" at or above the target;
    a position on any other side never exits.
   */
  function ExitCondition(active: Option<Position>, currentPrice: real): (r: Option<string>)
    ensures active.None? || active.value.side != "LONG" ==> r.None?
    ensures active.Some? && active.value.side == "LONG" ==>
      (r == Some("stop_loss") <==> currentPrice <= active.value.stopLoss)
    ensures active.Some? && active.value.side == "LONG" ==>
      (r == Some("take_profit") <==> active.value.stopLoss < currentPrice && active.value.takeProfit <= currentPrice)
    ensures r.None? || r == Some("stop_loss") || r == Some("take_profit")
  {
    if active.None? then None
    else if active.value.side == "LONG" then
      if currentPrice <= active.value.stopLoss then Some("stop_loss")
      else if currentPrice >= active.value.takeProfit then Some("take_profit")
      else None
    else None
  }

  /** Stop 950 and target 1100: 940 stops out, 1150 takes profit, 1000 holds. */
  lemma ExitConditionExamples(p: Position)
    requires p.side == "LONG" && p.stopLoss == 950.0 && p.takeProfit == 1100.0
    ensures ExitCondition(Some(p), 940.0) == Some("stop_loss")
    ensures ExitCondition(Some(p), 1150.0) == Some("take_profit")
    ensures ExitCondition(Some(p), 1000.0).None?
  {
  }

  /** `(exit - entry) * size` for a LONG and `(entry - exit) * size` otherwise. */
  function SidePnl(side: string, entryPrice: real, exitPrice: real, size: real): (pnl: real)
    ensures side == "LONG" ==> pnl == (exitPrice - entryPrice) * size
    ensures side != "LONG" ==> pnl == -((exitPrice - entryPrice) * size)
  {
    if side == "LONG" then (exitPrice - entryPrice) * size else (entryPrice - exitPrice) * size
  }

  /** A long position of positive size gains exactly when it exits above its entry. */
  lemma LongGainsIffExitAbove(entryPrice: real, exitPrice: real, size: real)
    requires size > 0.0
    ensures SidePnl("LONG", entryPrice, exitPrice, size) > 0.0 <==> exitPrice > entryPrice
    ensures SidePnl("LONG", entryPrice, exitPrice, size) < 0.0 <==> exitPrice < entryPrice
  {
    var d := exitPrice - entryPrice;
    if d > 0.0 {
      assert d * size > 0.0;
    } else if d < 0.0 {
      assert d * size < 0.0;
    }
  }

  /** The keys of a position dictionary other than its status. */
  const PositionKeys: set<string> := {"market", "side", "entry_price", "size", "size_usd", "stop_loss",
                                      "take_profit", "order_id", "opened_at", "timestamp"}

  /** The position dictionary without its status. */
  function PositionFields(p: Position): (r: Record)
    ensures r.Keys <= PositionKeys
    ensures "market" in r && "side" in r && "entry_price" in r && "size" in r && "stop_loss" in r
    ensures "take_profit" in r && "opened_at" in r
    ensures r["entry_price"] == JNum(p.entryPrice) && r["size"] == JNum(p.size)
    ensures ("order_id" in r <==> p.orderId.Some?) && (p.orderId.Some? ==> r["order_id"] == JStr(p.orderId.value))
    ensures ("size_usd" in r <==> p.sizeUsd.Some?) && ("timestamp" in r <==> p.timestamp.Some?)
    ensures p.timestamp.Some? ==> r["timestamp"] == JTime(p.timestamp.value)
  {
    var base := map[
      "market" := JStr(p.market), "side" := JStr(p.side), "entry_price" := JNum(p.entryPrice),
      "size" := JNum(p.size), "stop_loss" := JNum(p.stopLoss), "take_profit" := JNum(p.takeProfit),
      "opened_at" := JNum(p.openedAt as real)];
    var withUsd := if p.sizeUsd.Some? then base["size_usd" := JNum(p.sizeUsd.value)] else base;
    var withId := if p.orderId.Some? then withUsd["order_id" := JStr(p.orderId.value)] else withUsd;
    if p.timestamp.Some? then withId["timestamp" := JTime(p.timestamp.value)] else withId
  }

  /** The position dictionary as the data manager stores it. */
  function PositionRecord(p: Position): (r: Record)
    ensures r.Keys == PositionFields(p).Keys + {"status"}
    ensures r["status"] == JStr(p.status)
    ensures forall k :: k in PositionFields(p) ==> r[k] == PositionFields(p)[k]
    ensures "pnl" !in r && "exit_price" !in r
  {
    PositionFields(p)["status" := JStr(p.status)]
  }

  /** The keys a close adds. */
  const ExitKeys: set<string> := {"exit_price", "exit_reason", "pnl", "pnl_percent", "closed_at", "duration"}

  /** The exit figures of a closed dictionary. */
  function ExitFields(c: ClosedPosition): (r: Record)
    ensures r.Keys == ExitKeys
    ensures r["pnl"] == JNum(c.pnl) && r["exit_price"] == JNum(c.exitPrice) && r["exit_reason"] == JStr(c.exitReason)
  {
    map["exit_price" := JNum(c.exitPrice), "exit_reason" := JStr(c.exitReason), "pnl" := JNum(c.pnl),
        "pnl_percent" := JNum(c.pnlPercent), "closed_at" := JNum(c.closedAt as real), "duration" := JNum(c.duration as real)]
  }

  /** The closed dictionary as the data manager stores it: the position's, with the exit figures added. */
  function ClosedRecord(c: ClosedPosition): (r: Record)
    ensures "pnl" in r && r["pnl"] == JNum(c.pnl)
    ensures "exit_price" in r && r["exit_price"] == JNum(c.exitPrice)
    ensures "exit_reason" in r && r["exit_reason"] == JStr(c.exitReason)
    ensures "status" in r && r["status"] == JStr(c.position.status)
    ensures forall k :: k in PositionFields(c.position) ==> k in r && r[k] == PositionFields(c.position)[k]
  {
    assert "status" !in ExitKeys;
    assert PositionKeys !! ExitKeys;
    PositionRecord(c.position) + ExitFields(c)
  }

  /** The closed dictionary keeps every field of the opened one except the status, which becomes CLOSED. */
  lemma ClosedRecordKeepsOpenedFields(p: Position, exitPrice: real, reason: string, pnl: real, pnlPercent: real, now: int)
    ensures var openRecord := PositionRecord(p);
      var closed := ClosedRecord(Close(p, exitPrice, reason, pnl, pnlPercent, now));
      (forall k :: k in openRecord && k != "status" ==> k in closed && closed[k] == openRecord[k]) &&
      closed["status"] == JStr("CLOSED") && closed["pnl"] == JNum(pnl) && closed["exit_price"] == JNum(exitPrice)
  {
    assert PositionFields(p.(status := "CLOSED")) == PositionFields(p);
  }

  /** Python's `round(x, 4)` on an exact value: the nearest multiple of 0.0001, a tie going to the even multiple. */
  function Round4(x: real): (r: real)
    ensures -0.00005 <= r - x <= 0.00005
    ensures (r * 10000.0).Floor as real == r * 10000.0
  {
    var scaled := x * 10000.0;
    var f := scaled.Floor;
    var frac := scaled - f as real;
    var n := if frac > 0.5 then f + 1 else if frac < 0.5 then f else if f % 2 == 0 then f else f + 1;
    assert (n as real) - scaled <= 0.5 && scaled - (n as real) <= 0.5;
    assert (n as real).Floor == n;
    n as real / 10000.0
  }

  /** A value already on the four-decimal grid is not moved by rounding. */
  lemma Round4OnGrid(k: int)
    ensures Round4(k as real / 10000.0) == k as real / 10000.0
  {
    var x := k as real / 10000.0;
    assert x * 10000.0 == k as real;
    assert (x * 10000.0).Floor == k;
  }

  /** The market-order dictionary `order_info`: a market, immediate-or-cancel order, neither post-only nor reduce-only. */
  datatype OrderInfo = OrderInfo(
    market: string,
    side: string,
    size: real,
    price: real,
    orderType: string,
    timeInForce: string,
    postOnly: bool,
    reduceOnly: bool)

  /** The order dictionary placed for `usd` worth at `price`, the size rounded to four decimals; dividing by a zero price raises. */
  function MarketOrderInfo(market: string, positionSizeUsd: real, side: string, price: real): (r: Result<OrderInfo>)
    ensures r.Err? <==> price == 0.0
    ensures r.Err? ==> r.error == ZeroDivisionError
    ensures r.Ok? ==> r.value.size == Round4(positionSizeUsd / price) && r.value.price == price
    ensures r.Ok? ==> r.value.market == market && r.value.side == side
    ensures r.Ok? ==> r.value.orderType == "MARKET" && r.value.timeInForce == "IOC" && !r.value.postOnly && !r.value.reduceOnly
  {
    if price == 0.0 then Err(ZeroDivisionError)
    else Ok(OrderInfo(market, side, Round4(positionSizeUsd / price), price, "MARKET", "IOC", false, false))
  }

  /** The fields the managers read from the exchange client's reply to an order. */
  datatype ExchangeReply = ExchangeReply(status: Option<string>, size: Option<real>, orderId: Option<string>)

  /** What the exchange client did with a live order: raised with a message, or returned a reply (None when the client returned None). */
  datatype LiveOutcome = Raised(message: string) | Returned(reply: Option<ExchangeReply>)

  /** The order dictionary a manager gets back from place_market_order. */
  datatype OrderResponse =
      /** `{"order_id": "sim_<now>", "status": "FILLED", "simulation": True, **order_info}` */
    | Simulated(orderId: string, info: OrderInfo)
      /** The exchange client's reply, passed through. */
    | Live(reply: ExchangeReply)
      /** `{"status": "FAILED", "error": ..., **order_info}` */
    | FailedOrder(error: string, info: OrderInfo)

  /** The simulated order id `sim_<int(now)>`. */
  function SimulatedOrderId(now: int): (id: string)
    ensures |id| > 4 && id[..4] == "sim_"
  {
    "sim_" + Numerals.IntToString(now)
  }

  /** `response.get("status")`. */
  function Status(r: OrderResponse): (s: Option<string>)
    ensures r.Simulated? ==> s == Some("FILLED")
    ensures r.FailedOrder? ==> s == Some("FAILED")
    ensures r.Live? ==> s == r.reply.status
  {
    match r
    case Simulated(_, _) => Some("FILLED")
    case Live(reply) => reply.status
    case FailedOrder(_, _) => Some("FAILED")
  }

  /** `response.get("size", 0)`. */
  function FilledSize(r: OrderResponse): (s: real)
    ensures !r.Live? ==> s == r.info.size
    ensures r.Live? ==> s == r.reply.size.GetOr(0.0)
  {
    match r
    case Simulated(_, info) => info.size
    case Live(reply) => reply.size.GetOr(0.0)
    case FailedOrder(_, info) => info.size
  }

  /** `response.get("order_id", "")`. */
  function FilledOrderId(r: OrderResponse): (id: string)
    ensures r.Simulated? ==> id == r.orderId
    ensures r.Live? ==> id == r.reply.orderId.GetOr("")
    ensures r.FailedOrder? ==> id == ""
  {
    match r
    case Simulated(orderId, _) => orderId
    case Live(reply) => reply.orderId.GetOr("")
    case FailedOrder(_, _) => ""
  }

  /** `response.get("status") == "FILLED" or simulation_mode`: the test that lets an open or a close go through. */
  predicate Accepted(r: OrderResponse, simulationMode: bool) {
    Status(r) == Some("FILLED") || simulationMode
  }
}
