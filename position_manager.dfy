/**
  The simulated position manager of position_manager.py: one `active_position` slot, opened as a
  LONG worth a fixed USD amount, closed at a given exit price with its P&L in USD and in percent of
  the entry, and checked against its stop loss and take profit.
 */
module PositionManagement {
  import opened Wrappers
  import opened Positions

  /**
    The closed record of position_manager.py: P&L `(exit - entry) * size` with percent
    `(exit / entry - 1) * 100` for a LONG, mirrored otherwise; the percent divides by the entry
    (LONG) or the exit price (other sides) and raises on a zero divisor.
   */
  function CloseAt(p: Position, exitPrice: real, reason: string, now: int): (r: Result<ClosedPosition>)
    ensures r.Err? <==> (if p.side == "LONG" then p.entryPrice == 0.0 else exitPrice == 0.0)
    ensures r.Err? ==> r.error == ZeroDivisionError
    ensures r.Ok? ==> r.value.position == p.(status := "CLOSED") && r.value.exitPrice == exitPrice
    ensures r.Ok? ==> r.value.exitReason == reason && r.value.closedAt == now && r.value.duration == now - p.openedAt
    ensures r.Ok? ==> r.value.pnl == SidePnl(p.side, p.entryPrice, exitPrice, p.size)
    ensures r.Ok? && p.side == "LONG" ==> r.value.pnlPercent * p.entryPrice == (exitPrice - p.entryPrice) * 100.0
    ensures r.Ok? && p.side != "LONG" ==> r.value.pnlPercent * exitPrice == (p.entryPrice - exitPrice) * 100.0
  {
    var pnl := SidePnl(p.side, p.entryPrice, exitPrice, p.size);
    if p.side == "LONG" then
      if p.entryPrice == 0.0 then Err(ZeroDivisionError)
      else
        var pct := (exitPrice / p.entryPrice - 1.0) * 100.0;
        assert pct * p.entryPrice == (exitPrice - p.entryPrice) * 100.0;
        Ok(Close(p, exitPrice, reason, pnl, pct, now))
    else
      if exitPrice == 0.0 then Err(ZeroDivisionError)
      else
        var pct := (p.entryPrice / exitPrice - 1.0) * 100.0;
        assert pct * exitPrice == (p.entryPrice - exitPrice) * 100.0;
        Ok(Close(p, exitPrice, reason, pnl, pct, now))
  }

  /**
    A LONG bought for `usd` at a non-zero entry makes a P&L that is exactly its percentage of the
    stake: pnl = usd · pnl_percent / 100.
   */
  lemma PnlIsPercentOfStake(usd: real, entryPrice: real, exitPrice: real, stopLoss: real, takeProfit: real,
                            market: string, reason: string, openedAt: int, now: int)
    requires entryPrice != 0.0
    ensures var p := OpenLong(market, entryPrice, usd / entryPrice, Some(usd), stopLoss, takeProfit, None, openedAt);
      var c := CloseAt(p, exitPrice, reason, now);
      c.Ok? && c.value.pnl == usd * c.value.pnlPercent / 100.0
  {
    var p := OpenLong(market, entryPrice, usd / entryPrice, Some(usd), stopLoss, takeProfit, None, openedAt);
    var c := CloseAt(p, exitPrice, reason, now);
    var pct := c.value.pnlPercent;
    var size := usd / entryPrice;
    assert size * entryPrice == usd;
    assert pct * entryPrice == (exitPrice - entryPrice) * 100.0;
    calc {
      c.value.pnl * entryPrice;
      (exitPrice - entryPrice) * size * entryPrice;
      (exitPrice - entryPrice) * usd;
      pct * entryPrice * usd / 100.0;
    }
    assert c.value.pnl * entryPrice == (usd * pct / 100.0) * entryPrice;
  }

  /** Entry 1000, exit 1100 and 1000 USD: a P&L of 100 USD, that is 10%. */
  lemma TenPercentExample(market: string, reason: string, openedAt: int, now: int)
    ensures var p := OpenLong(market, 1000.0, 1000.0 / 1000.0, Some(1000.0), 950.0, 1100.0, None, openedAt);
      var c := CloseAt(p, 1100.0, reason, now);
      c.Ok? && c.value.pnl == 100.0 && c.value.pnlPercent == 10.0
  {
  }

  /** get_position_status: `{"status": "NO_POSITION"}` or the active position itself. */
  datatype PositionStatus = NoPosition | Active(position: Position)

  class PositionManager {
    const marketId: string
    const positionSizeUsd: real
    var activePosition: Option<Position>

    /** No position; the USD amount defaults to 100 in the source. */
    constructor (marketId: string, positionSizeUsd: real)
      ensures this.marketId == marketId && this.positionSizeUsd == positionSizeUsd && activePosition.None?
    {
      this.marketId := marketId;
      this.positionSizeUsd := positionSizeUsd;
      activePosition := None;
    }

    /**
      open_long_position: an OPEN LONG of `usd / entry` tokens with its USD amount fills the slot,
      replacing whatever position was there; a zero entry price raises before the slot changes.
     */
    method OpenLongPosition(entryPrice: real, stopLoss: real, takeProfit: real, now: int) returns (r: Result<Position>)
      modifies this`activePosition
      ensures r.Err? <==> entryPrice == 0.0
      ensures r.Err? ==> r.error == ZeroDivisionError && activePosition == old(activePosition)
      ensures r.Ok? ==> r.value == OpenLong(marketId, entryPrice, positionSizeUsd / entryPrice, Some(positionSizeUsd),
                                             stopLoss, takeProfit, None, now)
      ensures r.Ok? ==> r.value.size * entryPrice == positionSizeUsd
      ensures r.Ok? ==> activePosition == Some(r.value)
    {
      if entryPrice == 0.0 {
        return Err(ZeroDivisionError);
      }
      var size := positionSizeUsd / entryPrice;
      var position := OpenLong(marketId, entryPrice, size, Some(positionSizeUsd), stopLoss, takeProfit, None, now);
      activePosition := Some(position);
      r := Ok(position);
    }

    /**
      close_position: FAILED without a position; otherwise the closed record of CloseAt, after which
      the slot is empty whether the trade won or lost. A zero divisor raises and keeps the position.
     */
    method ClosePosition(exitPrice: real, reason: string, now: int) returns (r: Result<Response<ClosedPosition>>)
      modifies this`activePosition
      ensures old(activePosition).None? ==> r == Ok(Failed(NoActivePosition)) && activePosition.None?
      ensures old(activePosition).Some? && CloseAt(old(activePosition).value, exitPrice, reason, now).Err? ==>
        r == Err(ZeroDivisionError) && activePosition == old(activePosition)
      ensures old(activePosition).Some? && CloseAt(old(activePosition).value, exitPrice, reason, now).Ok? ==>
        r == Ok(Done(CloseAt(old(activePosition).value, exitPrice, reason, now).value)) && activePosition.None?
    {
      if activePosition.None? {
        return Ok(Failed(NoActivePosition));
      }
      var closed := CloseAt(activePosition.value, exitPrice, reason, now);
      if closed.Err? {
        return Err(closed.error);
      }
      activePosition := None;
      r := Ok(Done(closed.value));
    }

    /** check_exit_conditions, a pure read of the slot. */
    function CheckExitConditions(currentPrice: real): (r: Option<string>)
      reads this
      ensures r == ExitCondition(activePosition, currentPrice)
    {
      ExitCondition(activePosition, currentPrice)
    }

    function GetPositionStatus(): (r: PositionStatus)
      reads this
      ensures r.NoPosition? <==> activePosition.None?
      ensures r.Active? ==> r.position == activePosition.value
    {
      if activePosition.None? then NoPosition else Active(activePosition.value)
    }
  }

  /**
    Opening and then closing, at any exit price, leaves the slot empty, and the opened position
    comes back CLOSED with its fields intact.
   */
  method OpenThenClose(m: PositionManager, entryPrice: real, stopLoss: real, takeProfit: real, exitPrice: real, now: int)
    returns (closed: ClosedPosition)
    requires entryPrice != 0.0
    modifies m
    ensures m.activePosition.None?
    ensures closed.position.status == "CLOSED" && closed.position.entryPrice == entryPrice && closed.exitPrice == exitPrice
    ensures closed.position.size * entryPrice == m.positionSizeUsd
  {
    var position := m.OpenLongPosition(entryPrice, stopLoss, takeProfit, now);
    var r := m.ClosePosition(exitPrice, "stop_loss", now);
    closed := r.value.value;
  }
}
