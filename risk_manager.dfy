/**
  The risk manager of src/core/risk_manager.py: a gate that checks a requested position size
  against a maximum and the account balance, a projected daily P&L against a loss limit, and the
  drawdown against a baseline balance that is captured lazily on the first drawdown check.
  Every call of get_available_balance asks the exchange anew, so each such call has its own
  account reply as a parameter.
 */
module RiskManagement {
  import opened Wrappers
  import opened Stats

  /**
    get_available_balance on the account reply (None when the call fails): the equity when the
    reply has one, else the free collateral, else no balance.
   */
  function AvailableBalance(account: Option<map<string, real>>): (r: Option<real>)
    ensures r.None? <==> account.None? || ("equity" !in account.value && "freeCollateral" !in account.value)
    ensures account.Some? && "equity" in account.value ==> r == Some(account.value["equity"])
    ensures account.Some? && "equity" !in account.value && "freeCollateral" in account.value ==>
      r == Some(account.value["freeCollateral"])
  {
    if account.Some? && "equity" in account.value then Some(account.value["equity"])
    else if account.Some? && "freeCollateral" in account.value then Some(account.value["freeCollateral"])
    else None
  }

  /** The reason strings of the validators, with the numbers they quote. */
  datatype Reason =
    | SizeExceedsMaximum(size: real, maxSize: real)
    | BalanceUnavailable
    | InsufficientBalance(required: real, available: real)
    | SizeValidated
    | DailyLossExceeded(current: real, projected: real)
    | DailyLossWithinLimits
    | DrawdownUnknown
    | DrawdownExceeds(percent: real, maxPercent: real)
    | DrawdownWithinLimits(percent: real)
    | CircuitDailyLoss(pnl: real)
    | CircuitDrawdown(inner: Reason)
    | AllChecksPassed

  /**
    The account replies seen by validate_drawdown's two calls of get_available_balance: the lazy
    capture's, which is only asked for while the baseline is 0, and the current balance's.
   */
  datatype DrawdownReplies = DrawdownReplies(capture: Option<map<string, real>>, current: Option<map<string, real>>)

  /** The `(is_valid, reason)` pair every validator returns. */
  datatype Verdict = Verdict(ok: bool, reason: Reason)

  /** The drawdown of `current` against the baseline, in percent of the baseline. */
  function DrawdownPercent(initial: real, current: real): real
    requires initial != 0.0
  {
    (initial - current) / initial * 100.0
  }

  /**
    The verdict of validate_drawdown once the baseline is settled: valid with no figure when the
    balance is unknown or the baseline is 0, otherwise rejected iff the drawdown exceeds the maximum.
   */
  function DrawdownCheck(initial: real, balance: Option<real>, maxDrawdownPercent: real): (r: Verdict)
    ensures balance.None? || initial == 0.0 ==> r == Verdict(true, DrawdownUnknown)
    ensures balance.Some? && initial != 0.0 ==> (r.ok <==> DrawdownPercent(initial, balance.value) <= maxDrawdownPercent)
    ensures balance.Some? && initial != 0.0 && r.ok ==> r.reason == DrawdownWithinLimits(DrawdownPercent(initial, balance.value))
    ensures balance.Some? && initial != 0.0 && !r.ok ==>
      r.reason == DrawdownExceeds(DrawdownPercent(initial, balance.value), maxDrawdownPercent)
  {
    if balance.None? || initial == 0.0 then Verdict(true, DrawdownUnknown)
    else
      var pct := DrawdownPercent(initial, balance.value);
      if pct > maxDrawdownPercent then Verdict(false, DrawdownExceeds(pct, maxDrawdownPercent))
      else Verdict(true, DrawdownWithinLimits(pct))
  }

  /** With a positive baseline, the drawdown check rejects exactly the balances below the baseline less its allowed share. */
  lemma DrawdownRejectsBelowFloor(initial: real, current: real, maxDrawdownPercent: real)
    requires initial > 0.0
    ensures !DrawdownCheck(initial, Some(current), maxDrawdownPercent).ok <==>
      current < initial - initial * maxDrawdownPercent / 100.0
  {
    var pct := DrawdownPercent(initial, current);
    assert pct * initial == (initial - current) * 100.0;
    if pct > maxDrawdownPercent {
      assert pct * initial > maxDrawdownPercent * initial;
    } else {
      assert pct * initial <= maxDrawdownPercent * initial;
    }
  }

  /**
    `if initial_balance == 0: initial_balance = balance or 0`: a zero baseline takes the balance,
    with an unknown balance (or a zero one) leaving it at 0; a non-zero baseline is kept.
   */
  function CapturedInitial(initial: real, balance: Option<real>): (r: real)
    ensures initial != 0.0 ==> r == initial
    ensures initial == 0.0 && balance.Some? ==> r == balance.value
    ensures initial == 0.0 && balance.None? ==> r == 0.0
  {
    if initial == 0.0 then balance.GetOr(0.0) else initial
  }

  /** Once the baseline is non-zero, no later capture changes it, whatever the balances. */
  lemma {:induction false} BaselineStable(initial: real, balances: seq<Option<real>>)
    requires initial != 0.0
    ensures CaptureAll(initial, balances) == initial
  {
    if |balances| > 0 {
      BaselineStable(CapturedInitial(initial, balances[0]), balances[1..]);
    }
  }

  /** The baseline after a series of drawdown checks seeing the given balances. */
  function CaptureAll(initial: real, balances: seq<Option<real>>): real
    decreases |balances|
  {
    if |balances| == 0 then initial else CaptureAll(CapturedInitial(initial, balances[0]), balances[1..])
  }

  /** The baseline is the first known non-zero balance of the series, or 0 while there is none. */
  lemma {:induction false} BaselineIsFirstNonZero(balances: seq<Option<real>>)
    ensures CaptureAll(0.0, balances) == 0.0 <==>
      forall i :: 0 <= i < |balances| ==> balances[i].GetOr(0.0) == 0.0
    ensures CaptureAll(0.0, balances) != 0.0 ==>
      exists i :: 0 <= i < |balances| && CaptureAll(0.0, balances) == balances[i].GetOr(0.0) &&
        forall j :: 0 <= j < i ==> balances[j].GetOr(0.0) == 0.0
  {
    if |balances| > 0 {
      var first := CapturedInitial(0.0, balances[0]);
      assert first == balances[0].GetOr(0.0);
      if first == 0.0 {
        BaselineIsFirstNonZero(balances[1..]);
        assert forall i :: 1 <= i < |balances| ==> balances[i] == balances[1..][i - 1];
        if CaptureAll(0.0, balances) != 0.0 {
          var k :| 0 <= k < |balances[1..]| && CaptureAll(0.0, balances[1..]) == balances[1..][k].GetOr(0.0) &&
            forall j :: 0 <= j < k ==> balances[1..][j].GetOr(0.0) == 0.0;
          assert CaptureAll(0.0, balances) == balances[k + 1].GetOr(0.0);
          assert forall j :: 0 <= j < k + 1 ==> balances[j].GetOr(0.0) == 0.0;
        }
      } else {
        BaselineStable(first, balances[1..]);
        assert CaptureAll(0.0, balances) == balances[0].GetOr(0.0);
      }
    }
  }

  /** The dictionary of get_risk_summary. */
  datatype RiskSummary = RiskSummary(
    availableBalance: Option<real>,
    dailyPnl: real,
    maxDailyLoss: real,
    maxPositionSize: real,
    maxDrawdownPercent: real,
    drawdownStatus: Reason,
    circuitBreakerActive: bool)

  class RiskManager {
    const maxPositionSizeUsd: real
    const maxDrawdownPercent: real
    const maxDailyLossUsd: real
    var dailyPnl: real
    var initialBalance: real

    /** No P&L and no baseline yet. */
    constructor (maxPositionSizeUsd: real, maxDrawdownPercent: real, maxDailyLossUsd: real)
      ensures this.maxPositionSizeUsd == maxPositionSizeUsd && this.maxDrawdownPercent == maxDrawdownPercent
      ensures this.maxDailyLossUsd == maxDailyLossUsd
      ensures dailyPnl == 0.0 && initialBalance == 0.0
    {
      this.maxPositionSizeUsd := maxPositionSizeUsd;
      this.maxDrawdownPercent := maxDrawdownPercent;
      this.maxDailyLossUsd := maxDailyLossUsd;
      dailyPnl := 0.0;
      initialBalance := 0.0;
    }

    /** The defaults of the source: 1000 USD per position, 10% drawdown, 500 USD daily loss. */
    constructor Default()
      ensures maxPositionSizeUsd == 1000.0 && maxDrawdownPercent == 10.0 && maxDailyLossUsd == 500.0
      ensures dailyPnl == 0.0 && initialBalance == 0.0
    {
      maxPositionSizeUsd := 1000.0;
      maxDrawdownPercent := 10.0;
      maxDailyLossUsd := 500.0;
      dailyPnl := 0.0;
      initialBalance := 0.0;
    }

    /**
      validate_position_size: valid iff the size is within the maximum, the balance is known and
      it covers twice the size; the first failing test, in that order, names the reason.
     */
    function ValidatePositionSize(positionSizeUsd: real, account: Option<map<string, real>>): (r: Verdict)
      ensures r.ok <==> positionSizeUsd <= maxPositionSizeUsd && AvailableBalance(account).Some? &&
                        AvailableBalance(account).value >= positionSizeUsd * 2.0
      ensures positionSizeUsd > maxPositionSizeUsd ==> r.reason == SizeExceedsMaximum(positionSizeUsd, maxPositionSizeUsd)
      ensures positionSizeUsd <= maxPositionSizeUsd && AvailableBalance(account).None? ==> r.reason == BalanceUnavailable
      ensures positionSizeUsd <= maxPositionSizeUsd && AvailableBalance(account).Some? &&
              AvailableBalance(account).value < positionSizeUsd * 2.0 ==>
        r.reason == InsufficientBalance(positionSizeUsd * 2.0, AvailableBalance(account).value)
      ensures r.ok ==> r.reason == SizeValidated
    {
      if positionSizeUsd > maxPositionSizeUsd then Verdict(false, SizeExceedsMaximum(positionSizeUsd, maxPositionSizeUsd))
      else
        var balance := AvailableBalance(account);
        if balance.None? then Verdict(false, BalanceUnavailable)
        else if balance.value < positionSizeUsd * 2.0 then Verdict(false, InsufficientBalance(positionSizeUsd * 2.0, balance.value))
        else Verdict(true, SizeValidated)
    }

    /**
      validate_daily_loss: the projection `daily_pnl + potential_loss` is rejected iff its absolute
      value exceeds the limit, so a large projected gain is rejected as well as a large loss.
     */
    function ValidateDailyLoss(potentialLoss: real): (r: Verdict)
      reads this
      ensures r.ok <==> Abs(dailyPnl + potentialLoss) <= maxDailyLossUsd
      ensures !r.ok ==> r.reason == DailyLossExceeded(dailyPnl, dailyPnl + potentialLoss)
      ensures r.ok ==> r.reason == DailyLossWithinLimits
    {
      var projected := dailyPnl + potentialLoss;
      if Abs(projected) > maxDailyLossUsd then Verdict(false, DailyLossExceeded(dailyPnl, projected))
      else Verdict(true, DailyLossWithinLimits)
    }

    /**
      validate_drawdown: a zero baseline first captures the balance of the capture reply (0 when
      it is unknown), then the settled baseline and the balance of a second, separate reply decide
      the verdict.
     */
    method ValidateDrawdown(replies: DrawdownReplies) returns (ok: bool, reason: Reason)
      modifies this`initialBalance
      ensures initialBalance == CapturedInitial(old(initialBalance), AvailableBalance(replies.capture))
      ensures Verdict(ok, reason) == DrawdownCheck(initialBalance, AvailableBalance(replies.current), maxDrawdownPercent)
    {
      if initialBalance == 0.0 {
        initialBalance := AvailableBalance(replies.capture).GetOr(0.0);
      }
      var current := AvailableBalance(replies.current);
      if current.None? || initialBalance == 0.0 {
        ok, reason := true, DrawdownUnknown;
      } else {
        var pct := (initialBalance - current.value) / initialBalance * 100.0;
        if pct > maxDrawdownPercent {
          ok, reason := false, DrawdownExceeds(pct, maxDrawdownPercent);
        } else {
          ok, reason := true, DrawdownWithinLimits(pct);
        }
      }
    }

    function GetAvailableBalance(account: Option<map<string, real>>): (r: Option<real>)
      ensures r == AvailableBalance(account)
    {
      AvailableBalance(account)
    }

    /** update_daily_pnl adds exactly the given amount. */
    method UpdateDailyPnl(pnl: real)
      modifies this`dailyPnl
      ensures dailyPnl == old(dailyPnl) + pnl
    {
      dailyPnl := dailyPnl + pnl;
    }

    /** reset_daily_pnl starts a new trading day. */
    method ResetDailyPnl()
      modifies this`dailyPnl
      ensures dailyPnl == 0.0
    {
      dailyPnl := 0.0;
    }

    /**
      check_circuit_breaker: stop when the daily P&L is beyond the limit in either direction,
      without consulting the drawdown (so no baseline is captured); otherwise stop iff the drawdown
      check rejects.
     */
    method CheckCircuitBreaker(replies: DrawdownReplies) returns (stop: bool, reason: Reason)
      modifies this`initialBalance
      ensures stop <==> (Abs(dailyPnl) > maxDailyLossUsd ||
        !DrawdownCheck(CapturedInitial(old(initialBalance), AvailableBalance(replies.capture)),
                       AvailableBalance(replies.current), maxDrawdownPercent).ok)
      ensures Abs(dailyPnl) > maxDailyLossUsd ==> reason == CircuitDailyLoss(dailyPnl) && initialBalance == old(initialBalance)
      ensures Abs(dailyPnl) <= maxDailyLossUsd ==>
        initialBalance == CapturedInitial(old(initialBalance), AvailableBalance(replies.capture))
      ensures Abs(dailyPnl) <= maxDailyLossUsd && stop ==>
        reason == CircuitDrawdown(DrawdownCheck(initialBalance, AvailableBalance(replies.current), maxDrawdownPercent).reason)
      ensures !stop ==> reason == AllChecksPassed
    {
      if Abs(dailyPnl) > maxDailyLossUsd {
        return true, CircuitDailyLoss(dailyPnl);
      }
      var valid, why := ValidateDrawdown(replies);
      if !valid {
        return true, CircuitDrawdown(why);
      }
      return false, AllChecksPassed;
    }

    /**
      get_risk_summary: the reported balance comes from its own reply; the drawdown check always
      runs on two further replies (and may capture the baseline), and the circuit breaker is
      reported active under the same condition check_circuit_breaker stops on.
     */
    method GetRiskSummary(account: Option<map<string, real>>, replies: DrawdownReplies) returns (s: RiskSummary)
      modifies this`initialBalance
      ensures initialBalance == CapturedInitial(old(initialBalance), AvailableBalance(replies.capture))
      ensures s.availableBalance == AvailableBalance(account) && s.dailyPnl == dailyPnl
      ensures s.maxDailyLoss == maxDailyLossUsd && s.maxPositionSize == maxPositionSizeUsd
      ensures s.maxDrawdownPercent == maxDrawdownPercent
      ensures s.drawdownStatus == DrawdownCheck(initialBalance, AvailableBalance(replies.current), maxDrawdownPercent).reason
      ensures s.circuitBreakerActive <==>
        !DrawdownCheck(initialBalance, AvailableBalance(replies.current), maxDrawdownPercent).ok ||
        Abs(dailyPnl) > maxDailyLossUsd
    {
      var balance := GetAvailableBalance(account);
      var valid, msg := ValidateDrawdown(replies);
      s := RiskSummary(balance, dailyPnl, maxDailyLossUsd, maxPositionSizeUsd, maxDrawdownPercent, msg,
                       !valid || Abs(dailyPnl) > maxDailyLossUsd);
    }
  }

  /**
    The first drawdown check compares two reads made moments apart: when both see the same
    positive balance the drawdown is 0 and the check passes; a second read lower than the first by
    more than the allowed share already fails it.
   */
  lemma FirstCheckComparesTwoReads(first: real, second: real, maxDrawdownPercent: real)
    requires first > 0.0 && maxDrawdownPercent >= 0.0
    ensures DrawdownCheck(CapturedInitial(0.0, Some(first)), Some(first), maxDrawdownPercent).ok
    ensures second < first - first * maxDrawdownPercent / 100.0 ==>
      !DrawdownCheck(CapturedInitial(0.0, Some(first)), Some(second), maxDrawdownPercent).ok
  {
    assert DrawdownPercent(first, first) == 0.0;
    DrawdownRejectsBelowFloor(first, second, maxDrawdownPercent);
  }

  /** A day at -400 with a 500 limit rejects a further -150 and accepts a further -50. */
  lemma DailyLossExample(rm: RiskManager)
    requires rm.dailyPnl == -400.0 && rm.maxDailyLossUsd == 500.0
    ensures !rm.ValidateDailyLoss(-150.0).ok
    ensures rm.ValidateDailyLoss(-50.0).ok
  {
  }

  /** The absolute value makes the daily gate refuse a projected gain beyond the limit too. */
  lemma DailyGainRejected(rm: RiskManager, gain: real)
    requires rm.dailyPnl >= 0.0 && gain > rm.maxDailyLossUsd >= 0.0
    ensures !rm.ValidateDailyLoss(gain).ok
  {
  }

  /**
    So a day that already passes the circuit breaker's daily test with a loss is never blocked by a
    positive potential loss of at most twice that loss: the projection only moves toward zero or
    just past it.
   */
  lemma PositiveLossEasesLosingDay(rm: RiskManager, potentialLoss: real)
    requires rm.dailyPnl <= 0.0 && Abs(rm.dailyPnl) <= rm.maxDailyLossUsd
    requires 0.0 <= potentialLoss <= -2.0 * rm.dailyPnl
    ensures rm.ValidateDailyLoss(potentialLoss).ok
  {
  }
}
