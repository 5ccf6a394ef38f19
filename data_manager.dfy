/**
  The record store of src/core/data_manager.py. Each JSON file becomes an in-memory field: the
  trade log and the position list are sequences of records, the bot state and the last performance
  report are optional values. Saving stamps records, the position list is updated by key, the trade
  log yields performance metrics, and old trades can be pruned.
 */
module DataStore {
  import opened Wrappers
  import opened Stats
  import opened Json
  import Numerals

  /** `record.get(key)`: a missing key reads as None, like a stored null. */
  function Lookup(r: Record, key: string): (v: Json)
    ensures key in r ==> v == r[key]
    ensures key !in r ==> v == JNull
  {
    if key in r then r[key] else JNull
  }

  /** `if 'timestamp' not in d: d['timestamp'] = now`: a stamp is added, never replaced. */
  function Stamped(r: Record, now: int): (s: Record)
    ensures s.Keys == r.Keys + {"timestamp"}
    ensures forall k :: k in r ==> s[k] == r[k]
    ensures "timestamp" !in r ==> s["timestamp"] == JTime(now)
  {
    if "timestamp" in r then r else r["timestamp" := JTime(now)]
  }

  /** `position_data.get('order_id', f"pos_{len(positions)}")`. */
  function PositionId(r: Record, count: nat): (id: Json)
    ensures "order_id" in r ==> id == r["order_id"]
    ensures "order_id" !in r ==> id == JStr("pos_" + Numerals.NatToString(count))
  {
    if "order_id" in r then r["order_id"] else JStr("pos_" + Numerals.NatToString(count))
  }

  /** The index of the first stored position whose `order_id` equals `id`, or the length when there is none. */
  function FirstMatch(positions: seq<Record>, id: Json): (k: nat)
    ensures k <= |positions|
    ensures forall j :: 0 <= j < k ==> Lookup(positions[j], "order_id") != id
    ensures k < |positions| ==> Lookup(positions[k], "order_id") == id
  {
    if |positions| == 0 then 0
    else if Lookup(positions[0], "order_id") == id then 0
    else
      var k := FirstMatch(positions[1..], id);
      assert forall j :: 1 <= j < |positions| ==> positions[j] == positions[1..][j - 1];
      k + 1
  }

  /** The position list after save_position: the first record with the same id replaced, else the record appended. */
  function Upsert(positions: seq<Record>, record: Record, id: Json): (r: seq<Record>)
    ensures FirstMatch(positions, id) < |positions| ==>
      |r| == |positions| && r[FirstMatch(positions, id)] == record &&
      forall j :: 0 <= j < |positions| && j != FirstMatch(positions, id) ==> r[j] == positions[j]
    ensures FirstMatch(positions, id) == |positions| ==>
      |r| == |positions| + 1 && r[|positions|] == record && r[..|positions|] == positions
  {
    var k := FirstMatch(positions, id);
    if k < |positions| then positions[k := record] else positions + [record]
  }

  /** Saving a record that another stored record already carries the id of never grows the list. */
  lemma UpsertKnownIdKeepsLength(positions: seq<Record>, record: Record, i: nat)
    requires i < |positions| && Lookup(positions[i], "order_id") == PositionId(record, |positions|)
    ensures |Upsert(positions, record, PositionId(record, |positions|))| == |positions|
  {
  }

  /** `trade.get('pnl', 0)` as a number; text, null and timestamps are not numbers, and comparing them raises. */
  function PnlValue(r: Record): (v: Option<real>)
    ensures "pnl" !in r ==> v == Some(0.0)
    ensures "pnl" in r && r["pnl"].JNum? ==> v == Some(r["pnl"].r)
    ensures "pnl" in r && (r["pnl"].JStr? || r["pnl"].JNumText? || r["pnl"].JTime? || r["pnl"].JNull?) ==> v.None?
  {
    if "pnl" !in r then Some(0.0)
    else match r["pnl"]
      case JNum(x) => Some(x)
      case JInt(i) => Some(i as real)
      case JBool(b) => Some(if b then 1.0 else 0.0)
      case _ => None
  }

  /** The P&L column of the trade log, or None when some entry is not a number. */
  function Pnls(trades: seq<Record>): (r: Option<seq<real>>)
    ensures r.Some? <==> forall i :: 0 <= i < |trades| ==> PnlValue(trades[i]).Some?
    ensures r.Some? ==> |r.value| == |trades| && forall i :: 0 <= i < |trades| ==> r.value[i] == PnlValue(trades[i]).value
  {
    if |trades| == 0 then Some([])
    else
      var init := Pnls(trades[..|trades| - 1]);
      var last := PnlValue(trades[|trades| - 1]);
      assert forall i :: 0 <= i < |trades| - 1 ==> trades[..|trades| - 1][i] == trades[i];
      if init.None? || last.None? then None else Some(init.value + [last.value])
  }

  /** The winning P&Ls (strictly positive), in order: each positive P&L as often as it occurs, nothing else. */
  function Wins(p: seq<real>): (r: seq<real>)
    ensures |r| <= |p|
    ensures forall i :: 0 <= i < |r| ==> r[i] > 0.0
    ensures forall x :: multiset(r)[x] == if x > 0.0 then multiset(p)[x] else 0
  {
    if |p| == 0 then []
    else
      assert p == p[..|p| - 1] + [p[|p| - 1]];
      if p[|p| - 1] > 0.0 then Wins(p[..|p| - 1]) + [p[|p| - 1]]
      else Wins(p[..|p| - 1])
  }

  /** The losing P&Ls (strictly negative), in order: each negative P&L as often as it occurs, nothing else. */
  function Losses(p: seq<real>): (r: seq<real>)
    ensures |r| <= |p|
    ensures forall i :: 0 <= i < |r| ==> r[i] < 0.0
    ensures forall x :: multiset(r)[x] == if x < 0.0 then multiset(p)[x] else 0
  {
    if |p| == 0 then []
    else
      assert p == p[..|p| - 1] + [p[|p| - 1]];
      if p[|p| - 1] < 0.0 then Losses(p[..|p| - 1]) + [p[|p| - 1]]
      else Losses(p[..|p| - 1])
  }

  /** Both filters keep the log's order: filtering a log is filtering its two halves one after the other. */
  lemma {:induction false} FiltersKeepOrder(a: seq<real>, b: seq<real>)
    ensures Wins(a + b) == Wins(a) + Wins(b)
    ensures Losses(a + b) == Losses(a) + Losses(b)
    decreases |b|
  {
    if |b| == 0 {
      assert a + b == a;
    } else {
      var c := a + b;
      assert c[..|c| - 1] == a + b[..|b| - 1];
      assert c[|c| - 1] == b[|b| - 1];
      FiltersKeepOrder(a, b[..|b| - 1]);
    }
  }

  /** Zero-P&L trades count as neither a win nor a loss, and the two groups add up to the total P&L. */
  lemma {:induction false} WinsAndLossesSplit(p: seq<real>)
    ensures |Wins(p)| + |Losses(p)| <= |p|
    ensures Sum(p) == Sum(Wins(p)) + Sum(Losses(p))
  {
    if |p| > 0 {
      WinsAndLossesSplit(p[..|p| - 1]);
    }
  }

  /** The gross loss is the magnitude of the losses: positive exactly when there is a loss. */
  lemma {:induction false} LossesSum(p: seq<real>)
    ensures Sum(Losses(p)) <= 0.0
    ensures Sum(Losses(p)) < 0.0 <==> |Losses(p)| > 0
  {
    if |p| > 0 {
      LossesSum(p[..|p| - 1]);
    }
  }

  lemma {:induction false} WinsSum(p: seq<real>)
    ensures Sum(Wins(p)) >= 0.0
  {
    if |p| > 0 {
      WinsSum(p[..|p| - 1]);
    }
  }

  /** The running P&L, its peak (starting at 0) and the largest drop from that peak so far. */
  datatype Running = Running(pnl: real, peak: real, maxDrawdown: real)

  /** One step of the drawdown loop. */
  function Step(s: Running, x: real): Running {
    var run := s.pnl + x;
    var peak := if run > s.peak then run else s.peak;
    var drawdown := peak - run;
    Running(run, peak, if drawdown > s.maxDrawdown then drawdown else s.maxDrawdown)
  }

  /** The loop's state after the given P&Ls. */
  function DrawdownAfter(p: seq<real>): Running {
    if |p| == 0 then Running(0.0, 0.0, 0.0) else Step(DrawdownAfter(p[..|p| - 1]), p[|p| - 1])
  }

  /**
    The running P&L is the plain sum, the peak is never below it or below 0, and neither the current
    drop nor the largest one exceeds the gross loss.
   */
  lemma {:induction false} DrawdownBounds(p: seq<real>)
    ensures DrawdownAfter(p).pnl == Sum(p)
    ensures DrawdownAfter(p).peak >= DrawdownAfter(p).pnl && DrawdownAfter(p).peak >= 0.0
    ensures 0.0 <= DrawdownAfter(p).peak - DrawdownAfter(p).pnl <= -Sum(Losses(p))
    ensures 0.0 <= DrawdownAfter(p).maxDrawdown <= -Sum(Losses(p))
  {
    if |p| > 0 {
      DrawdownBounds(p[..|p| - 1]);
      LossesSum(p[..|p| - 1]);
    }
  }

  /** The largest drawdown bounds every intermediate drop from the peak. */
  lemma {:induction false} DrawdownIsLargestDrop(p: seq<real>, k: nat)
    requires k <= |p|
    ensures DrawdownAfter(p[..k]).peak - DrawdownAfter(p[..k]).pnl <= DrawdownAfter(p).maxDrawdown
    decreases |p|
  {
    if k == |p| {
      assert p[..k] == p;
    } else {
      var init := p[..|p| - 1];
      assert init[..k] == p[..k];
      DrawdownIsLargestDrop(init, k);
    }
  }

  /** The largest drawdown is attained: some prefix of the P&Ls ends exactly that far below its peak. */
  lemma {:induction false} DrawdownAttained(p: seq<real>)
    ensures exists k :: 0 <= k <= |p| &&
                        DrawdownAfter(p[..k]).peak - DrawdownAfter(p[..k]).pnl == DrawdownAfter(p).maxDrawdown
  {
    if |p| == 0 {
      assert DrawdownAfter(p[..0]) == Running(0.0, 0.0, 0.0);
    } else {
      var init := p[..|p| - 1];
      DrawdownAttained(init);
      var k :| 0 <= k <= |init| &&
        DrawdownAfter(init[..k]).peak - DrawdownAfter(init[..k]).pnl == DrawdownAfter(init).maxDrawdown;
      assert p[..|p|] == p;
      if DrawdownAfter(p).maxDrawdown == DrawdownAfter(init).maxDrawdown {
        assert init[..k] == p[..k];
      } else {
        assert DrawdownAfter(p[..|p|]).peak - DrawdownAfter(p[..|p|]).pnl == DrawdownAfter(p).maxDrawdown;
      }
    }
  }

  /** The extra fields of a non-empty report. */
  datatype Breakdown = Breakdown(grossProfit: real, grossLoss: real, winningTrades: nat, losingTrades: nat)

  /** calculate_performance_metrics' dictionary; an infinite profit factor is None. */
  datatype Metrics = Metrics(
    totalTrades: nat,
    totalPnl: real,
    winRate: real,
    avgWin: real,
    avgLoss: real,
    profitFactor: Option<real>,
    maxDrawdown: real,
    breakdown: Option<Breakdown>)

  /** The report of an empty trade log: every figure 0. */
  const NoTradesMetrics := Metrics(0, 0.0, 0.0, 0.0, 0.0, Some(0.0), 0.0, None)

  /** Exact division, characterised by its product. */
  function Quotient(a: real, b: real): (q: real)
    requires b != 0.0
    ensures q * b == a
  {
    a / b
  }

  /** `part / whole * 100` for counts: a percentage. */
  function Percent(part: nat, whole: nat): (r: real)
    requires 0 < whole && part <= whole
    ensures r * (whole as real) == (part as real) * 100.0
    ensures 0.0 <= r <= 100.0
  {
    var n := whole as real;
    var r := Quotient((part as real) * 100.0, n);
    assert r > 100.0 ==> r * n > 100.0 * n;
    r
  }

  /** The report assembled from the figures of a non-empty log. */
  function Report(total: nat, totalPnl: real, grossProfit: real, lossSum: real, wins: nat, losses: nat,
                  maxDrawdown: real): (m: Metrics)
    requires total > 0 && wins <= total
    ensures m.totalTrades == total && m.totalPnl == totalPnl && m.maxDrawdown == maxDrawdown
    ensures m.breakdown == Some(Breakdown(grossProfit, Abs(lossSum), wins, losses))
    ensures m.winRate == Percent(wins, total)
    ensures wins > 0 ==> m.avgWin * (wins as real) == grossProfit
    ensures wins == 0 ==> m.avgWin == 0.0
    ensures losses > 0 ==> m.avgLoss * (losses as real) == lossSum
    ensures losses == 0 ==> m.avgLoss == 0.0
    ensures m.profitFactor.None? <==> Abs(lossSum) == 0.0
    ensures m.profitFactor.Some? ==> m.profitFactor.value * Abs(lossSum) == grossProfit
  {
    var grossLoss := Abs(lossSum);
    Metrics(total, totalPnl, Percent(wins, total),
            if wins > 0 then Quotient(grossProfit, wins as real) else 0.0,
            if losses > 0 then Quotient(lossSum, losses as real) else 0.0,
            if grossLoss > 0.0 then Some(Quotient(grossProfit, grossLoss)) else None,
            maxDrawdown,
            Some(Breakdown(grossProfit, grossLoss, wins, losses)))
  }

  /** The report of a non-empty log with the given P&Ls. */
  function MetricsOf(p: seq<real>): Metrics
    requires |p| > 0
  {
    Report(|p|, Sum(p), Sum(Wins(p)), Sum(Losses(p)), |Wins(p)|, |Losses(p)|, DrawdownAfter(p).maxDrawdown)
  }

  /**
    What the report promises: the win rate is a percentage, the wins and losses are disjoint parts
    of the log, the total P&L is gross profit less gross loss, the profit factor is infinite exactly
    without a losing trade, and the largest drawdown is between 0 and the gross loss.
   */
  lemma MetricsInvariants(p: seq<real>)
    requires |p| > 0
    ensures 0.0 <= MetricsOf(p).winRate <= 100.0
    ensures MetricsOf(p).breakdown.value.winningTrades + MetricsOf(p).breakdown.value.losingTrades <= MetricsOf(p).totalTrades
    ensures MetricsOf(p).totalPnl == MetricsOf(p).breakdown.value.grossProfit - MetricsOf(p).breakdown.value.grossLoss
    ensures MetricsOf(p).profitFactor.None? <==> MetricsOf(p).breakdown.value.losingTrades == 0
    ensures 0.0 <= MetricsOf(p).maxDrawdown <= MetricsOf(p).breakdown.value.grossLoss
  {
    var wins, losses := Wins(p), Losses(p);
    var m := Report(|p|, Sum(p), Sum(wins), Sum(losses), |wins|, |losses|, DrawdownAfter(p).maxDrawdown);
    assert m == MetricsOf(p);
    WinsAndLossesSplit(p);
    LossesSum(p);
    DrawdownBounds(p);
    assert m.breakdown.value.grossLoss == -Sum(losses);
  }

  /**
    calculate_performance_metrics on the trade log, without the report file: a non-numeric P&L
    raises TypeError, an empty log gives the all-zero report, otherwise MetricsOf the P&Ls, with the
    drawdown computed by the source's running loop.
   */
  method PerformanceMetrics(trades: seq<Record>) returns (r: Result<Metrics>)
    ensures |trades| == 0 ==> r == Ok(NoTradesMetrics)
    ensures |trades| > 0 && Pnls(trades).None? ==> r == Err(TypeError)
    ensures |trades| > 0 && Pnls(trades).Some? ==> r == Ok(MetricsOf(Pnls(trades).value))
  {
    if |trades| == 0 {
      return Ok(NoTradesMetrics);
    }
    var pnls := Pnls(trades);
    if pnls.None? {
      return Err(TypeError);
    }
    var p := pnls.value;
    var running, peak, maxDrawdown := 0.0, 0.0, 0.0;
    var i := 0;
    while i < |p|
      invariant 0 <= i <= |p|
      invariant Running(running, peak, maxDrawdown) == DrawdownAfter(p[..i])
    {
      running := running + p[i];
      if running > peak {
        peak := running;
      }
      var drawdown := peak - running;
      if drawdown > maxDrawdown {
        maxDrawdown := drawdown;
      }
      assert p[..i + 1][..i] == p[..i];
      i := i + 1;
    }
    assert p[..i] == p;
    var m := MetricsOf(p);
    assert m.maxDrawdown == maxDrawdown;
    return Ok(m);
  }

  /** The stored time of a trade for cleanup_old_data: a missing stamp reads as 1970-01-01, anything but a stamp does not parse. */
  function StoredTime(r: Record): (t: Option<int>)
    ensures "timestamp" !in r ==> t == Some(0)
    ensures "timestamp" in r ==> (t.Some? <==> r["timestamp"].JTime?)
    ensures "timestamp" in r && t.Some? ==> t.value == r["timestamp"].t
  {
    if "timestamp" !in r then Some(0)
    else match r["timestamp"]
      case JTime(t) => Some(t)
      case _ => None
  }

  predicate AllStamped(trades: seq<Record>) {
    forall i :: 0 <= i < |trades| ==> StoredTime(trades[i]).Some?
  }

  /** The trades stamped strictly after the cutoff, in their order. */
  function Kept(trades: seq<Record>, cutoff: int): (r: seq<Record>)
    requires AllStamped(trades)
    ensures |r| <= |trades|
    ensures forall i :: 0 <= i < |r| ==> StoredTime(r[i]).Some? && StoredTime(r[i]).value > cutoff
  {
    if |trades| == 0 then []
    else
      var init := trades[..|trades| - 1];
      assert AllStamped(init) by {
        assert forall i :: 0 <= i < |init| ==> init[i] == trades[i];
      }
      var last := trades[|trades| - 1];
      if StoredTime(last).value > cutoff then Kept(init, cutoff) + [last] else Kept(init, cutoff)
  }

  /**
    Cleanup is an exact filter: every trade stamped after the cutoff keeps all its occurrences,
    every other trade loses them, and nothing that was not in the log appears.
   */
  lemma {:induction false} KeptIsFilter(trades: seq<Record>, cutoff: int)
    requires AllStamped(trades)
    ensures forall x :: multiset(Kept(trades, cutoff))[x] ==
                        if StoredTime(x).Some? && StoredTime(x).value > cutoff then multiset(trades)[x] else 0
    ensures forall x :: x in Kept(trades, cutoff) ==> x in trades
  {
    if |trades| > 0 {
      var init := trades[..|trades| - 1];
      assert AllStamped(init) by {
        assert forall i :: 0 <= i < |init| ==> init[i] == trades[i];
      }
      var last := trades[|trades| - 1];
      assert trades == init + [last];
      KeptIsFilter(init, cutoff);
    }
    forall x | x in Kept(trades, cutoff) ensures x in trades {
      assert multiset(Kept(trades, cutoff))[x] > 0;
    }
  }

  /** Cleanup keeps the log's order: the recent trades of a log are those of its two halves, one after the other. */
  lemma {:induction false} KeptKeepsOrder(a: seq<Record>, b: seq<Record>, cutoff: int)
    requires AllStamped(a) && AllStamped(b)
    ensures AllStamped(a + b) && Kept(a + b, cutoff) == Kept(a, cutoff) + Kept(b, cutoff)
    decreases |b|
  {
    var c := a + b;
    assert forall i :: 0 <= i < |c| ==> c[i] == if i < |a| then a[i] else b[i - |a|];
    if |b| == 0 {
      assert c == a;
    } else {
      var init := b[..|b| - 1];
      assert AllStamped(init) by {
        assert forall i :: 0 <= i < |init| ==> init[i] == b[i];
      }
      assert c[..|c| - 1] == a + init;
      assert c[|c| - 1] == b[|b| - 1];
      KeptKeepsOrder(a, init, cutoff);
    }
  }

  /** A cleanup that removes nothing keeps the log as it was, so skipping the rewrite loses nothing. */
  lemma {:induction false} KeptAllIsIdentity(trades: seq<Record>, cutoff: int)
    requires AllStamped(trades)
    requires |Kept(trades, cutoff)| == |trades|
    ensures Kept(trades, cutoff) == trades
  {
    if |trades| > 0 {
      var init := trades[..|trades| - 1];
      assert AllStamped(init) by {
        assert forall i :: 0 <= i < |init| ==> init[i] == trades[i];
      }
      var last := trades[|trades| - 1];
      if StoredTime(last).value > cutoff {
        KeptAllIsIdentity(init, cutoff);
        assert init + [last] == trades;
      }
    }
  }

  /** A trade stamped after the cutoff survives cleanup, and one at or before it does not. */
  lemma {:induction false} KeptIffRecent(trades: seq<Record>, cutoff: int, x: Record)
    requires AllStamped(trades)
    requires x in trades
    ensures x in Kept(trades, cutoff) <==> StoredTime(x).value > cutoff
  {
    var init := trades[..|trades| - 1];
    assert AllStamped(init) by {
      assert forall i :: 0 <= i < |init| ==> init[i] == trades[i];
    }
    var last := trades[|trades| - 1];
    assert trades == init + [last];
    if x == last {
      if StoredTime(last).value <= cutoff {
        assert x !in Kept(init, cutoff);
      }
    } else {
      assert x in init;
      KeptIffRecent(init, cutoff, x);
    }
  }

  class DataManager {
    /** trades.json */
    var trades: seq<Record>
    /** positions.json */
    var positions: seq<Record>
    /** bot_state.json */
    var botState: Option<Record>
    /** performance.json */
    var performance: Option<Metrics>

    /** A data directory with no files yet. */
    constructor ()
      ensures trades == [] && positions == [] && botState.None? && performance.None?
    {
      trades, positions, botState, performance := [], [], None, None;
    }

    /** save_trade: the record, stamped if it carries no timestamp, is appended to the log. */
    method SaveTrade(trade: Record, now: int)
      modifies this`trades
      ensures trades == old(trades) + [Stamped(trade, now)]
    {
      trades := trades + [Stamped(trade, now)];
    }

    /**
      save_position: the record is stamped if it carries no timestamp, and its id is its
      `order_id`, or `pos_<count>` without one; the scan replaces the first stored record with that
      id, and the record is appended when none matches.
     */
    method SavePosition(position: Record, now: int)
      modifies this`positions
      ensures positions == Upsert(old(positions), Stamped(position, now), PositionId(Stamped(position, now), |old(positions)|))
    {
      var record := Stamped(position, now);
      var stored := positions;
      var id := PositionId(record, |stored|);
      var i := 0;
      while i < |stored|
        invariant 0 <= i <= |stored|
        invariant forall j :: 0 <= j < i ==> Lookup(stored[j], "order_id") != id
      {
        if Lookup(stored[i], "order_id") == id {
          positions := stored[i := record];
          return;
        }
        i := i + 1;
      }
      positions := stored + [record];
    }

    /** save_bot_state: the state is written with a fresh timestamp, replacing any earlier one. */
    method SaveBotState(state: map<string, Json>, now: int)
      modifies this`botState
      ensures botState == Some(state["timestamp" := JTime(now)])
    {
      botState := Some(state["timestamp" := JTime(now)]);
    }

    /** calculate_performance_metrics: the report of the current log, which is also written out unless the log is empty. */
    method CalculatePerformanceMetrics() returns (r: Result<Metrics>)
      modifies this`performance
      ensures |trades| == 0 ==> r == Ok(NoTradesMetrics) && performance == old(performance)
      ensures |trades| > 0 && Pnls(trades).None? ==> r == Err(TypeError) && performance == old(performance)
      ensures |trades| > 0 && Pnls(trades).Some? ==>
        r == Ok(MetricsOf(Pnls(trades).value)) && performance == Some(r.value)
    {
      r := PerformanceMetrics(trades);
      if |trades| > 0 && r.Ok? {
        performance := Some(r.value);
      }
    }

    /**
      cleanup_old_data: keep the trades stamped after `now - days_to_keep` days; a stamp that does
      not parse aborts the cleanup and leaves the log untouched.
     */
    method CleanupOldData(daysToKeep: int, now: int)
      modifies this`trades
      ensures !AllStamped(old(trades)) ==> trades == old(trades)
      ensures AllStamped(old(trades)) ==> trades == Kept(old(trades), now - daysToKeep * 24 * 60 * 60)
    {
      var cutoff := now - daysToKeep * 24 * 60 * 60;
      var recent: seq<Record> := [];
      var i := 0;
      while i < |trades|
        invariant 0 <= i <= |trades|
        invariant trades == old(trades)
        invariant AllStamped(trades[..i])
        invariant recent == Kept(trades[..i], cutoff)
      {
        var t := StoredTime(trades[i]);
        if t.None? {
          return;
        }
        if t.value > cutoff {
          recent := recent + [trades[i]];
        }
        assert trades[..i + 1][..i] == trades[..i];
        assert AllStamped(trades[..i + 1]) by {
          assert forall j :: 0 <= j < i ==> trades[..i + 1][j] == trades[..i][j];
        }
        i := i + 1;
      }
      assert trades[..i] == trades;
      if |recent| != |trades| {
        trades := recent;
      } else {
        KeptAllIsIdentity(trades, cutoff);
      }
    }
  }
}
