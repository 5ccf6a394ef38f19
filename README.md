# dYdX breakout trading bot — a verified model of its core

This project models the decision and bookkeeping core of a Python trading bot for dYdX v4
perpetual markets. The bot watches one market, keeps a rolling cache of recent trade prices and
notional volumes, and computes a resistance level (the highest recent price) and a volume
anomaly (the latest volume over the mean of the earlier ones). It opens a long position when
the price breaks above the resistance on unusual volume. The long is sized from the stake or
from the risk per trade, and carries a stop loss and a take profit. The position closes when
either level is touched. On the way, a risk manager gates every trade: a maximum size,
a balance of at least twice the size, a daily-loss limit, a drawdown limit and a circuit
breaker. Finished trades and positions go to a small data store that upserts positions by
order id, prunes old trades and computes performance metrics.

The repository carries two generations of this core: an older layer (the root-level
`market_data.py`, `order_manager.py` and `position_manager.py`, and the Portuguese-language
`src/utils.py`, `src/execution.py` and `src/market_data.py`) and a newer one under `src/core`,
`src/models`, `src/strategies` and `src/utils`. Both are modelled, one Dafny module per source file:

- `Helpers`: the calculation library, `src/utils/helpers.py`.
- `PollingMarketData`: the polling collector, `src/market_data.py`.
- `CoreMarketData` (in `market_service.dfy`): the service, `src/core/market_data.py`.
- `RootMarketData`: the candle collector, `market_data.py`.
- `MarketModel`: the market dataclasses, `src/models/market.py`.
- `Orders`: the order dataclass, `src/models/order.py`.
- `BreakoutStrategy`: the breakout strategy, `src/strategies/breakout_strategy.py`.
- `CandleStrategy`: the candle strategy, `src/strategies/strategy.py`.
- `RiskManagement`: the risk manager, `src/core/risk_manager.py`.
- `PositionManagement`: the position manager, `position_manager.py`.
- `OrderManagement`: the older order manager, `order_manager.py`.
- `CoreOrders`: the order manager, `src/core/order_manager.py`.
- `DataStore`: the data manager, `src/core/data_manager.py`.
- `CoreExecution`: the execution service, `src/core/execution.py`.
- `LegacyExecution`: the older execution, `src/execution.py`.
- `ConfigCheck`, `LegacyUtils`, `ConfigUtils`: configuration validation, `src/utils.py` and `src/utils/config.py`.

Shared value modules:

- `Wrappers`: `Option`, and `Result` with the Python exceptions the code raises.
- `Stats`: `Sum`, `Mean`, `Max`, `Min`, and Python's `s[-n:]` as `TailSlice`.
- `Numerals`: `str(int)` and `int(str)`.
- `Json`: dictionary values.
- `Samples`: trade → (price, notional, time) and the eviction rule.
- `Positions`: the position records, the exit rule, `round(x, 4)` and order responses.

Objects whose methods update their own fields (the market-data caches, the risk manager, the
position and order managers, the data manager) are classes whose methods are proved against
specification functions. Pure computations are functions with lemmas. An exception the source
raises is an `Err` of the matching Python exception. An exception it catches and logs becomes
the fallback value the source returns. The current time, generated ids and every answer from
the exchange client (ticker, order reply, positions, and one account reply per call of
`get_available_balance`) are parameters.

## Model

| member | source | states |
|---|---|---|
| Helpers.CalculatePositionSize | src/utils/helpers.py:23-51 | raises ValueError exactly when entry equals stop; otherwise size · \|entry − stop\| equals balance · risk per trade |
| Helpers.CalculatePnl | src/utils/helpers.py:53-74 | for a positive size, a 'buy' gains exactly when exit > entry and any other side exactly when exit < entry |
| Helpers.PnlSidesOpposite | src/utils/helpers.py:71-74 | every side other than 'buy' gets exactly the negated P&L of a 'buy' |
| Helpers.CalculateRoi | src/utils/helpers.py:76-95 | raises ZeroDivisionError exactly on a zero entry; a 'buy' with positive entry has positive ROI exactly when exit > entry |
| Helpers.RoiIsUnitPnlPercent | src/utils/helpers.py:92-95 | ROI · entry equals the P&L of one unit times 100, for either side |
| Helpers.RollingMean | src/utils/helpers.py:111 | the rolling mean without its NaN head has one value per full window, the i-th being the mean of prices[i..i+window) |
| Helpers.WindowsShift | src/utils/helpers.py:111 | the windows of the list without its head are the original windows shifted by one |
| Helpers.CalculateMovingAverage | src/utils/helpers.py:97-111 | [] below one full window; otherwise len − window + 1 values, the i-th the mean of prices[i..i+window) |
| Helpers.CalculateResistance | src/utils/helpers.py:113-127 | None exactly when there are fewer prices than the period; otherwise a value of `prices[-period:]` at least every price in it (max of an empty slice raises) |
| Helpers.CalculateSupport | src/utils/helpers.py:129-143 | the same None condition; otherwise a value of the window at most every price in it |
| Helpers.ResistanceIsWindowMax | src/utils/helpers.py:124-127 | with 0 < period ≤ len the resistance is the maximum of the last `period` prices |
| Helpers.SupportAtMostResistance | src/utils/helpers.py:124-143 | whenever a resistance exists the support exists and is at most the resistance |
| Helpers.LatestPriceAtMostResistance | src/utils/helpers.py:127 | the latest price lies in the window, so it never exceeds the resistance |
| Helpers.CalculateVolumeAnomaly | src/utils/helpers.py:145-161 | a ratio exactly when there are at least 2 volumes and the mean of all but the last is positive; then ratio · that mean equals the last volume |
| Helpers.AnomalyOfAppended | src/utils/helpers.py:158-161 | for earlier volumes plus a latest one the ratio is latest / mean(earlier), or None when that mean is not positive |
| Helpers.AnomalyStrictlyIncreasing | src/utils/helpers.py:158-161 | with the earlier volumes fixed and their mean positive, the ratio strictly increases with the latest volume |
| Stats.TailSlice | src/utils/helpers.py:127 | Python's `s[-n:]`: the suffix from the start index of the slice, exactly n long for 0 < n ≤ len, and the whole list for n = 0 or n > len |
| Stats.AllButLast | src/utils/helpers.py:159 | Python's `s[:-1]`: the list without its last element |
| Stats.Mean | src/utils/helpers.py:159 | NumPy's mean of a non-empty list: mean · len equals the sum |
| Stats.Max | src/utils/helpers.py:127 | the maximum of a non-empty list is one of its elements and at least each of them |
| Stats.Min | src/utils/helpers.py:143 | the minimum of a non-empty list is one of its elements and at most each of them |
| Numerals.ParseInt | market_data.py:185 | `int(s)` on a sign and ASCII digits; a result only for a non-empty string |
| Numerals.IntToStringRoundTrip | market_data.py:185 | `int(str(i)) == i` for every integer |
| Samples.QuoteField | src/market_data.py:91-93 | `float(d.get(key, 0))`: the value when the key is present, else 0 |
| Samples.TradeTime | src/core/market_data.py:99-105 | a sample is stamped with its trade's `createdAt`, or with now when it has none |
| Samples.Prices | src/core/market_data.py:146 | one price per trade, in order |
| Samples.Volumes | src/core/market_data.py:147 | one USD volume size · price per trade, in order |
| Samples.Times | src/core/market_data.py:138-148 | one timestamp per trade, in order, each the trade's own time or now |
| Samples.Stamps | src/core/market_data.py:211 | n timestamps, all now |
| Samples.StaleCount | src/core/market_data.py:152-155 | the eviction loop pops exactly the leading samples older than the cutoff: all before the count are stale and the next one, if any, is not |
| Samples.Evicted | src/core/market_data.py:152-155 | eviction removes only a prefix: the result is the suffix after the stale-count |
| Samples.StaleCountStep | src/core/market_data.py:152 | one stale head sample is popped, then the loop continues on the rest |
| Samples.LastFreshSurvives | src/market_data.py:110-114 | a last sample at or after the cutoff is never evicted and stays last |
| Samples.EvictedHeadFresh | src/market_data.py:111 | after eviction the cache is empty or its head is not older than the cutoff |
| Samples.FreshHeadKeepsAll | src/core/market_data.py:152 | only the head is inspected: a fresh head keeps every sample, including stale ones behind it |
| Samples.StaleCountConcat | src/core/market_data.py:146-155 | evicting after appending a batch pops only from the old cache unless it was entirely stale |
| PollingMarketData.QuotePrice | src/market_data.py:91-93 | the oracle price, falling back to the index price only when the oracle price is 0 or missing |
| PollingMarketData.CacheVolumeAnomaly | src/market_data.py:142-148 | None on an empty cache; 1 for one positive sample, None for one non-positive one; otherwise the helper's last / mean(all but last) |
| PollingMarketData.CacheResistance | src/market_data.py:154-164 | None exactly on an empty cache; otherwise a price of the last min(len, period) prices that is at least each of them, with no minimum length |
| PollingMarketData.CurrentPriceAtMostResistance | src/market_data.py:135-164 | on a non-empty cache the resistance exists and the current price never exceeds it |
| PollingMarketData.StrictBreakoutNeverFires | src/market_data.py:135-164 | the strict test "current price > resistance" is false on every non-empty cache |
| PollingMarketData.PolledSampleSurvives | src/market_data.py:102-114 | the sample just appended with timestamp now survives the eviction with cutoff now − lookback minutes |
| PollingMarketData.MarketData.Append | src/market_data.py:76-107 | one sample is appended to each of the three lists, which stay equal in length |
| PollingMarketData.MarketData.EvictBefore | src/market_data.py:111-114 | the `while … pop(0)` loop leaves exactly the evicted suffix of all three lists |
| PollingMarketData.MarketData.LoadInitialData | src/market_data.py:58-83 | each fetched trade appends its price, USD volume and time, with no eviction |
| PollingMarketData.MarketData.UpdateMarketData | src/market_data.py:85-121 | a missing payload or a price ≤ 0 leaves the cache unchanged; otherwise the quote price, the summed trade volume (0 without trades) and now are appended and stale samples are evicted |
| PollingMarketData.MarketData.GetCurrentPrice | src/market_data.py:133-135 | None exactly on an empty cache; otherwise the last price |
| PollingMarketData.MarketData.CalculateVolumeAnomaly | src/market_data.py:137-148 | the cache's volume anomaly as defined above |
| PollingMarketData.MarketData.CalculateResistance | src/market_data.py:150-164 | the cache's resistance as defined above |
| CoreMarketData.MarketDataService.AppendTrades | src/core/market_data.py:135-148 | each trade of a batch appends exactly one (price, size · price, time) triple; the lists stay equal in length |
| CoreMarketData.MarketDataService.AppendPolledTrades | src/core/market_data.py:205-211 | the REST fallback appends one triple per trade, all stamped now |
| CoreMarketData.MarketDataService.EvictBefore | src/core/market_data.py:152-155 | the eviction loop leaves exactly the evicted suffix of all three lists |
| CoreMarketData.MarketDataService.PollTrades | src/core/market_data.py:205-218 | the REST fallback's samples: the evicted suffix of the old cache plus the polled trades, all stamped now, under the cutoff now − lookback minutes; the remaining head, if any, is not older than the cutoff |
| CoreMarketData.MarketDataService.LoadInitialData | src/core/market_data.py:81-120 | every fetched trade is appended with no eviction; the snapshot object is replaced exactly when the quote payload is non-empty, and its fields end as Reloaded of their old values |
| CoreMarketData.MarketDataService.HandleTradesMessage | src/core/market_data.py:122-159 | an empty batch changes nothing; otherwise the cache becomes the evicted suffix of old cache ++ batch under the cutoff now − lookback minutes, its head (if any) is not older than the cutoff, and of the snapshot only the trades (replaced) and the stamp (now) change |
| CoreMarketData.MarketDataService.UpdateMarketData | src/core/market_data.py:191-226 | nothing changes, the snapshot's fields included, while the websocket runs; otherwise the polled trades are appended stamped now and evicted, leaving a fresh head, and the snapshot's fields end as Reloaded of their old values |
| CoreMarketData.MarketDataService.GetCurrentPrice | src/core/market_data.py:248-255 | the snapshot's oracle → index → book mid → first trade price chain |
| CoreMarketData.MarketDataService.CalculateVolumeAnomaly | src/core/market_data.py:257-264 | the helper's volume anomaly over the cached volumes |
| CoreMarketData.MarketDataService.CalculateResistance | src/core/market_data.py:266-276 | the helper's resistance over the cached prices and the configured period |
| CoreMarketData.Reloaded | src/core/market_data.py:191-226 | field by field: market, index, oracle and 24h prices from a non-empty quote (0 read as absent), else kept; trades from a non-empty batch, else [] after a rebuild, else kept; the book from a non-empty payload that parses, else none after a rebuild, else kept; the stamp is now exactly when one of the three applied |
| CoreMarketData.PollReportsQuotedOracle | src/core/market_data.py:196-198 | a polled quote with a non-zero oracle price makes that price the current price, whatever the trades and the book |
| CoreMarketData.FivePricesGiveNoResistance | src/core/market_data.py:266-276 | five cached prices with period 10 give no resistance, not the 1040 that tests/test_market_data.py:179-181 expect |
| CoreMarketData.TestVolumesAnomaly | src/core/market_data.py:257-264 | volumes [100, 110, 120, 130, 300] give the anomaly 300/115 > 1 |
| PollingMarketData.MarketData.constructor | src/market_data.py:15-31 | the lookback and the resistance period are kept and the three caches start empty |
| CoreMarketData.MarketDataService.constructor | src/core/market_data.py:21-41 | the configuration is kept, the caches start empty, and the market data model is fresh, for the market, with no index, oracle or 24h figures, no trades, no book and stamped now |
| MarketModel.TradeFromApi | src/models/market.py:21-38 | a trade keeps the payload's id, price, size and side, stamped with its `createdAt` or now |
| MarketModel.TradesFromApi | src/models/market.py:131-139 | one trade per payload entry, in order |
| MarketModel.LevelFromApi | src/models/market.py:50-63 | a level needs at least two entries, price then size; a shorter one raises IndexError |
| MarketModel.LevelsFromApi | src/models/market.py:74-87 | a side converts exactly when every level has two entries, level by level in order |
| MarketModel.Side | src/models/market.py:85-86 | a missing side of the book is an empty list |
| MarketModel.OrderBookFromApi | src/models/market.py:74-87 | the book converts exactly when both sides do, keeping their lengths and order |
| MarketModel.MissingSidesGiveEmptyBook | src/models/market.py:85-87 | a payload without bids or asks gives the empty book |
| MarketModel.OrNone | src/models/market.py:113-121 | `float(x) or None`: a zero price or volume is stored as None |
| MarketModel.MidPrice | src/models/market.py:151-164 | None when either side of the book is empty; otherwise the average of the best bid and best ask |
| MarketModel.MidPriceBetween | src/models/market.py:161-164 | the mid price lies between the best bid and the best ask |
| MarketModel.PriceChain | src/models/market.py:166-190 | oracle price if truthy, else index price, else a truthy mid price, else the first trade's price, else None |
| MarketModel.PriceChainNoneIff | src/models/market.py:166-190 | there is no price exactly when oracle, index and mid are all falsy and there are no trades |
| MarketModel.PriceChainCanGiveZero | src/models/market.py:186-188 | the last fallback returns a trade price of 0, unlike the first three |
| MarketModel.MarketData.constructor | src/models/market.py:90-109 | a fresh snapshot has no prices, no trades and no book, stamped now |
| MarketModel.MarketData.FromApi | src/models/market.py:110-129 | each of the four quote fields is `float(get(key, 0)) or None`; no trades, no book |
| MarketModel.MarketData.UpdateTrades | src/models/market.py:131-139 | the trades are replaced by the converted payload and the stamp set to now; nothing else changes |
| MarketModel.MarketData.UpdateOrderbook | src/models/market.py:141-149 | a convertible payload replaces the book and the stamp; a malformed one changes nothing; no other field changes |
| MarketModel.MarketData.GetMidPrice | src/models/market.py:151-164 | the mid price of the current book |
| MarketModel.MarketData.GetCurrentPrice | src/models/market.py:166-190 | the price chain over the current fields |
| MarketModel.FromApiHasNoZeroPrice | src/models/market.py:113-121 | a snapshot built from a payload never stores a zero oracle or index price |
| MarketModel.FromApiPrefersOracle | src/models/market.py:172-175 | a non-zero oracle price in the payload is the current price |
| BreakoutStrategy.VolumeRatio | src/strategies/breakout_strategy.py:64-66 | last volume / mean of the earlier ones, or 1 for a single volume or a non-positive baseline |
| BreakoutStrategy.Analyze | src/strategies/breakout_strategy.py:36-83 | insufficient data exactly when there are no prices or fewer than the period; `max` of an empty window raises ValueError and a missing volume IndexError; otherwise resistance is the max of `prices[-period:]` and the signal is breakout exactly when price > resistance and ratio > factor |
| BreakoutStrategy.BreakoutUnreachable | src/strategies/breakout_strategy.py:61-70 | the window includes the current price, so analyze never answers breakout |
| BreakoutStrategy.ShouldEnter | src/strategies/breakout_strategy.py:85-95 | entry exactly on a breakout signal |
| BreakoutStrategy.NeverEnters | src/strategies/breakout_strategy.py:61-95 | no analysis that succeeds ever leads to an entry |
| BreakoutStrategy.ShouldExit | src/strategies/breakout_strategy.py:97-122 | exit exactly when current and entry prices are truthy, the side is 'buy' and current < entry |
| BreakoutStrategy.CalculatePositionSize | src/strategies/breakout_strategy.py:124-163 | 0 without equity, price or resistance, or when the price is not above 0.99 · resistance; otherwise min(equity · risk / price risk, maximum): the risk-based size when it is within the maximum, else the maximum, which is then at most the risk-based size |
| BreakoutStrategy.PositionSizeBounded | src/strategies/breakout_strategy.py:157-163 | with non-negative limits the size is between 0 and the maximum position size |
| BreakoutStrategy.CalculateEntryPrice | src/strategies/breakout_strategy.py:165-176 | the entry is the analysed current price |
| BreakoutStrategy.EntryPriceIsLatestPrice | src/strategies/breakout_strategy.py:165-176 | after analyze the entry price is the latest price |
| BreakoutStrategy.CalculateExitTargets | src/strategies/breakout_strategy.py:178-204 | stop = 0.99 · resistance; take profit − entry = rr · (entry − stop) |
| BreakoutStrategy.ExitTargetsBracketEntry | src/strategies/breakout_strategy.py:192-198 | with rr > 0 and entry above the stop, stop < entry < take profit |
| BreakoutStrategy.TestVolumeRatio | src/strategies/breakout_strategy.py:64-66 | the volumes of tests/test_strategy.py:48-50 give the ratio 3 |
| BreakoutStrategy.TestDataGivesNeutral | src/strategies/breakout_strategy.py:36-83 | the data of tests/test_strategy.py:43-50 gives neutral with resistance 1080, though tests/test_strategy.py:66 expects breakout |
| BreakoutStrategy.TestPositionSize | src/strategies/breakout_strategy.py:124-163 | the test configuration sizes at the 0.1 cap |
| BreakoutStrategy.AnalyzePriorWindow | src/strategies/breakout_strategy.py:61 | the corrected analyze, whose window ends before the current price: breakout exactly when the price is strictly above each of the previous `period` prices and the ratio exceeds the factor |
| BreakoutStrategy.TestDataBreaksOutOfPriorWindow | src/strategies/breakout_strategy.py:61 | the corrected analyze answers breakout on the test data |
| CandleStrategy.Highs | src/strategies/strategy.py:44 | the candles' high column |
| CandleStrategy.CandleVolumes | src/strategies/strategy.py:47 | the candles' volume column |
| CandleStrategy.CheckSignal | src/strategies/strategy.py:51-90 | a failed price read raises TypeError; the volume is the last candle's or 0; signal exactly when price > resistance and volume > average · factor |
| CandleStrategy.NoCandlesNoSignal | src/strategies/strategy.py:62-66 | without candles the volume is 0, so there is no signal |
| CandleStrategy.ConfirmationNeedsFactorBelowWindow | src/strategies/strategy.py:47-70 | the latest candle is inside its own average, so volume confirmation needs a factor below the window length |
| CandleStrategy.EntryExitLevels | src/strategies/strategy.py:92-124 | stop = 0.99 · resistance, risk = entry − stop, reward = rr · risk, take profit = entry + reward |
| CandleStrategy.LevelsAgreeWithExitTargets | src/strategies/strategy.py:104-108 | the candle strategy's stop and take profit equal those of breakout_strategy.py |
| CandleStrategy.BreakoutStrategy.constructor | src/strategies/strategy.py:15-33 | the configuration is kept and both levels start at 0 |
| CandleStrategy.BreakoutStrategy.UpdateMarketData | src/strategies/strategy.py:35-49 | no candles leaves both levels; otherwise resistance is the max of the last `periods` highs and average volume their mean |
| CandleStrategy.BreakoutStrategy.CheckBreakoutSignal | src/strategies/strategy.py:51-90 | the signal over the stored levels |
| CandleStrategy.BreakoutStrategy.CalculateEntryExitLevels | src/strategies/strategy.py:92-124 | the levels over the stored resistance and ratio |
| RiskManagement.AvailableBalance | src/core/risk_manager.py:103-124 | the account's equity, else its free collateral, else None (also when the account read failed) |
| RiskManagement.DrawdownCheck | src/core/risk_manager.py:93-101 | passes with an unknown status when the balance or the baseline is missing; otherwise passes exactly when the drawdown percent is within the maximum, with the matching reason |
| RiskManagement.DrawdownRejectsBelowFloor | src/core/risk_manager.py:96-99 | with a positive baseline the check fails exactly when the balance is below baseline · (1 − max/100) |
| RiskManagement.CapturedInitial | src/core/risk_manager.py:89-90 | a non-zero baseline is kept; a zero one is replaced by the balance, or 0 when none is available |
| RiskManagement.BaselineStable | src/core/risk_manager.py:89-90 | once non-zero, the baseline never changes over any sequence of balance reads |
| RiskManagement.BaselineIsFirstNonZero | src/core/risk_manager.py:89-90 | starting from 0 the baseline is the first non-zero balance read, and stays 0 exactly when every read was 0 or missing |
| RiskManagement.RiskManager.constructor | src/core/risk_manager.py:16-36 | the limits are kept; daily P&L and baseline start at 0 |
| RiskManagement.RiskManager.Default | src/core/risk_manager.py:16-20 | the default limits 1000 USD, 10 % and 500 USD |
| RiskManagement.RiskManager.ValidatePositionSize | src/core/risk_manager.py:38-63 | passes exactly when the size is within the maximum and a balance of at least twice the size is available; each failure has its reason, in the source's order |
| RiskManagement.RiskManager.ValidateDailyLoss | src/core/risk_manager.py:65-80 | passes exactly when \|daily P&L + potential loss\| is within the limit |
| RiskManagement.RiskManager.ValidateDrawdown | src/core/risk_manager.py:82-101 | a zero baseline captures the balance of the first read (0 when unknown); the drawdown check then compares the settled baseline with the balance of a second, separate read |
| RiskManagement.RiskManager.GetAvailableBalance | src/core/risk_manager.py:103-124 | the available balance of the account read |
| RiskManagement.RiskManager.UpdateDailyPnl | src/core/risk_manager.py:126-134 | daily P&L grows by the given P&L |
| RiskManagement.RiskManager.ResetDailyPnl | src/core/risk_manager.py:136-141 | daily P&L becomes 0 |
| RiskManagement.RiskManager.CheckCircuitBreaker | src/core/risk_manager.py:143-159 | trips exactly when \|daily P&L\| exceeds the limit (checked first, without touching the baseline) or the drawdown check on its two reads fails |
| RiskManagement.RiskManager.GetRiskSummary | src/core/risk_manager.py:161-179 | the summary's fields, the balance from its own read, and the breaker flag exactly when the drawdown check on two further reads fails or \|daily P&L\| exceeds the limit |
| RiskManagement.FirstCheckComparesTwoReads | src/core/risk_manager.py:89-101 | the first drawdown check passes when its two reads agree on a positive balance, and fails when the second is below the first by more than the allowed share |
| RiskManagement.DailyLossExample | src/core/risk_manager.py:75-80 | at −400 with a 500 limit, a further −150 is refused and −50 accepted |
| RiskManagement.DailyGainRejected | src/core/risk_manager.py:75-80 | the absolute value also refuses a projected gain above the limit |
| RiskManagement.PositiveLossEasesLosingDay | src/core/risk_manager.py:75-80 | on a losing day a positive potential loss up to twice the deficit is always accepted |
| Positions.OpenLong | order_manager.py:110-122 | an opened position is a LONG, OPEN, with the given market, entry, size, levels, order id and open time |
| Positions.Close | order_manager.py:158-167 | the closed record is the position marked CLOSED with exit price, reason, P&L, percent, close time and duration |
| Positions.ExitCondition | order_manager.py:179-200 | for a LONG: stop_loss exactly when price ≤ stop; take_profit exactly when price is above the stop and at least the target; nothing for other sides |
| Positions.ExitConditionExamples | position_manager.py:108-130 | stop 950 and target 1100: 940 stops, 1150 takes profit, 1000 holds |
| Positions.SidePnl | order_manager.py:152-155 | (exit − entry) · size for a LONG, its negation otherwise |
| Positions.LongGainsIffExitAbove | order_manager.py:152-153 | a LONG of positive size gains exactly when exit > entry and loses exactly when exit < entry |
| Positions.PositionFields | src/core/order_manager.py:135-145 | the position dictionary holds market, side, entry price, size, levels and open time; `order_id`, `size_usd` and `timestamp` exactly when set |
| Positions.PositionRecord | src/core/order_manager.py:135-145 | the position dictionary adds the status and no exit fields |
| Positions.ExitFields | src/core/order_manager.py:186-195 | the exit fields: P&L, exit price and exit reason |
| Positions.ClosedRecord | src/core/order_manager.py:186-195 | the closed dictionary carries the exit fields, the status and every position field |
| Positions.ClosedRecordKeepsOpenedFields | src/core/order_manager.py:186-195 | closing keeps every opened field except the status, which becomes CLOSED |
| Positions.Round4 | order_manager.py:47 | `round(x, 4)`: within half a unit of the fourth decimal, on the 0.0001 grid |
| Positions.Round4OnGrid | order_manager.py:47 | a value already on the grid is unchanged |
| Positions.MarketOrderInfo | order_manager.py:32-57 | a zero price raises ZeroDivisionError; otherwise a MARKET IOC order of round(usd / price, 4) at that price |
| Positions.SimulatedOrderId | order_manager.py:63 | a simulated order id starts with `sim_` |
| Positions.Status | order_manager.py:60-92 | a simulated order is FILLED, a failed one FAILED, a live one reports its own status |
| Positions.FilledSize | order_manager.py:109-115 | the size the position takes: the order's size, or the live reply's size (0 when missing) |
| Positions.FilledOrderId | order_manager.py:109-120 | the order id the position takes: the simulated id, the live reply's id, "" for a failed order |
| PositionManagement.CloseAt | position_manager.py:81-106 | raises ZeroDivisionError on a zero entry (LONG) or exit (other sides); otherwise P&L by side and percent (exit/entry − 1) · 100 or (entry/exit − 1) · 100 |
| PositionManagement.PnlIsPercentOfStake | position_manager.py:47-84 | a LONG sized usd / entry earns exactly usd · percent / 100 |
| PositionManagement.TenPercentExample | position_manager.py:47-84 | 1000 USD at 1000 closed at 1100 earns 100, i.e. 10 % |
| PositionManagement.PositionManager.constructor | position_manager.py:17-31 | the market and stake are kept and there is no position |
| PositionManagement.PositionManager.OpenLongPosition | position_manager.py:33-64 | a zero entry raises and keeps the slot; otherwise a LONG of usd / entry fills the slot |
| PositionManagement.PositionManager.ClosePosition | position_manager.py:66-106 | FAILED without a position; a division by zero keeps the slot; otherwise the closed record and an empty slot |
| PositionManagement.PositionManager.CheckExitConditions | position_manager.py:108-130 | the exit rule on the slot |
| PositionManagement.PositionManager.GetPositionStatus | position_manager.py:132-142 | NO_POSITION exactly when the slot is empty, else the position |
| PositionManagement.OpenThenClose | position_manager.py:33-106 | an open followed by a close empties the slot and yields a CLOSED record at the given prices whose size · entry is the stake |
| OrderManagement.OrderManager.constructor | order_manager.py:14-30 | the configuration is kept and there is no position |
| OrderManagement.OrderManager.PlaceMarketOrder | order_manager.py:32-92 | a zero price raises; in simulation the order is FILLED with id `sim_<now>` and size round(usd/price, 4); live, the reply, a FAILED dictionary on a raise, or None passed through |
| OrderManagement.OrderManager.GetCurrentPrice | order_manager.py:202-215 | the ticker price, or on failure the position's entry, else 0 |
| OrderManagement.OrderManager.OpenLongPosition | order_manager.py:94-129 | a FILLED or simulated BUY fills the slot with the order's size and id; a None reply raises AttributeError; otherwise FAILED and the slot is kept |
| OrderManagement.OrderManager.ClosePosition | order_manager.py:131-177 | FAILED without a position; a FILLED or simulated SELL yields P&L by side and its percent of the stake and empties the slot; a zero stake raises; otherwise the slot is kept |
| OrderManagement.OrderManager.CheckExitConditions | order_manager.py:179-200 | for a LONG, stop_loss and take_profit exactly as the exit rule at the current price, and None strictly between stop and target; None without a LONG |
| OrderManagement.OrderManager.GetPositions | order_manager.py:217-232 | in simulation the slot as a list; live the client's list, or none when it raised |
| OrderManagement.NoExitWhenTickerFails | order_manager.py:193-215 | a failed ticker read prices a LONG at its entry, so one with stop < entry < target never exits on it |
| OrderManagement.SimulatedOpenAlwaysFills | order_manager.py:60-109 | in simulation a BUY at a non-zero price is always accepted at the rounded size |
| CoreOrders.PotentialLoss | src/core/order_manager.py:124-128 | the loss the daily gate is given: the negated LONG P&L of the stake's size at the stop, positive exactly when the stop is below the entry |
| CoreOrders.Opened | src/core/order_manager.py:133-147 | the opened position: a LONG, OPEN, with the order's filled size and id and the open time, also as its stored timestamp |
| CoreOrders.StampIsShared | src/core/order_manager.py:147-150 | stamping the saved position adds exactly the timestamp the position would carry itself |
| CoreOrders.TradeKeepsOpenStamp | src/core/order_manager.py:186-198 | a closed trade inherits the position's timestamp, so saving it keeps the open time and not the close time |
| CoreOrders.DailyGateCountsLossAsGain | src/core/order_manager.py:124-128 | at −450 with a 500 limit, a stop 100 below the entry passes the daily gate although the loss at the stop would take the day to −550 |
| CoreOrders.SameSecondOpensShareRecord | src/core/order_manager.py:69-150 | two simulated opens in the same second get the same id, so the second replaces the first stored position instead of adding one |
| CoreOrders.OrderManager.constructor | src/core/order_manager.py:16-36 | the configuration is kept, no position, a risk manager with the default limits and an empty data store |
| CoreOrders.OrderManager.PlaceMarketOrder | src/core/order_manager.py:38-97 | a zero price raises; in simulation a FILLED order `sim_<now>` of round(usd/price, 4); live, a raise or a None reply becomes a FAILED order, any other reply passes through |
| CoreOrders.OrderManager.OpenLongPosition | src/core/order_manager.py:99-157 | the gates in the source's order (circuit breaker on two balance reads, size on a third, zero entry, daily loss), each with its failure; when all pass, an accepted BUY fills the slot and upserts the stored position, otherwise nothing changes |
| CoreOrders.OrderManager.GetCurrentPrice | src/core/order_manager.py:236-262 | the latest candle close, else the position's entry, else 0 |
| CoreOrders.OrderManager.CloseResult | src/core/order_manager.py:176-211 | a raised order propagates; an unaccepted one is FAILED; a zero stake raises; otherwise the CLOSED trade with P&L by side, percent of the stake, close time and duration |
| CoreOrders.OrderManager.ClosePosition | src/core/order_manager.py:159-211 | FAILED without a position; a closed trade empties the slot, adds its P&L to the day and appends the stamped trade; every failure changes nothing |
| CoreOrders.OrderManager.CheckExitConditions | src/core/order_manager.py:213-234 | for a LONG, stop_loss and take_profit exactly as the exit rule at the current price, and None strictly between stop and target; None without a LONG |
| CoreOrders.OrderManager.GetPositions | src/core/order_manager.py:264-281 | in simulation the slot as a list; live the client's list, or none when it raised |
| CoreOrders.SimulatedRoundTrip | src/core/order_manager.py:99-211 | in simulation, an open then a close leaves no position, logs one trade whose P&L is (exit − entry) · round(usd/entry, 4) and adds that P&L to the day |
| DataStore.Lookup | src/core/data_manager.py:104 | `dict.get`: the value, or None for a missing key |
| DataStore.Stamped | src/core/data_manager.py:49-50 | adds a timestamp only when there is none; every other key is kept |
| DataStore.PositionId | src/core/data_manager.py:99 | the record's `order_id`, else `pos_<count>` |
| DataStore.FirstMatch | src/core/data_manager.py:101-107 | the first stored position with the same `order_id`, or the length when none matches |
| DataStore.Upsert | src/core/data_manager.py:99-110 | replaces the first position with the id in place, else appends; nothing else changes |
| DataStore.UpsertKnownIdKeepsLength | src/core/data_manager.py:99-110 | saving under a stored id never grows the list |
| DataStore.PnlValue | src/core/data_manager.py:193 | `trade.get('pnl', 0)`: 0 when missing, the number when numeric, a TypeError case otherwise |
| DataStore.Pnls | src/core/data_manager.py:193-197 | every trade's P&L, defined exactly when all are numbers |
| DataStore.Wins | src/core/data_manager.py:196 | exactly the positive P&Ls: every positive value as often as in the input, no other value |
| DataStore.Losses | src/core/data_manager.py:197 | exactly the negative P&Ls: every negative value as often as in the input, no other value |
| DataStore.FiltersKeepOrder | src/core/data_manager.py:196-197 | both comprehensions keep the input order: filtering a + b is filtering a, then b |
| DataStore.WinsAndLossesSplit | src/core/data_manager.py:193-204 | wins and losses together are at most all trades, and the total P&L is gross profit plus the loss sum |
| DataStore.LossesSum | src/core/data_manager.py:204 | the loss sum is ≤ 0, and negative exactly when there is a loss |
| DataStore.WinsSum | src/core/data_manager.py:203 | the gross profit is ≥ 0 |
| DataStore.DrawdownBounds | src/core/data_manager.py:209-219 | the running P&L is the sum, the peak is at least it and 0, and the maximum drawdown lies between 0 and the gross loss |
| DataStore.DrawdownIsLargestDrop | src/core/data_manager.py:209-219 | the maximum drawdown is at least the drop from the peak after every prefix of the trades |
| DataStore.DrawdownAttained | src/core/data_manager.py:209-219 | some prefix of the trades ends exactly the maximum drawdown below its peak, so with DrawdownIsLargestDrop the figure is the largest such drop |
| DataStore.Quotient | src/core/data_manager.py:199-206 | a quotient with q · b = a |
| DataStore.Percent | src/core/data_manager.py:199 | part / whole · 100, between 0 and 100 |
| DataStore.Report | src/core/data_manager.py:199-234 | the metrics: totals, win rate, averages (0 when there are none), profit factor (infinite exactly when there is no loss) and the breakdown |
| DataStore.MetricsInvariants | src/core/data_manager.py:192-234 | win rate in [0, 100], wins + losses ≤ total, total = gross profit − gross loss, infinite profit factor exactly without losses, drawdown within the gross loss |
| DataStore.PerformanceMetrics | src/core/data_manager.py:171-242 | the zero metrics without trades, a TypeError on a non-numeric P&L, else the metrics of the P&Ls |
| DataStore.StoredTime | src/core/data_manager.py:288 | the stored timestamp, the epoch when missing, undefined for a value that does not parse |
| DataStore.Kept | src/core/data_manager.py:286-290 | every kept trade is strictly newer than the cutoff, and there are at most as many as in the log |
| DataStore.KeptIsFilter | src/core/data_manager.py:286-290 | exactly the trades newer than the cutoff, each as often as in the log, and nothing from outside the log |
| DataStore.KeptKeepsOrder | src/core/data_manager.py:286-290 | the cleanup keeps the log order: cleaning a + b is cleaning a, then b |
| DataStore.KeptAllIsIdentity | src/core/data_manager.py:292 | keeping as many trades as there were keeps them unchanged |
| DataStore.KeptIffRecent | src/core/data_manager.py:286-290 | a trade is kept exactly when it is newer than the cutoff |
| DataStore.DataManager.constructor | src/core/data_manager.py:18-38 | empty trades, positions, state and metrics |
| DataStore.DataManager.SaveTrade | src/core/data_manager.py:40-65 | appends the stamped trade |
| DataStore.DataManager.SavePosition | src/core/data_manager.py:83-119 | upserts the stamped position under its id |
| DataStore.DataManager.SaveBotState | src/core/data_manager.py:137-153 | stores the state with the current timestamp |
| DataStore.DataManager.CalculatePerformanceMetrics | src/core/data_manager.py:171-242 | the metrics of the stored trades, kept as the saved performance when computed |
| DataStore.DataManager.CleanupOldData | src/core/data_manager.py:274-299 | keeps the trades newer than now − days · 86400; one unparsable timestamp leaves every trade in place |
| Orders.NewOrder | src/models/order.py:27-39 | a valid order exactly when the side is buy or sell, the type MARKET or LIMIT and a LIMIT has a price; each failure its ValueError, in the source's order; the fields as given, and the client id generated only when none is supplied |
| Orders.MarketBuy | src/models/order.py:80-97 | a valid buy MARKET order without a price |
| Orders.MarketSell | src/models/order.py:99-116 | a valid sell MARKET order without a price |
| Orders.LimitBuy | src/models/order.py:118-137 | a valid buy LIMIT order at the price |
| Orders.LimitSell | src/models/order.py:139-158 | a valid sell LIMIT order at the price |
| Orders.BaseDict | src/models/order.py:45-60 | the six base keys with the size as a string |
| Orders.OrderDictFields | src/models/order.py:45-77 | the base keys always; each optional key exactly when its field is set, with its value; no other key |
| Orders.ToDict | src/models/order.py:45-77 | the dictionary built key by key is the order's dictionary |
| Orders.SuppliedClientIdKept | src/models/order.py:27-29 | a supplied client id is kept and no fresh one is used |
| Orders.FactoryDicts | src/models/order.py:80-158 | the factories' dictionaries: no price on market orders, the price on limit orders, no postOnly or reduceOnly keys |
| CoreExecution.ChooseType | src/core/execution.py:60-61 | the given type, else MARKET exactly without a price and LIMIT exactly with one |
| CoreExecution.SendOrder | src/core/execution.py:38-104 | the order model's ValueError propagates; in simulation a success carrying the order's dictionary; live, the reply when non-empty, else the matching error dictionary |
| CoreExecution.PositionSize | src/core/execution.py:174-179 | `float(position.get('size', 0))`: 0 when missing, the number for numeric and numeric-text sizes, undefined otherwise |
| CoreExecution.ClosingSide | src/core/execution.py:179 | sell for a long, buy for anything else |
| CoreExecution.ClosePosition | src/core/execution.py:157-194 | nothing to close for no, an empty or a zero-size position; an error for a size that does not convert; otherwise the reply of a reduce-only MARKET order of \|size\| on the closing side |
| CoreExecution.GetAllPositions | src/core/execution.py:134-155 | the client's positions, or none when it raised or returned nothing |
| CoreExecution.CalculateExitLevels | src/core/execution.py:196-229 | buy: stop 2 % below and target at ratio · risk above; otherwise stop 2 % above and target at ratio · risk below |
| CoreExecution.ExitLevelsBracketEntry | src/core/execution.py:211-223 | with a positive price and ratio the stop and target lie on opposite sides of the entry, each side's way round |
| CoreExecution.ExitLevelsExample | tests/test_execution.py:221-235 | at 1000 with ratio 3: buy 980 / 1060, sell 1020 / 940 |
| CoreExecution.SimulationIgnoresClient | src/core/execution.py:79-86 | in simulation the answer does not depend on the client |
| CoreExecution.InvalidSideRaises | src/models/order.py:30-31 | side "long" raises the order model's ValueError |
| CoreExecution.SimulatedCloseOfLong | tests/test_execution.py:199-219 | closing a long of "0.1" sends a reduce-only sell MARKET order whose dictionary has `reduceOnly`, no `reduce_only`, and the size as text |
| CoreExecution.CloseUsesConfiguredMarket | src/core/execution.py:168-189 | the closing order names the configured market, whatever market the position was read for |
| ConfigCheck.In | src/utils.py:80-84 | Python's `in`: dictionary keys, list elements, substrings of text; TypeError for anything else |
| ConfigCheck.Get | src/utils.py:84-89 | indexing by a string key succeeds exactly on a dictionary holding the key, with its value |
| ConfigCheck.SubKeysCompleteIff | src/utils.py:82-87 | the subkey loop finds nothing missing exactly when the entry's value holds every subkey |
| ConfigCheck.CompleteIffSatisfies | src/utils.py:78-89 | check_keys completes exactly when the configuration satisfies every entry of the table, nested tables included |
| ConfigCheck.SubKeysMissingPath | src/utils.py:83-87 | a subkey check that reports a key names exactly `path + key + "." + subkey` for the first listed subkey the value lacks |
| ConfigCheck.MissingIsFirstFailure | src/utils.py:78-89 | a reported key belongs to the first entry, in table order, that the configuration does not satisfy, and is named by exactly its ReportedPath: `path + key` when the key is absent, `path + key + "." + subkey` for the first lacking subkey, or recursively the path of the nested table's first failing entry under `path + key + "."` |
| ConfigCheck.ExtendsKeepsSubKeys | src/utils.py:80-87 | an entry's key and subkeys stay present when keys are added at any depth |
| ConfigCheck.ExtraKeysNeverFail | src/utils.py:78-89 | a configuration with extra keys at any depth still satisfies every table the smaller one did |
| LegacyUtils.ValidateConfig | src/utils.py:59-91 | passes exactly when the configuration satisfies the table (grpc and rest endpoints); fails with the Portuguese Exception naming a dotted path, or a TypeError |
| LegacyUtils.ReportsFirstMissing | src/utils.py:80-87 | the message names the first unsatisfied required entry by exactly the dotted path check_keys builds for it |
| LegacyUtils.PassingConfigHasEndpoints | src/utils.py:73-89 | a passing configuration has a network.endpoints section that holds both grpc and rest |
| LegacyUtils.ExtraKeysAccepted | src/utils.py:78-91 | extra keys never make validation fail |
| LegacyUtils.CalculatePositionSize | src/utils.py:106-131 | raises ValueError exactly when entry equals stop; otherwise size · \|entry − stop\| = balance · risk |
| LegacyUtils.SizeIgnoresStopSide | src/utils.py:125 | swapping entry and stop gives the same answer |
| LegacyUtils.AgreesWithHelpers | src/utils.py:124-131 | fails exactly when the helper library's size does, and otherwise gives the same size |
| ConfigUtils.ValidateConfig | src/utils/config.py:73-106 | passes exactly when the configuration satisfies the table (rest and ws endpoints); fails with a ValueError naming a dotted path, or a TypeError |
| ConfigUtils.ReportsFirstMissing | src/utils/config.py:92-104 | the message names the first unsatisfied required entry by exactly the dotted path check_keys builds for it |
| ConfigUtils.ExtraKeysAccepted | src/utils/config.py:92-106 | extra keys never make validation fail |
| ConfigUtils.GrpcConfigPassesOlderCheck | src/utils.py:69-76 | a configuration with grpc and rest endpoints passes the older validator |
| ConfigUtils.GrpcConfigFailsNewerCheck | src/utils/config.py:83-90 | the newer validator rejects that configuration for network.endpoints.ws |
| ConfigUtils.EndpointRequirementsDiffer | src/utils/config.py:87-89 | the two layers disagree on the same configuration |
| ConfigUtils.GetEnvVar | src/utils/config.py:108-127 | the variable's value, else the default; a ValueError naming the variable exactly when it is required, unset and without a default |
| ConfigUtils.DefaultSuppressesError | src/utils/config.py:123-127 | an unset variable with a default yields the default, required or not |
| LegacyExecution.PayloadFields | src/execution.py:22-29 | the payload names the configured market, side and size; its type is MARKET exactly without a price; the price key is present exactly with one |
| LegacyExecution.ErrorReply | src/execution.py:38-41 | the error dictionary has exactly status "erro" and the detail |
| LegacyExecution.Answer | src/execution.py:31-41 | a truthy reply passes through; None or an empty one is "resposta vazia"; a raise is its message |
| LegacyExecution.SendOrder | src/execution.py:14-41 | sends the payload and answers without raising |
| LegacyExecution.AnswerIsReplyOrError | src/execution.py:31-41 | every answer is the client's own non-empty reply or an error dictionary with a detail |
| LegacyExecution.CalcularSlTp | src/execution.py:43-51 | the stop is the entry mirrored across the resistance; the target is \|entry − resistance\| · ratio above the entry |
| LegacyExecution.StopMirrorsEntry | src/execution.py:47-48 | the stop is as far from the resistance as the entry, on the other side |
| LegacyExecution.TakeProfitNotBelowEntry | src/execution.py:50 | with a non-negative ratio the target is never below the entry |
| LegacyExecution.BreakoutLevelsOrdered | src/execution.py:47-50 | above the resistance, stop < resistance < entry, and the target is above the entry for a positive ratio |
| RootMarketData.TimeframeToSeconds | market_data.py:174-194 | an empty timeframe raises IndexError; a count that is not an integer raises ValueError; m, h and d count minutes, hours and days; any other unit raises ValueError naming the timeframe |
| RootMarketData.CountOf | market_data.py:185 | the count written by `str(n)` is read back by the count part |
| RootMarketData.TimeframeUnits | market_data.py:187-192 | "Nm", "Nh" and "Nd" are 60·N, 3600·N and 86400·N seconds; an hour is 60 minutes and a day 24 hours |
| RootMarketData.OtherUnitRaises | market_data.py:193-194 | any other unit is refused, even with a valid count |
| RootMarketData.NextLatest | market_data.py:93-99 | a successful read replaces the cached price; a failed one keeps it |
| RootMarketData.AfterReadsIsLastSuccess | market_data.py:86-99 | after any reads the cache is the last successful price, or the initial one when none succeeded |
| RootMarketData.MarketData.constructor | market_data.py:18-35 | market and timeframe kept, cached price 0 |
| RootMarketData.MarketData.GetLatestPrice | market_data.py:86-99 | the cache moves to the read price, or stays on a failure, and is returned |

## Left out

- Networking, websockets, asyncio and threads: every client call is a parameter holding its answer (or the fact that it raised). The websocket handler that updates `latest_price` (market_data.py:129-140) and the service's subscription callbacks are not modelled beyond the trade handler they call.
- Logging, `connect`/`close`/context-manager plumbing and the CLI, bot loops and scripts around the core.
- Clocks and randomness: `time.time()` and `datetime.now()` are an integer `now` parameter. Several calls within one operation share one `now`. `uuid4()` is a `freshId` parameter.
- Timestamps are integer seconds. `datetime.isoformat`/`fromisoformat` strings and timezone handling are not modelled. A stored timestamp is either that integer or a value that does not parse.
- File persistence: the JSON files of the data manager are its fields. Load errors, `export_trades_to_csv`, `load_trades`/`load_positions`/`load_bot_state`, and `load_config`/`load_env`/`save_config` are not modelled.
- `consultar_posicao` in `src/execution.py` is a stub that always returns None and is not modelled.
- `fetch_candles` (market_data.py:37-84) builds a pandas DataFrame from the client's candles and is not modelled.
- Floating point: prices and sizes are exact reals, so rounding error, `inf` and NaN do not arise. An infinite profit factor is `None`. The pandas NaN of a mean or maximum over an empty window is excluded by a resistance period > 0 at construction.
- Helpers.CalculateMovingAverage: a window of 0 or below is excluded by its precondition (and so is Helpers.RollingMean's); the source passes such a window on to pandas' `rolling`, whose answer there is not modelled.
- Positions.Round4: Python's `round(x, 4)` on binary floats is modelled as exact round-half-even on reals.
- Numerals.ParseInt: accepts an optional sign and decimal digits only. `int()`'s surrounding whitespace and `_` separators are not accepted.
- `float(x)` on strings: a numeric string is a `JNumText` holding its value. Other strings are conversion failures.
- Configuration lookups such as `config['trading']['market']` inside the services are taken as already validated fields of a configuration value. A missing key there (a KeyError) is not modelled.
- CoreExecution.ClosePosition: the error reply for a size that does not convert omits the text of the caught exception.
- Configuration values are dictionaries, lists, strings and scalars. Python's `in` on other container types is not modelled.
- `get_position` of `src/core/execution.py` is the `position` parameter of `ClosePosition`; its own exception handler returns None, which is the missing-position case.

Disagreements between files of the repository are stated as lemmas rather than findings, because which side is intended cannot be told from the code:

- The daily-loss gate of `src/core/order_manager.py:124-128` receives the loss at the stop as a positive number. `validate_daily_loss` adds it to a negative daily P&L, so on a losing day the gate accepts a trade whose stop would break the limit (CoreOrders.DailyGateCountsLossAsGain, RiskManagement.PositiveLossEasesLosingDay).
- `close_position` of `src/core/execution.py` reads the position of the market it is given but places the closing order on the configured market (CoreExecution.CloseUsesConfiguredMarket).
- tests/test_execution.py:217-219 expects the order dictionary's size as the float 0.1 and a `reduce_only` key. `Order.to_dict` writes the size as a string and the key as `reduceOnly` (CoreExecution.SimulatedCloseOfLong).
- tests/test_market_data.py:179-181 expects a resistance of 1040 from five prices with a period of 10. The helper demands a full period and gives None (CoreMarketData.FivePricesGiveNoResistance).
- `src/strategies/strategy.py:10` imports `MarketData` from `src/core/market_data.py`. That module defines only `MarketDataService`, so the name resolves to the market dataclass it imports at line 14, which has no `fetch_candles`, `candles` or `get_latest_price`. `CandleStrategy` therefore takes the candles and the latest price as inputs, the interface that the root-level `market_data.py` provides.
- The two configuration validators disagree on the endpoints: `src/utils.py` requires grpc and rest, and `src/utils/config.py` requires rest and ws (ConfigUtils.EndpointRequirementsDiffer).

## Findings

| source | as written | input that shows it | evidently intended | confidence | as-written member | corrected member |
|---|---|---|---|---|---|---|
| src/strategies/breakout_strategy.py:61 | the resistance is the maximum of the last `resistance_period` prices including the current one, so `current_price > resistance` can never hold and analyze never answers breakout | the prices and volumes of tests/test_strategy.py:43-50 (period 10, last price 1080, volume ratio 3): the resistance is 1080 itself and the signal is neutral | the resistance of the `resistance_period` prices before the current one, so a price above all of them breaks out | not executed | BreakoutStrategy.BreakoutUnreachable | BreakoutStrategy.AnalyzePriorWindow |
