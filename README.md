# Intraday stock funnel: a Dafny model

This project models the rule-based core of an intraday equity trading system for Indian index stocks.
The system runs a funnel:

- a **pre-market screener** keeps stocks that gap between 0.3% and 2% and are liquid, tags news, scores them from 5 to 100 and keeps the best;
- a **live-market filter** keeps candidates with a clear trend against the 200 EMA and VWAP and enough volume and range, then annotates the nearest key level;
- a **signal engine** looks for a reversal candle plus five gates and emits BUY or SELL signals with an ATR stop and a reward:risk target, scored and ranked;
- a **risk manager** sizes positions at a fixed fraction of capital with a 20% cap, admits trades through a guard, and keeps an append-only ledger whose records go from open to closed exactly once;
- a **backtester** walks the weekdays of a date range through all of the above and reports drawdown and counts.

Beside the production package the repository keeps an older generation of the signal and risk code:
`src/trading_strategy.py`, `src/technical_indicators.py` and `src/risk_manager.py`.
These are modelled too, in the `Legacy*` modules.

One module per source file, plus four shared modules:

- `Common`: Option (pandas NaN, None, a missing key); Python's `int()` as `Trunc`; `round(x, 2)` as `Round2`; percentages that may divide by zero; and `FilterMap`, the "loop, keep what passes, append" shape every stage shares.
- `Sorting`: Python's stable `list.sort(key=..., reverse=True)` as an insertion sort, proved sorted, a permutation and stable.
- `Bars`: candles, indicator rows, the trailing-volume ratio and the 3-bar EMA-touch loop, which both signal generations use.
- `Ledger`: the trade record and the sums and counts over a ledger, which both risk managers share.

Form follows the source:

- Both `RiskManager` classes are Dafny classes whose methods update their fields. `close_trade`'s linear search is a loop.
- Each screening stage's loop is a method, proved equal to a function over its inputs. That function's properties are then proved as lemmas.
- Candle classification, scores, stops and targets are functions.
- The backtest date loop is a method driving a `RiskManager` object.

The backtest's day is specified by `Backtest.DayRun`, a function of the day's signals and the desk: the next trade id, the capital, the loss streak and the day's trade count.
It stops at the first refusal, stops with a fault where sizing raises, skips a rejected signal and trades an accepted one.
The for loop `Backtest.ExecuteSignals` is proved to append exactly DayRun's trades and to leave DayRun's desk.
DayRun, and the daily log the date loop keeps, take the decision rule, the closer and the per-day funnel as arguments.
The contracts hold for any rule, closer and funnel that agree with `Decide`, `DayTrade` and `DayFunnel` (`Follows`, `Closes`, `Funnels`), and the lemmas `RuleFollows`, `CloserCloses` and `FunnelOfFunnels` show that the backtest's own ones do.
The date loop is specified by `Backtest.DaysRun`, a fold of `NextDay` over the days: a weekend changes nothing, and a weekday resets the day's trade count, runs DayRun on that day's signals, and then either records the day or marks it faulted.
`RunDays` and `RunBacktest` are proved to leave DaysRun's results, faulted days and ledger. `DaysRunFollows` shows that DaysRun does not depend on which agreeing rule, closers and funnel are used.

Prices and volumes are `real`, and integer quantities are `int`. Python's `int()` truncation is written out as `Trunc`. Python's `round(·, 2)` is written out as `Round2`: the exact real rounded to a cent, ties to even, never more than half a cent away.

The data loader and the indicator library are inputs:

- a `Market` maps each symbol to a `Feed` of its previous close, its minute bars and its daily bars;
- EMA, ATR and VWAP are computed from the bars by their documented recurrences.

Randomness in the backtest's exit is a parameter `hitTarget`: the model proves what holds for every outcome of the draw.

Where the code and its design description disagree, the model follows the code:

- The quantity is Python's `int()` of risk over risk per share, which truncates toward zero. It is not a floor; the two differ only for a negative risk amount.
- The 20% cap, `position_value ≤ 0.2·capital`, is stated without conditions in the design description. The model proves it for non-negative capital and a positive entry.
- Invalid sizing is described as never raising. Yet `calculate_position_size` divides by the entry in its capping branch, so an entry of 0 with negative capital raises: `ZeroDivisionError` on Python floats, and `OverflowError` on numpy floats, where the division gives -inf and `int()` of it raises. This is the `SizingFault` result.
- The quality score is described as capped at 100. For a detected signal its maximum is 97.5, so the cap never binds.
- The legacy `_calculate_setup_quality` describes the distance from the 200 EMA as "closer = better trend". Its code gives 30 points for a distance above 2%, 20 above 1%, and 10 at or below 1%, so a farther price scores higher. `LegacyStrategy.TrendPoints` follows the code.
- The legacy `validate_trade_plan` takes a `capital` argument and never uses it.
- The legacy setup detectors accept a price equal to the 200 EMA or the VWAP, where the production signal engine requires it to be strictly beyond.

## Model

Proof helpers that model nothing of their own (sequence facts such as `Common.ConcatAssoc`, `Common.ConsTail`, `Common.IsSubsequence` and its lemmas, `Common.FilterMapStep`, `Common.FilterMapRanked`, `Bars.WindowSkipsFirst`, `Ledger.SignOfProduct`) and the predicates used in contracts have no row.

| member | source | states |
|---|---|---|
| Common.Trunc | production/risk_manager/position_sizing.py:49 | Python int() truncates toward zero: for x ≥ 0, n ≤ x < n+1; for x < 0, n−1 < x ≤ n |
| Common.Round2 | production/indicators/atr.py:78 | round(x, 2) is a whole number of cents within half a cent of x (ties go to the even cent) |
| Common.Round2Below | production/indicators/atr.py:78 | a value at or below a cent price rounds to at most that price |
| Common.Round2Above | production/indicators/atr.py:78 | a value at or above a cent price rounds to at least that price |
| Common.PercentOf | production/screener/pre_market.py:156 | x/base·100 is undefined exactly when base is 0; otherwise p·base = 100·x, with the sign of x for a positive base |
| Common.FilterMapMember | production/screener/pre_market.py:135-175 | an element survives a keep-and-append loop exactly when some input maps to it |
| Common.FilterMapAll | production/screener/pre_market.py:135-175 | every survivor satisfies what the per-item verdict promises |
| Common.FilterMapEmpty | production/screener/pre_market.py:135-175 | when no input passes, the loop returns an empty list |
| Sorting.SortDescCorrect | production/screener/pre_market.py:182-185 | sort(reverse=True) returns a permutation of its input, in non-increasing key order |
| Sorting.SortDescMember | production/screener/pre_market.py:182-185 | sorting neither adds nor loses an element |
| Sorting.SortDescStable | production/screener/pre_market.py:182-185 | elements with equal keys keep their input order (Python's sort is stable) |
| Bars.Window | production/screener/pre_market.py:144-148 | a minute-data load between two clock times keeps exactly the day's bars inside the window, only bars of the input, in input order |
| Bars.WindowStartsAtFirstMatch | production/screener/pre_market.py:144-153 | the first bar of a window is the earliest bar of the frame inside it |
| Bars.MaxOf | production/screener/live_market.py:167 | max() of a non-empty column is one of its values and bounds all of them |
| Bars.MinOf | production/screener/live_market.py:168 | min() of a non-empty column is one of its values and bounds all of them |
| Bars.TrailingVolumeRatio | production/screener/live_market.py:159-164 | 1.0 with fewer than lookback+1 bars; otherwise the last volume over the mean of the lookback bars before it (excluding the current bar), and 0 on a zero mean |
| Bars.TouchedEma20 | production/signal_engine/signals.py:161-175 | the loop over the last three bars with break reports a touch iff one of them has low ≤ ema_20 ≤ high |
| Ema.Alpha | production/indicators/ema.py:33 | the smoothing factor 2/(span+1) of a span ≥ 1 lies in (0, 1] |
| Ema.Calculate | production/indicators/ema.py:30-34 | same length as the input; a series shorter than the period gives all NaN, otherwise each value is the adjust=False EWM recurrence at that index |
| Ema.EmaBetweenExtremes | production/indicators/ema.py:33 | every EMA value lies between the smallest and largest input |
| Ema.EmaOfConstant | production/indicators/ema.py:33 | the EMA of a constant series is that constant |
| Ema.CalculateOnDataframe | production/indicators/ema.py:53-59 | the result keeps every input column and earlier EMA column, and adds an ema_p column for each period p, computed from the input column |
| Ema.GetTrend | production/indicators/ema.py:78-86 | sideways when an EMA is NaN; uptrend iff price > fast > slow; downtrend iff price < fast < slow, so the two exclude each other |
| Atr.TrueRange | production/indicators/atr.py:39-44 | the true range is the largest of H−L, abs(H−prevC) and abs(L−prevC), so it is at least H−L |
| Atr.TrueRanges | production/indicators/atr.py:39-44 | one true range per bar; the first bar has no previous close |
| Atr.Calculate | production/indicators/atr.py:31-47 | one value per bar; a frame shorter than the period gives all NaN; otherwise the EWM of the true ranges |
| Atr.AtrNonNegative | production/indicators/atr.py:39-47 | on bars with low ≤ high the ATR is never negative |
| Atr.StopLoss | production/indicators/atr.py:70-78 | a NaN ATR leaves the entry; otherwise within half a cent of entry − atr·mult (long) or entry + atr·mult (short) |
| Atr.VolatilityLevel | production/indicators/atr.py:92-102 | unknown iff the ATR is NaN or the price is 0; otherwise low below 1%, medium below 2%, else high |
| Vwap.VwapAt | production/indicators/vwap.py:30-37 | NaN exactly where the cumulative volume is 0; otherwise vwap·Σv = Σ tp·v over the prefix |
| Vwap.Calculate | production/indicators/vwap.py:26-39 | one value per bar (empty for an empty frame), each the VWAP of its prefix |
| Vwap.VwapWithinTypicalRange | production/indicators/vwap.py:33-37 | with non-negative volumes, VWAP lies between the lowest and highest typical price so far |
| Vwap.CalculateDailyReset | production/indicators/vwap.py:52-61 | every bar's value is the VWAP of the bars of its own calendar day up to it |
| Vwap.DailyResetStartsFresh | production/indicators/vwap.py:52-61 | nothing carries over: after bars of other days, a day's values equal the VWAP of that day alone |
| Vwap.IsAboveVwap | production/indicators/vwap.py:75-77 | false for a NaN VWAP, else price > vwap |
| Vwap.DistanceFromVwap | production/indicators/vwap.py:91-94 | 0 for a NaN or zero VWAP; otherwise (price−vwap)/vwap·100, positive iff price > vwap when vwap > 0 |
| DataValidator.MissingColumnsOf | production/data_ingest/data_validator.py:39-40 | exactly the required columns the frame lacks |
| DataValidator.EveryColumnRequired | production/data_ingest/data_validator.py:39 | the required list names all five OHLCV columns |
| DataValidator.EveryRuleChecked | production/data_ingest/data_validator.py:52-76 | the six OHLC/volume rules are all checked |
| DataValidator.CountMissing | production/data_ingest/data_validator.py:48-49 | at most the row count, and 0 iff the column has no NaN |
| DataValidator.CountViolations | production/data_ingest/data_validator.py:53-76 | at most the row count, and 0 iff no row breaks the rule |
| DataValidator.CleanRowsPassEveryCheck | production/data_ingest/data_validator.py:47-76 | rows with low ≤ open, close ≤ high, volume ≥ 0 and no NaN give zero counts everywhere |
| DataValidator.MissingValueReport | production/data_ingest/data_validator.py:47-50 | exactly one message per column with NaNs, carrying its count, in column order; no message when no cell is NaN |
| DataValidator.RuleReport | production/data_ingest/data_validator.py:52-76 | exactly one message per violated rule, carrying the number of offending bars, in the order the rules are checked; no message when no rule is broken |
| DataValidator.MissingValuesInOrder | production/data_ingest/data_validator.py:47-50 | the missing-value messages follow the column order, one per column |
| DataValidator.ViolationsInOrder | production/data_ingest/data_validator.py:52-76 | the rule messages follow the order the rules are checked, one per rule |
| DataValidator.ReportJoin | production/data_ingest/data_validator.py:47-76 | every missing-value message precedes every rule message |
| DataValidator.RowReport | production/data_ingest/data_validator.py:47-76 | the missing-value then rule messages: each with its exact positive count, every offending column and rule reported, in report order, none for clean rows |
| DataValidator.ValidateOhlcv | production/data_ingest/data_validator.py:36-79 | missing columns give exactly that one message and stop; otherwise one message per column with NaNs and one per broken rule, each with its count, the NaN messages first; valid iff no message; at most 11 messages; clean frames are valid |
| DataValidator.GapsUpToMember | production/data_ingest/data_validator.py:99-108 | a gap is reported exactly for consecutive rows more than 1.5 intervals apart |
| DataValidator.GapsInTimeOrder | production/data_ingest/data_validator.py:99-108 | on an increasing index, gaps come out in time order |
| DataValidator.CheckDataGaps | production/data_ingest/data_validator.py:93-113 | the loop returns the gaps of the whole frame, none for fewer than two rows |
| DataValidator.Present | production/data_ingest/data_validator.py:163-170 | the non-NaN cells of a column, which pandas aggregates over |
| DataValidator.SummarizeData | production/data_ingest/data_validator.py:153-173 | nothing for an empty frame; otherwise total_candles is the row count, the range runs from the first to the last timestamp, and the missing-value count of every column |
| DataValidator.SummaryPriceMin | production/data_ingest/data_validator.py:163 | price_min of the summary is NaN exactly when the low column is all NaN, and otherwise a present low that is at most every present low |
| DataValidator.SummaryPriceMax | production/data_ingest/data_validator.py:164 | price_max of the summary is NaN exactly when the high column is all NaN, and otherwise a present high that is at least every present high |
| DataValidator.PresentMin | production/data_ingest/data_validator.py:163-166 | the NaN-skipping minimum of a column is NaN iff every cell is NaN, and otherwise a present cell that is at most every present cell |
| DataValidator.PresentMax | production/data_ingest/data_validator.py:163-166 | the NaN-skipping maximum of a column is NaN iff every cell is NaN, and otherwise a present cell that is at least every present cell |
| Ledger.TradePnl | production/risk_manager/position_sizing.py:239-242 | (exit−entry)·qty for BUY, (entry−exit)·qty for SELL; positive iff the exit is on the profitable side (qty > 0); 0 iff qty is 0 or exit = entry |
| Ledger.PnlPercent | production/risk_manager/position_sizing.py:244 | NaN exactly when the invested value is 0; otherwise pct·invested = 100·pnl |
| Ledger.OpenTrade | production/risk_manager/position_sizing.py:179-196 | a new record is open with the given id and no pnl |
| Ledger.CloseOut | production/risk_manager/position_sizing.py:239-251 | closing sets status, exit price, exit time, pnl and pnl% and changes nothing else |
| Ledger.CloseOutSettled | production/risk_manager/position_sizing.py:239-251 | a closed-out trade's pnl agrees with its exit |
| Ledger.ReplaceKeepsLedger | production/risk_manager/position_sizing.py:226-251 | replacing a record by its closed form keeps ids sequential and every record settled |
| Ledger.WithStatus | production/risk_manager/position_sizing.py:268-274 | the list comprehension keeps exactly the trades with that status, in ledger order |
| Ledger.WithStatusMultiplicity | production/risk_manager/position_sizing.py:268-274 | the comprehension keeps each trade with the status as often as the ledger holds it, and no other |
| Ledger.WithStatusKeepsAll | production/risk_manager/position_sizing.py:268-274 | when every trade has the status, the comprehension is the whole ledger |
| Ledger.WinsAndLossesPartitionClosed | production/risk_manager/position_sizing.py:256-263 | every closed trade is a win (pnl > 0) or a loss (pnl ≤ 0) |
| Ledger.AppendOpen | production/risk_manager/position_sizing.py:179-196 | appending an open trade changes neither the win and loss counts nor the closed pnl |
| Ledger.AppendOpenStatus | production/risk_manager/position_sizing.py:268-274 | appending an open trade extends the open list by it and leaves the closed list unchanged |
| Ledger.AppendKeepsLedger | production/risk_manager/position_sizing.py:179-196 | appending a settled record with the next id keeps ids sequential and every record settled |
| Ledger.CloseAt | production/risk_manager/position_sizing.py:239-263 | closing one open trade adds its outcome to exactly one of wins/losses and its pnl to the closed total |
| Ledger.ClosedPnlSnoc | production/risk_manager/position_sizing.py:299 | a closed trade adds its pnl to the realised total |
| Ledger.ClosedPnlJoin | production/risk_manager/position_sizing.py:299 | the realised pnl of two ledgers end to end is the sum of theirs |
| PositionSizing.TruncBelowQuotient | production/risk_manager/position_sizing.py:49 | int(x/d) shares never cost more than x at d each |
| PositionSizing.CapLowersQuantity | production/risk_manager/position_sizing.py:53-56 | the capped quantity is no larger than the uncapped one |
| PositionSizing.CalculatePositionSize | production/risk_manager/position_sizing.py:20-67 | zero risk iff entry = stop; a sized position has position_value = qty·entry, risk_per_share = the positive entry-stop distance, risk_amount = capital·risk%/100 |
| PositionSizing.SizingFaultCase | production/risk_manager/position_sizing.py:49-58 | a sizing fault (the capping branch raises) iff the stop is off the entry, the entry is 0 and the capital is negative |
| PositionSizing.SizingWithinCap | production/risk_manager/position_sizing.py:52-58 | with capital ≥ 0 and entry > 0, position_value ≤ 20% of capital |
| PositionSizing.SizingWithinRisk | production/risk_manager/position_sizing.py:38-58 | with capital, risk% ≥ 0 and entry > 0, qty ≥ 0 and qty·risk_per_share ≤ risk_amount |
| PositionSizing.SizingUncapped | production/risk_manager/position_sizing.py:49-58 | the risk-based quantity stands whenever its value fits under the 20% cap |
| PositionSizing.SizingCapped | production/risk_manager/position_sizing.py:52-58 | when the risk-based quantity is worth more than 20% of capital, the quantity is the one 20% of capital buys at the entry |
| PositionSizing.RiskWithinAmount | production/risk_manager/position_sizing.py:49-58 | a truncated risk-based quantity, and the capped one, risk no more than the risk amount |
| PositionSizing.SizingKeepsPromise | production/risk_manager/position_sizing.py:20-67 | every result of calculate_position_size meets the whole sizing promise: zero risk, the fault case, the sized fields, the cap, the risk bound and which quantity stands |
| PositionSizing.RewardToRisk | production/risk_manager/position_sizing.py:101-102 | reward/risk when risk > 0, else 0 |
| PositionSizing.ValidateSignal | production/risk_manager/position_sizing.py:69-105 | invalid with the sizing error at zero risk, with a zero quantity, or when the position exceeds capital; otherwise valid with the sized position |
| PositionSizing.Admit | production/risk_manager/position_sizing.py:144-155 | the first failing reason in the fixed order: daily limit, loss streak, capital below 20% of initial; otherwise admitted |
| PositionSizing.Rate | production/risk_manager/position_sizing.py:306 | rate·n = 100·count |
| PositionSizing.RateBounds | production/risk_manager/position_sizing.py:306 | a count no larger than n gives a rate in [0, 100] |
| PositionSizing.PerTrade | production/risk_manager/position_sizing.py:309 | average·n = total |
| PositionSizing.RiskManager.constructor | production/risk_manager/position_sizing.py:113-134 | capital = initial capital, an empty ledger and zero counters, with the ledger invariant |
| PositionSizing.RiskManager.CanTakeTrade | production/risk_manager/position_sizing.py:136-155 | the admission guard on the current counters and capital |
| PositionSizing.RiskManager.AddTrade | production/risk_manager/position_sizing.py:157-203 | appends an open trade with id = previous length + 1, increments daily_trades, changes nothing else, keeps the invariant |
| PositionSizing.RiskManager.CloseTrade | production/risk_manager/position_sizing.py:205-266 | unknown id or a trade not open gives an error with no change; otherwise the trade is closed in place, capital grows by pnl, a win resets the loss streak, a loss (pnl ≤ 0) extends it |
| PositionSizing.RiskManager.Settle | production/risk_manager/position_sizing.py:239-263 | the closing half of close_trade for the trade found |
| PositionSizing.RiskManager.OpenTrades | production/risk_manager/position_sizing.py:268-270 | exactly the open trades of the ledger, in ledger order |
| PositionSizing.RiskManager.ClosedTrades | production/risk_manager/position_sizing.py:272-274 | exactly the closed trades of the ledger, in ledger order |
| PositionSizing.RiskManager.GetSummary | production/risk_manager/position_sizing.py:276-315 | the zero shape iff no trade is closed; otherwise win_rate = winning/closed·100 in [0, 100], wins + losses = closed, total pnl = capital − initial |
| PositionSizing.RiskManager.ResetDailyCounters | production/risk_manager/position_sizing.py:317-319 | zeroes daily_trades only; loss streak, capital and ledger are unchanged |
| Signals.DetectReversalCandle | production/signal_engine/signals.py:42-114 | none with strength 0 when the bar cannot be classified (too few bars or a zero-range candle); BUY mode gives only bullish/none and SELL mode only bearish/none; bullish has close > open and bearish close < open; first match wins: hammer/star, then engulfing, then strong candle |
| Signals.FlatCandleIsNoReversal | production/signal_engine/signals.py:81-112 | a candle with close = open is never a reversal |
| Signals.ReversalStrengths | production/signal_engine/signals.py:88-112 | a reversal found has strength 0.9, 0.8 or 0.6 |
| Signals.SignalStop | production/signal_engine/signals.py:197-198 | a NaN ATR leaves the entry; otherwise within half a cent of 1.5 ATRs below (BUY) or above (SELL) the entry |
| Signals.SignalTarget | production/signal_engine/signals.py:199 | within half a cent of entry + (entry − stop)·rr |
| Signals.StopOnRiskSide | production/indicators/atr.py:73-78 | with ATR ≥ 0 and an entry on the cent grid, a BUY stop is ≤ entry and a SELL stop ≥ entry |
| Signals.TargetOnRewardSide | production/signal_engine/signals.py:199 | with the stop on the risk side and rr ≥ 0, a BUY target is ≥ entry and a SELL target ≤ entry |
| Signals.SignalOf | production/signal_engine/signals.py:116-320 | a signal iff every gate passes: enough bars, defined indicators, strictly beyond the 200 EMA and VWAP, within the pullback or a recent EMA-20 touch, the matching reversal and the volume ratio; its fields are the last bar's |
| Signals.DetectSignal | production/signal_engine/signals.py:116-320 | detect_buy_signal / detect_sell_signal, gate by gate in the source's order, return that signal |
| Signals.DetectedSignalSides | production/signal_engine/signals.py:153-158 | a BUY signal's entry lies strictly above the 200 EMA and VWAP; with ATR and ratio ≥ 0, stop ≤ entry ≤ target (SELL mirrored) |
| Signals.BuyAndSellExclusive | production/signal_engine/signals.py:153-158 | one frame never yields both a BUY and a SELL signal |
| Signals.ScoreSignal | production/signal_engine/signals.py:339-380 | the sum of the tiered trend, volume, strength·25 and reward points, at most 100 and at least 30 for non-negative strength |
| Signals.ScoreMonotoneInVolume | production/signal_engine/signals.py:353-363 | a higher volume ratio never lowers the score |
| Signals.DetectedScoreRange | production/signal_engine/signals.py:339-380 | a detected signal scores between 45 and 97.5, so the cap never binds |
| Signals.CandidateSignal | production/signal_engine/signals.py:400-421 | bullish candidates are tried for BUY only, bearish for SELL only, candidates without data are skipped; the symbol and score are attached |
| Signals.GenerateSignals | production/signal_engine/signals.py:382-429 | the loop's signals, sorted by score descending |
| Signals.GeneratedSignals | production/signal_engine/signals.py:400-429 | the ranked list is a sorted, stable permutation of the candidates' signals; a signal appears iff some candidate yields it |
| PreMarket.IndexInfoOf | production/screener/pre_market.py:60-100 | no entry without daily data; otherwise the trend of the last close against the two EMAs, and the change from the previous close (0 on one bar) |
| PreMarket.GetIndexContext | production/screener/pre_market.py:55-107 | one entry for each configured index that has daily data |
| PreMarket.IndexTrend | production/screener/pre_market.py:397-398 | the first index's trend, sideways when it has no entry |
| PreMarket.OpeningPrice | production/screener/pre_market.py:144-153 | the first close of the 9:00–9:30 window, none when it is empty |
| PreMarket.GapPctOf | production/screener/pre_market.py:138-156 | (price − prev_close)/prev_close·100; undefined without a previous close, without an opening bar, or at a zero previous close |
| PreMarket.GapStockOf | production/screener/pre_market.py:140-175 | kept iff gap_min ≤ abs(gap) ≤ gap_max; gap up iff gap > 0; aligned iff (uptrend, up) or (downtrend, down) |
| PreMarket.ApplyGapFilter | production/screener/pre_market.py:133-188 | the loop's survivors, sorted by (aligned, abs(gap)) descending |
| PreMarket.AlignedGapsFirst | production/screener/pre_market.py:182-185 | every aligned stock precedes every non-aligned one |
| PreMarket.AvgDailyVolume | production/screener/pre_market.py:222-227 | the mean volume of the last lookback days, none without daily data |
| PreMarket.PreopenRatio | production/screener/pre_market.py:240-245 | 0 without pre-open bars; otherwise ratio·(avg/78) = pre-open volume, undefined at a zero average |
| PreMarket.LiquidStockOf | production/screener/pre_market.py:217-254 | kept iff avg ≥ min_avg_volume and (ratio ≥ min_preopen_ratio or avg > 2·min_avg_volume) |
| PreMarket.ApplyLiquidityFilter | production/screener/pre_market.py:215-264 | the loop's survivors, sorted by avg_volume descending |
| PreMarket.FirstNewsIndex | production/screener/pre_market.py:302-311 | the position of the first news row for the symbol on the day |
| PreMarket.FirstNews | production/screener/pre_market.py:302-311 | none iff the day has no news for the symbol; otherwise the first such row |
| PreMarket.NewsTag | production/screener/pre_market.py:284-315 | has_news iff the file exists and has a row for the symbol that day; news_type and news_description are that first row's, else none |
| PreMarket.ApplyNewsFilter | production/screener/pre_market.py:286-318 | never drops or reorders: the same stocks in the same order, each tagged |
| PreMarket.NoNewsTagsNothing | production/screener/pre_market.py:286-299 | without a news file or with an empty one, no stock has news |
| PreMarket.GapPoints | production/screener/pre_market.py:340-342 | the gap part of the score is in [0, 30] |
| PreMarket.LiquidityPoints | production/screener/pre_market.py:349-359 | the liquidity tier is in [5, 25] |
| PreMarket.NewsPoints | production/screener/pre_market.py:362-366 | the news part is in [0, 20], and 0 iff the stock has no news |
| PreMarket.CandidateScore | production/screener/pre_market.py:336-368 | the rounded sum of the four parts lies in [5, 100], within half a cent of the exact sum |
| PreMarket.ScoreCandidates | production/screener/pre_market.py:336-370 | every stock gets its score, in the same order |
| PreMarket.RunScreening | production/screener/pre_market.py:390-425 | the screen of the index context's trend: gap, liquidity, news, score, sort, truncate |
| PreMarket.GapSurvivor | production/screener/pre_market.py:135-175 | every gap stock is a universe symbol its own verdict keeps |
| PreMarket.LiquidSurvivor | production/screener/pre_market.py:217-254 | every liquid stock is a gap stock its own verdict keeps |
| PreMarket.ScreeningShape | production/screener/pre_market.py:401-422 | empty when no gap survives; at most max_candidates, ordered by score descending, each in [5, 100] |
| PreMarket.ScreeningProvenance | production/screener/pre_market.py:401-422 | every candidate passed both filters, carries its news tag and its own score |
| LiveMarket.IndicatorFrame | production/screener/live_market.py:79-82 | the session bars with ema_20, ema_200, vwap and atr columns, one row per bar |
| LiveMarket.LiveTrend | production/screener/live_market.py:97-105 | bullish iff price > ema_200 and > vwap; bearish iff price below both; otherwise mixed |
| LiveMarket.StrengthOf | production/screener/live_market.py:99-102 | the distance from ema_200 in percent of it, positive for a positive EMA, infinite at a zero EMA |
| LiveMarket.TrendOfRow | production/screener/live_market.py:85-117 | dropped with a NaN ema_200 or vwap or a mixed trend; otherwise tagged with the trend and its strength |
| LiveMarket.TrendStrengthPositive | production/screener/live_market.py:97-102 | a kept candidate's strength is positive when ema_200 > 0 |
| LiveMarket.ApplyTrendFilter | production/screener/live_market.py:61-129 | the loop keeps exactly the candidates with enough bars and a clear trend, in order |
| LiveMarket.RangePct | production/screener/live_market.py:170 | (high − low)/price·100, undefined at price 0 |
| LiveMarket.RangeStockOf | production/screener/live_market.py:159-178 | kept only with bars, a volume ratio ≥ min_volume_ratio and a range passing min_range_pct, where today's high and low are the true max high and min low of the bars; dropped otherwise |
| LiveMarket.ApplyVolumeRangeFilter | production/screener/live_market.py:151-190 | the loop's survivors, in order |
| LiveMarket.OpeningHigh | production/screener/live_market.py:220-226 | the max high of the first 3 bars, or of all bars when fewer |
| LiveMarket.OpeningLow | production/screener/live_market.py:220-226 | the min low of the first 3 bars, or of all bars when fewer |
| LiveMarket.YesterdayHigh | production/screener/live_market.py:230-235 | the second-to-last daily high, or price·1.02 with fewer than two daily bars |
| LiveMarket.YesterdayLow | production/screener/live_market.py:230-236 | the second-to-last daily low, or price·0.98 with fewer than two daily bars |
| LiveMarket.Swings | production/screener/live_market.py:242-256 | no more swing values than bars examined |
| LiveMarket.SwingsMember | production/screener/live_market.py:242-256 | a value is a swing iff some bar strictly exceeds (or undercuts) its two neighbours on each side |
| LiveMarket.SwingsSpaced | production/screener/live_market.py:245-256 | two swing points of one kind are at least three bars apart |
| LiveMarket.FindSwings | production/screener/live_market.py:239-256 | the index loop collects exactly the swing highs and swing lows, in order |
| LiveMarket.SwingsNone | production/screener/live_market.py:242 | fewer than five bars have no swing |
| LiveMarket.SwingsTail | production/screener/live_market.py:243 | the last two bars are never swing points |
| LiveMarket.AsLevels | production/screener/live_market.py:265-269 | each swing value becomes a named key level |
| LiveMarket.KeyLevels | production/screener/live_market.py:259-269 | yesterday's high/low, the opening range, then the last three swing highs and lows: 4 to 10 levels |
| LiveMarket.LevelDistance | production/screener/live_market.py:276 | abs((price − level)/price)·100, undefined at price 0 or a NaN level |
| LiveMarket.NearestNone | production/screener/live_market.py:272-280 | the proximity loop finds no level iff no key level is within proximity |
| LiveMarket.NearestMinimal | production/screener/live_market.py:272-280 | a level it finds is within proximity and no farther than any level within proximity |
| LiveMarket.NearestWitness | production/screener/live_market.py:272-280 | a level it finds is one of the key levels, within proximity, and strictly nearer than every earlier one within proximity (the first of equally near ones wins) |
| LiveMarket.NearestLevel | production/screener/live_market.py:272-280 | the proximity loop returns that level |
| LiveMarket.LocationOf | production/screener/live_market.py:213-297 | keeps the stock: the location stage never drops or replaces it |
| LiveMarket.LocatedNearest | production/screener/live_market.py:220-297 | the opening-range high and low are those of the first candles; the nearest level is absent iff no key level lies within proximity, and otherwise within proximity and at least as near as every near level |
| LiveMarket.ApplyLocationFilter | production/screener/live_market.py:211-304 | output length = input length, each stock located |
| LiveMarket.RunFiltering | production/screener/live_market.py:306-356 | trend, volume/range and location stages, sorted and truncated |
| LiveMarket.TrendSurvivor | production/screener/live_market.py:61-129 | a stock out of the trend stage is one of the candidates, and the trend verdict on that candidate is that stock |
| LiveMarket.VolumeRangeSurvivor | production/screener/live_market.py:151-190 | a stock out of the volume/range stage is one of its input stocks, and the volume/range verdict on that stock is that survivor |
| LiveMarket.RangeSurvivor | production/screener/live_market.py:328-335 | a stock out of the volume/range stage is a candidate both verdicts keep |
| LiveMarket.FilteringProvenance | production/screener/live_market.py:323-352 | every final stock is a candidate with a clear trend that passed the volume/range gate, located |
| LiveMarket.FilteringRanked | production/screener/live_market.py:345-352 | at most max_candidates, sorted by (trend_strength, volume_ratio) descending |
| Backtest.Weekday | production/backtester/engine.py:66 | date.weekday() of a day number is in 0..6 |
| Backtest.SimulateExit | production/backtester/engine.py:211-216 | the exit is the target when the draw hits it, else the stop |
| Backtest.LossStreak | production/risk_manager/position_sizing.py:256-263 | the trailing run of losses is no longer than the ledger |
| Backtest.LossStreakTrailing | production/risk_manager/position_sizing.py:256-263 | the streak is exactly the trailing losses: each of the last n trades has pnl ≤ 0 and the trade before them, if any, has pnl > 0 |
| Backtest.AppendClosed | production/backtester/engine.py:153-171 | appending an admitted, closed trade keeps every trade closed at its target or stop and every entry admitted, and extends or resets the streak |
| Backtest.LockedOutAfterStreak | production/backtester/engine.py:135-139 | once the loss streak reaches the limit no further trade is taken |
| Backtest.TakeTrade | production/backtester/engine.py:153-171 | opens a trade with the next id and closes it at once at the simulated exit; capital and daily count move accordingly |
| Backtest.DayTrade | production/backtester/engine.py:153-168 | a trade opened with the given id, symbol, order and quantity at the start of the day, closed there at the simulated exit |
| Backtest.RuleFollows | production/backtester/engine.py:133-150 | the manager's decision rule decides every signal as can_take_trade then validate_signal do |
| Backtest.CloserCloses | production/backtester/engine.py:153-168 | the day's closer closes each accepted signal as add_trade then close_trade do |
| Backtest.ClosedAsDayTrade | production/backtester/engine.py:153-168 | a trade so closed has its id, symbol, order and quantity, is closed at its target or stop, and enters and exits at the start of the day |
| Backtest.DayRunFollows | production/backtester/engine.py:133-171 | any rule and closer that agree with the manager's give the same run |
| Backtest.DayRunStops | production/backtester/engine.py:133-150 | the run stops at a signal only when the guard refuses it, or with a fault when the guard admits it and sizing raises; a fault stops at a signal |
| Backtest.TakeUnderLimit | production/backtester/engine.py:135-139 | a signal is traded only while the day is under its trade limit |
| Backtest.DayRunTrades | production/backtester/engine.py:133-171 | the day's trades come from its signals in score order, at most one per signal and within the daily limit, with consecutive ids, each closed at its target or stop |
| Backtest.DayRunCounts | production/backtester/engine.py:133-181 | at most one trade per signal and within the daily limit; a fault only on a day with signals |
| Backtest.DayRunAt | production/backtester/engine.py:133-171 | the run from a signal on is fixed by the decision there: a stop or fault ends it, a skip goes on, a trade comes first |
| Backtest.RunStep | production/backtester/engine.py:133-171 | one turn of the loop moves the split between today's trades and the rest of the run by one signal, or ends it |
| Backtest.Turn | production/backtester/engine.py:134-168 | the turn for one signal makes the rule's decision on the desk; a trade appends the closer's trade and moves the desk as AfterTrade says; otherwise nothing changes |
| Backtest.Pass | production/backtester/engine.py:133-171 | one pass of the for loop: the turn plus the day's tallies; a stop or fault ends the run there, otherwise the run goes on at the next signal |
| Backtest.ExecuteSignals | production/backtester/engine.py:129-171 | the loop appends exactly the trades of DayRun on the desk it starts from, reports its fault, leaves its desk, and counts its trades and their pnl, which the capital gains; the ledger stays backtested |
| Backtest.RunDay | production/backtester/engine.py:77-184 | the ledger grows by the trades DayFunnel's signals run to; no record iff that run faulted; otherwise the record of that day with the three stages' counts, the trades taken and their pnl |
| Backtest.DayFunnel | production/backtester/engine.py:79-127 | no live candidates without pre-market candidates, and no signals without live candidates |
| Backtest.SignalCandidates | production/backtester/engine.py:114 | each live stock becomes a signal candidate |
| Backtest.Cumulative | production/backtester/engine.py:240 | np.cumsum: each entry is the sum of the prefix |
| Backtest.RunningMax | production/backtester/engine.py:243 | np.maximum.accumulate: each entry is the max of the prefix |
| Backtest.MaxDrawdownIsLargestFall | production/backtester/engine.py:239-245 | the drawdown is ≥ 0, 0 without records, and the largest fall of cumulative pnl from an earlier peak |
| Backtest.Pnls | production/backtester/engine.py:239 | the daily pnl list |
| Backtest.TradingDaysBounded | production/backtester/engine.py:256-258 | trading days ≤ days and ≤ total trades ≤ total signals |
| Backtest.CalculateMetrics | production/backtester/engine.py:218-263 | the summary, counts, drawdown and results; Sharpe is 0 iff there is at most one record |
| Backtest.WeekdaysStep | production/backtester/engine.py:64-68 | one more day adds one weekday iff it is not a weekend |
| Backtest.FunnelOfFunnels | production/backtester/engine.py:79-114 | the stages of every day are those DayFunnel gives |
| Backtest.LogWeekend | production/backtester/engine.py:66-68 | a weekend adds neither a record nor a fault |
| Backtest.LogRecord | production/backtester/engine.py:173-181 | a weekday that ran to its end adds its counted record after the earlier ones |
| Backtest.LogFault | production/backtester/engine.py:183-184 | a weekday that raised joins the faulted days, and it had signals |
| Backtest.BalanceRecord | production/backtester/engine.py:170-181 | appending a day's record and its trades keeps the records balanced against the ledger |
| Backtest.BalanceFault | production/backtester/engine.py:183-184 | a day that raised keeps the trade count within the ledger |
| Backtest.DayClosersClose | production/backtester/engine.py:153-168 | the closer of every day closes its trades as DayTrade does on that day |
| Backtest.DaysRunStep | production/backtester/engine.py:64-187 | the loop one day further on is that day's turn applied to the loop so far |
| Backtest.DaysRunLogged | production/backtester/engine.py:64-187 | what the date loop leaves is a daily log of start..upTo (every weekday a record or a fault, in date order, each record counting its stages, the faulted days had signals) and the records balance against the ledger |
| Backtest.DayRunNoFault | production/backtester/engine.py:133-171 | with a non-negative initial capital a day's signal loop never raises: the guard admits only at a capital of at least 20% of it, and sizing raises only at a negative capital |
| Backtest.DaysRunNoFault | production/backtester/engine.py:64-187 | with a non-negative initial capital no day of the date loop raises, so every weekday has its record |
| Backtest.DaysRunFollows | production/backtester/engine.py:64-187 | any rule, closers and funnel that agree with the backtest's own give the same date loop: the reference run is unique |
| Backtest.BacktestDay | production/backtester/engine.py:64-187 | one turn of the date loop: a weekend leaves everything alone; a weekday resets the day count, runs the day, and appends its record, or marks the day faulted, exactly as NextDay takes the daily results, the faulted days, the ledger and the desk one day on |
| Backtest.RunDays | production/backtester/engine.py:62-187 | the while loop over start..end leaves the daily results, the faulted days, the ledger and the desk of DaysRun from the desk it started at, for a rule, closers and funnel that agree with the backtest's own |
| Backtest.RunBacktest | production/backtester/engine.py:36-192 | the daily results, the faulted days and the ledger are DaysRun's from a fresh desk (capital = initial, first id 1) under the backtest's own rule, closers and funnel; they form a daily log with records balanced against the ledger; with a non-negative initial capital no day raises; every trade is closed at its target or stop, admitted, with sequential ids; the metrics and the summary are those of that ledger |
| LegacyIndicators.Classify | src/technical_indicators.py:168-215 | the first match of hammer 0.8, bullish engulfing 0.9, shooting star 0.8, bearish engulfing 0.9, doji 0.6, bullish/bearish candle 0.5; bullish has close > open, bearish close < open |
| LegacyIndicators.DetectReversalCandle | src/technical_indicators.py:154-215 | none with strength 0 when fewer than abs(index)+2 bars exist; otherwise the classification of that bar and the one before |
| LegacyIndicators.FlatCandleIsNoReversal | src/technical_indicators.py:184-213 | close = open always gives none |
| LegacyIndicators.ReversalShape | src/technical_indicators.py:181-215 | strength ∈ {0, 0.5, 0.6, 0.8, 0.9} and the kind agrees with the candle's direction |
| LegacyIndicators.VolumeSurge | src/technical_indicators.py:229-238 | 1.0 with fewer than lookback+1 bars or a zero mean; otherwise surge·mean = the last volume, where the mean covers the preceding lookback bars |
| LegacyIndicators.SurgeReaches | src/technical_indicators.py:229-238 | with a positive mean, the surge reaches k iff the last volume reaches k times the mean |
| LegacyIndicators.LastRunSteps | src/technical_indicators.py:255-263 | the last periods+1 values rise (fall) strictly iff every one of the last periods steps does |
| LegacyIndicators.IsHigherHighHigherLow | src/technical_indicators.py:252-263 | false with fewer than periods+1 bars; otherwise true iff the highs and the lows both rise at each of the last periods steps |
| LegacyIndicators.IsLowerHighLowerLow | src/technical_indicators.py:277-288 | the mirror: highs and lows both fall at each of the last periods steps |
| LegacyIndicators.TrendChecksExclusive | src/technical_indicators.py:252-288 | for periods ≥ 1 the two checks are never both true |
| LegacyIndicators.TrendChecksShrink | src/technical_indicators.py:252-263 | a trend over more periods implies the trend over fewer |
| LegacyStrategy.SurgeOf | src/trading_strategy.py:91 | the volume surge of a frame is always a number |
| LegacyStrategy.TrendPoints | src/trading_strategy.py:216-226 | the trend part is 10, 20 or 30 |
| LegacyStrategy.SurgePoints | src/trading_strategy.py:228-238 | the surge part is in [0, 25], and 0 iff the surge is ≤ 1.0 |
| LegacyStrategy.ConsistencyPoints | src/trading_strategy.py:244-254 | 20 for a 3-period HH/HL (LH/LL for sells), 15 for a 2-period one, else 0 |
| LegacyStrategy.SetupQuality | src/trading_strategy.py:196-256 | the sum of trend, surge, strength·25 and consistency points, between 10 and 97.5 |
| LegacyStrategy.ConsistencyMonotone | src/trading_strategy.py:244-254 | the 3-period consistency implies the 2-period one |
| LegacyStrategy.SetupOf | src/trading_strategy.py:28-194 | a setup iff ≥ 5 bars, defined indicators, price ≥ ema_200 and ≥ vwap (≤ for sells), within 0.5% of ema_20 or a recent EMA-20 touch, the matching reversal and a surge ≥ 1.0; its fields are the last bar's and its quality is SetupQuality |
| LegacyStrategy.DetectSetup | src/trading_strategy.py:28-194 | detect_buy_setup / detect_sell_setup, with the touch loop, return that setup |
| LegacyStrategy.SetupsExclusive | src/trading_strategy.py:85-88 | one frame never yields both a buy and a sell setup |
| LegacyStrategy.DetectedQualityRange | src/trading_strategy.py:196-256 | a detected setup's quality lies in [22.5, 97.5] |
| LegacyStrategy.CalculatePositionSize | src/trading_strategy.py:258-288 | (0, 0) at zero risk per share; otherwise (int(risk/rps), risk), so qty·rps ≤ risk < (qty+1)·rps for risk ≥ 0 |
| LegacyStrategy.MaxWholeShares | src/trading_strategy.py:280-288 | the uncapped quantity is the most whole shares the risk covers |
| LegacyStrategy.AtrStopPrice | src/trading_strategy.py:311-320 | within half a cent of entry − atr·multiplier (BUY) or entry + atr·multiplier (SELL) |
| LegacyStrategy.AtrStopLoss | src/trading_strategy.py:311-320 | no ATR stop without an ATR value |
| LegacyStrategy.SwingStopLoss | src/trading_strategy.py:322-332 | none without bars; else within half a cent of the min low of the last 10 bars ·0.995 (BUY) or the max high ·1.005 (SELL) |
| LegacyStrategy.CalculateStopLoss | src/trading_strategy.py:290-334 | the ATR rule or the swing rule, as selected |
| LegacyStrategy.AtrStopOnRiskSide | src/trading_strategy.py:311-320 | with atr·mult ≥ 0 a BUY stop is ≤ entry and a SELL stop ≥ entry |
| LegacyStrategy.SwingStopBeyondRecentBars | src/trading_strategy.py:322-332 | with positive prices a BUY swing stop lies below every recent low and a SELL stop above every recent high |
| LegacyStrategy.CalculateTarget | src/trading_strategy.py:336-364 | within half a cent of entry + abs(entry − stop)·ratio (BUY) or entry − abs(entry − stop)·ratio (SELL) |
| LegacyStrategy.TargetOnRewardSide | src/trading_strategy.py:356-364 | for ratio ≥ 0 a BUY target is ≥ entry and a SELL target ≤ entry, whichever side the stop is on |
| LegacyStrategy.ChosenSetup | src/trading_strategy.py:388-396 | the buy setup when there is one, else the sell setup |
| LegacyStrategy.AnalyzeStock | src/trading_strategy.py:366-428 | a plan iff there are ≥ 50 bars and a setup exists, a buy setup taking precedence; the plan carries the setup's side, entry and quality, the ATR stop, and a 2:1 target iff there is a stop |
| LegacyStrategy.ScanForSetups | src/trading_strategy.py:430-461 | the loop's plans sorted by setup_quality descending |
| LegacyStrategy.ScannedPlans | src/trading_strategy.py:444-459 | the plans are a sorted, stable permutation of the candidates' plans, each with quality in [22.5, 97.5] |
| LegacyRisk.EffectiveRiskPercent | src/risk_manager.py:79 | the override unless it is None or 0, else the configured percentage |
| LegacyRisk.RiskManager.constructor | src/risk_manager.py:22-39 | the default configuration when none is given; zero counters, an empty ledger |
| LegacyRisk.RiskManager.CanTakeTrade | src/risk_manager.py:41-60 | daily limit, then loss streak, then capital below 20% of initial, else admitted |
| LegacyRisk.RiskManager.CalculatePositionSize | src/risk_manager.py:62-110 | the production sizing promise at the effective risk percentage: zero risk iff entry = stop, the fault iff entry 0 with negative capital, position_value = qty·entry ≤ 20% of non-negative capital, qty·rps ≤ risk, and the risk-based quantity unless the cap cuts it to the quantity 20% of capital buys |
| LegacyRisk.RiskManager.AddTrade | src/risk_manager.py:140-160 | appends an open trade with id = length + 1; daily_trades and total_trades each grow by one |
| LegacyRisk.RiskManager.CloseTrade | src/risk_manager.py:183-222 | unknown or closed ids give an error with no change; otherwise pnl goes into capital and total_pnl; pnl 0 is a loss |
| LegacyRisk.RiskManager.Settle | src/risk_manager.py:196-220 | the closing half of close_trade for the trade found |
| LegacyRisk.RiskManager.OpenTrades | src/risk_manager.py:224-226 | exactly the open trades, in ledger order |
| LegacyRisk.RiskManager.ClosedTrades | src/risk_manager.py:228-230 | exactly the closed trades, in ledger order |
| LegacyRisk.RiskManager.GetDailySummary | src/risk_manager.py:239-266 | the zero shape without capital fields iff nothing is closed; otherwise win rate, summed pnl (= total_pnl = capital change), average and percentages |
| LegacyRisk.RiskManager.ValidateTradePlan | src/risk_manager.py:308-344 | refused with the guard's reason iff the guard refuses; once admitted, a sizing fault iff sizing raises, invalid iff zero risk or zero quantity; an accepted plan carries the sized quantity, value and risk, potential_profit = qty·abs(target − entry) and its ratio to the risk |
| LegacyRisk.RiskManager.ResetDailyCounters | src/risk_manager.py:346-349 | zeroes daily_trades only |
| LegacyRisk.PlanIgnoresCapitalArgument | src/risk_manager.py:297-324 | the capital argument never changes the verdict |
| LegacyRisk.AcceptedPlanCapped | src/risk_manager.py:96-101 | an accepted plan's position is at most 20% of non-negative capital |

## Left out

- The data loader (`production/data_ingest/csv_loader.py`), file I/O and timezones: a `Market` of per-symbol feeds is an input. Minute-window loads are time filters and daily loads are the last N rows.
- `src/data_fetcher.py`, `src/enhanced_data_fetcher.py`, `src/demo_helper.py`, `src/ml_predictor.py`, `src/pre_market_screener.py`, `src/live_market_filter.py`, the command-line entry points, `diagnose_data.py` and sample-data generation are not part of this model. They are network access, ML, printing, or duplicates of the modelled rules.
- `analyze_stock_for_trading` fetches its own data and calls `add_all_indicators`: the model takes the frame with its indicator columns as an argument. RSI, MACD, Bollinger bands and SMA are not modelled.
- `check_outliers` is left out: it is a floating-point statistic (`std`).
- All logging and printing, including `print_summary`, is left out.
- Floating point is not modelled: all arithmetic is on exact reals, and `Round2` rounds the exact value. IEEE overflow and the float error of sums are absent.
- Division by zero and NaN are explicit. A ratio that pandas or numpy would make inf or NaN is `None` or `Infinite`, with the comparison results Python gives for them. The exception sizing raises at a zero entry (`ZeroDivisionError`, or `OverflowError` on numpy floats) is `SizingFault`; in the backtest it is the day's exception, and that day has no record.
- Dict aliasing and in-place mutation of stock and signal dicts are not modelled: each stage produces a new datatype value, and `apply_news_filter` returns a new list rather than the same list object.
- The `except` branches of the screener stages are not modelled. They catch errors (missing columns, failed loads) that the modelled inputs cannot raise.
- PreMarket.ValidConfig (at least one index, EMA spans of at least 1, as pandas needs) is a precondition of `PreMarket.RunScreening` and of the backtest methods.
- Backtest.CalculateMetrics: the Sharpe ratio is stated only for at most one record (0); for more records its value (mean over `std` times `sqrt(252)`) is left unspecified.
- Backtest.SimulateExit: the draw `np.random.random() < 0.6` is the `hitTarget` argument, so the model proves what holds for every draw, not the 60% rate.
- Backtest.Weekday: the contract states only the range 0..6; the body is the calendar rule `(day + 3) % 7`, counting days from 1970-01-01.
- DataValidator.SummarizeData: requires the five columns, since pandas raises a KeyError without them. The contract pins down the count, the time range and the missing counts (the price extremes are in DataValidator.SummaryPriceMin and DataValidator.SummaryPriceMax); it does not state the close mean or the volume figures.
- LegacyStrategy.CalculateStopLoss: the source takes a method string, and any value other than "atr" or "swing" leaves `stop_loss` unbound and raises. The model uses a two-valued `StopMethod` instead.
- LegacyIndicators.VolumeSurge: at lookback 0 pandas takes the mean of an empty slice (NaN); the model returns `None` there.
- The `timestamp=None` default of `add_trade` and `close_trade` (now from the clock: `production/risk_manager/position_sizing.py:176-177`, `:222-223`, and `src/risk_manager.py:137-138`, `:179-180`) is not modelled: the clock is outside the model, so callers pass the time.
- PreMarket.RunScreening: the `symbols=None` default to the configured universe (`production/screener/pre_market.py:389-390`) is not modelled; the caller passes the universe, as the backtest does with its own.
- DataValidator.CheckDataGaps: the default `expected_interval_minutes=5` (`production/data_ingest/data_validator.py:82`) is not modelled; the interval is an argument.
- Ema.Calculate: requires a period of at least 1. For a smaller span the source passes its length guard and pandas `ewm` raises `ValueError`; that error path is not modelled. Only the default `adjust=False` is modelled; a caller passing `adjust=True` gets pandas' bias-corrected average, which the model does not have.
- Ema.CalculateOnDataframe: requires the column to exist (the source raises `KeyError` without it) and every period to be at least 1 (`ValueError`, as above). The defaults `column='close'` and `periods=[20, 50, 200]` are not modelled: callers pass both.
- Atr.Calculate: requires a period of at least 1 (`ValueError` from `ewm` below it); the default `period=14` is not modelled, callers pass it.
- Ema.Calculate and Atr.Calculate follow the documented `adjust=False` recurrence of pandas `ewm`, not pandas' own code.
