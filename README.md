# Stock analyst services: a verified model

This project is a Dafny model of the analytics services of a small stock-analysis
application. There are seven of them:

- **technical signals**: rolling indicators over a price history, and a synthesizer that turns the latest values into tags, a strength score and a five-way recommendation. A multi-timeframe view repeats this per period;
- **earnings reaction**: the next-day and five-day returns around each earnings date, with their upside, downside and absolute-move averages and the beat and miss counts;
- **trading rules**: the earnings-surprise classifier, the risk metrics of past reactions, the per-ticker alerts and the flat export table;
- **backtests**: an earnings-event strategy with three position rules, and a one-position technical state machine;
- **portfolio ledger**: a `Portfolio` object holding cash and positions. It buys with average-cost merging, sells all or part of a holding, revalues at market prices and summarises;
- **calendar**: upcoming earnings in a window, soonest first; the high-volatility subset, largest move first; and a sector comparison with peer averages that exclude the target;
- **ticker profile**: price, market cap and valuation ratios, each taken from the first quote source that has it, with ratios only for usable inputs.

The files follow the services:

- `common.dfy`: shared records (`Option`, `Result`, the price `Bar`), sums and means, and the filter helpers.
- `technical.dfy`: the indicators.
- `signals.dfy`: the synthesizer.
- `earnings.dfy`
- `trading.dfy`
- `backtesting.dfy`
- `portfolio.dfy`
- `calendar.dfy`
- `fundamentals.dfy`

How values are represented:

- Missing values and IEEE NaN are `None`.
- A comparison with a missing value is false, as NaN comparisons are.
- Python truthiness is written out: 0 and `None` are falsy.
- Dates are integer day numbers.
- "Today" is a parameter.
- Price histories are sequences of bars in ascending date order with positive closes.
- Every value that comes from a data provider is an input: earnings events, price bars, quotes, fundamentals, and each holding's technical signal.

How the code is modelled:

- Loops that accumulate lists, totals or state are methods with loop invariants. Each is proved equal to a recursive specification function, and the source's promises are proved about that function as lemmas. Examples:
  - the synthesizer's tag list and score;
  - the reaction items;
  - the alert and export loops;
  - both backtest loops;
  - the calendar and comparison loops;
  - the portfolio revaluation.
- The portfolio is a class with `positions`, `cash` and `totalValue` fields.
  - Each method is stated as one step of a pure ledger function (`Add`, `Remove`, `Update`).
  - The ledger invariants are lemmas about those functions: distinct upper-case keys, the cash/cost-basis book, and realised PnL.

Behaviours of the source that the model keeps on purpose:

- **Reaction item misalignment.** The reaction service drops an earnings date that has no bar on or after it, then pairs the reversed return lists with the events. So an item can carry the returns of another event's date. `Earnings.DroppedDateShiftsItems` exhibits this with two events. `Earnings.ItemsMatchEventsWhenAligned` shows that items match their events when every date is covered.
- **Technical backtest exits.** Despite its five-day comment, the technical backtest exits only on the stop-loss or at the final bar, and records the bar five before the exit as the entry date.
- **MACD in a strict uptrend.** The score subtracts 1 when MACD is below its signal line with a negative histogram. So a strict uptrend with MACD below its signal scores 2, which is still a BUY (`Signals.StrictUptrendAloneIsBuy`). A score of 3 from the trend alone needs MACD level with its signal (`Signals.StrictUptrendFlatMacdScoresThree`).
- **Technical analysis needs 20 bars.** With fewer than 20 bars, the technical analysis fails. Converting the NaN 20-bar average volume to an integer raises, so `Signals.Analyze` returns an error there. The old two-bar message applies only to a single bar.

## Model

| member | source | states |
|---|---|---|
| Technical.SmaAt | api/services/technical.py:133-136 | the trailing n-bar mean at bar i exists iff at least n bars end there |
| Technical.SmaWithinWindow | api/services/technical.py:133-136 | a trailing mean lies between the smallest and largest value of its window |
| Technical.Sma | api/services/technical.py:133-138 | the latest n-bar mean exists iff the history has at least n bars |
| Technical.RollingMaxAt | api/services/technical.py:37 | the rolling maximum exists iff the window is full, bounds every value in it and is one of them |
| Technical.RollingMinAt | api/services/technical.py:36 | the rolling minimum exists iff the window is full, is below every value in it and is one of them |
| Technical.Max3 | api/services/technical.py:51 | the row maximum is one of its three terms and at least each of them |
| Technical.TrueRange | api/services/technical.py:48-51 | the true range is the largest of high-low and the two gaps to the previous close; on the first bar it is high-low |
| Technical.Atr | api/services/technical.py:46-52 | the ATR exists iff there are at least `period` bars |
| Technical.AtrNonNegative | api/services/technical.py:46-52 | with high >= low on every bar, the ATR of at least `period` bars is present and non-negative |
| Technical.StochKAt | api/services/technical.py:36-38 | %K exists only on a full window, and then iff its highest high differs from its lowest low |
| Technical.StochDAt | api/services/technical.py:39 | %D exists exactly when at least d bars exist and the last d values of %K all exist |
| Technical.MeanIfAllBetween | api/services/technical.py:39 | a full-window rolling mean of values in [lo, hi] lies in [lo, hi] |
| Technical.StochDBounds | api/services/technical.py:34-44 | %D lies in [0, 100] when every close lies inside its bar's high/low range |
| Technical.CalculateStochastic | api/services/technical.py:34-44 | %K at the latest bar needs kPeriod bars; %D needs dPeriod bars and a present %K |
| Technical.StochasticInRange | api/services/technical.py:34-44 | both readings of `calculate_stochastic` lie in [0, 100] when every close lies inside its bar's high/low range |
| Technical.StochKBounds | api/services/technical.py:34-44 | %K lies in [0, 100] when the window's close lies inside its high/low range |
| Technical.WilliamsR | api/services/technical.py:54-59 | Williams %R exists only with at least `period` bars |
| Technical.WilliamsIsStochasticMinus100 | api/services/technical.py:54-59 | over the same window Williams %R exists iff %K does and equals %K minus 100 |
| Technical.WilliamsValue | api/services/technical.py:56-58 | with a non-flat window of high h and low l, Williams %R is %K - 100 |
| Technical.ShiftedRatio | api/services/technical.py:58 | -100·(h-c)/(h-l) equals 100·(c-l)/(h-l) - 100 |
| Technical.MaxPresent | api/services/technical.py:75 | the NaN-skipping maximum is None iff all values are missing, else the largest present value |
| Technical.MinPresent | api/services/technical.py:76 | the NaN-skipping minimum is None iff all values are missing, else the smallest present value |
| Technical.SupportResistance | api/services/technical.py:69-82 | the reported current price is the latest close |
| Technical.SupportBelowPriceBelowResistance | api/services/technical.py:69-82 | with at least `window` prices, support and resistance exist and support <= current price <= resistance |
| Technical.Gain | api/services/technical.py:11 | a per-bar gain is never negative |
| Technical.Loss | api/services/technical.py:12 | a per-bar loss is never negative |
| Technical.GainLossExclusive | api/services/technical.py:10-12 | at most one of gain and loss is non-zero, and gain minus loss is the price difference (0 on the first bar) |
| Technical.RsiFrom | api/services/technical.py:13-14 | RSI is NaN iff both averages are 0, lies in [0, 100], is 100 iff only gains and 0 iff only losses |
| Technical.RsiAt | api/services/technical.py:8-14 | RSI exists only on a full window and lies in [0, 100] |
| Technical.RsiOfRisingWindow | api/services/technical.py:8-14 | a window of strictly rising closes has RSI exactly 100 |
| Technical.RsiOfFallingWindow | api/services/technical.py:8-14 | a window of strictly falling closes has RSI exactly 0 |
| Technical.VolumeRatio | api/services/technical.py:155-157 | the volume ratio times the 20-bar average is the current volume when that average is positive, else the ratio is exactly 1 |
| Technical.RatioFacts | api/services/technical.py:24 | the band ratio is 0 iff the price is on the lower band, 1 iff on the upper, and in [0, 1] iff between them |
| Technical.BandPosition | api/services/technical.py:24 | the band position exists iff the bands differ; 0 at the lower band, 1 at the upper, in [0, 1] exactly between |
| Technical.Bollinger | api/services/technical.py:16-32 | the middle band is the 20-bar mean; the bands exist together and lie 2 std either side; a squeeze holds exactly when the band width over a non-zero middle band is below 0.1; the position is the last close's place between the bands, missing without bands or when they coincide |
| Signals.StrengthScore | api/services/technical.py:164-222 | the strength score always lies in [-6, 7] |
| Signals.Classify | api/services/technical.py:237-246 | STRONG_BUY iff score >= 4, BUY iff 2..3, HOLD iff -1..1, SELL iff -3..-2, STRONG_SELL iff <= -4 |
| Signals.SumWeightsAppend | api/services/technical.py:164-234 | the weight of a concatenated tag list is the sum of the parts' weights |
| Signals.TrendWeight | api/services/technical.py:168-179 | the trend tags weigh exactly the trend points |
| Signals.RsiWeight | api/services/technical.py:182-193 | the RSI tags weigh exactly the RSI points |
| Signals.MacdWeight | api/services/technical.py:196-201 | the MACD tags weigh exactly the MACD points |
| Signals.VolumeWeight | api/services/technical.py:218-222 | the volume tags weigh exactly the volume points |
| Signals.BandWeight | api/services/technical.py:204-207 | the Bollinger position tags weigh nothing |
| Signals.SqueezeWeight | api/services/technical.py:208-209 | the squeeze tag weighs nothing |
| Signals.StochasticWeight | api/services/technical.py:212-215 | the stochastic tags weigh nothing |
| Signals.WilliamsWeight | api/services/technical.py:225-228 | the Williams tags weigh nothing |
| Signals.CciWeight | api/services/technical.py:231-234 | the CCI tags weigh nothing |
| Signals.ScoreIsTagWeight | api/services/technical.py:164-234 | the strength score is the total weight of the emitted tags |
| Signals.ScoreBoundsAreTight | api/services/technical.py:164-222 | scores 7 and -6 are both reachable |
| Signals.ScoreIgnoresOscillators | api/services/technical.py:204-234 | the Bollinger, squeeze, stochastic, Williams and CCI readings never change the score |
| Signals.LowVolumeScoresNothing | api/services/technical.py:218-222 | a volume ratio below 0.5 tags LOW_VOLUME and scores like a neutral ratio |
| Signals.OnlyTrendCheckTagsTrend | api/services/technical.py:182-234 | no check but the trend check emits a trend tag |
| Signals.TrendCheckTagsTrend | api/services/technical.py:168-179 | the trend check emits at most one tag, and it is a trend tag |
| Signals.AppendNonTrend | api/services/technical.py:182-234 | appending tags with no trend tag leaves the trend tags unchanged |
| Signals.AppendNonTrendGroups | api/services/technical.py:182-234 | appending the eight non-trend groups leaves the trend tags unchanged |
| Signals.TrendTagsFiltered | api/services/technical.py:164-234 | the trend tags of the full tag list are those of the trend check |
| Signals.TrendTagExclusive | api/services/technical.py:168-179 | at most one trend tag; STRONG_UPTREND iff the strict up chain; UPTREND iff price > MA20 > MA50 without it; the down tags mirror this when no up rule fires |
| Signals.TrendGroupRules | api/services/technical.py:168-179 | the trend check emits STRONG_UPTREND iff the strict up chain, UPTREND iff price > MA20 > MA50 without it, and the down tags mirror this when no up rule fires |
| Signals.TrendSignals | api/services/technical.py:168-179 | appends the trend tags and adds the trend points |
| Signals.RsiSignals | api/services/technical.py:182-193 | appends the RSI tags and adds the RSI points |
| Signals.MacdSignals | api/services/technical.py:196-201 | appends the MACD tags and adds the MACD points |
| Signals.BollingerSignals | api/services/technical.py:204-209 | appends the band-position and squeeze tags |
| Signals.StochasticSignals | api/services/technical.py:212-215 | appends the stochastic tags |
| Signals.VolumeSignals | api/services/technical.py:218-222 | appends the volume tags and adds the volume points |
| Signals.WilliamsSignals | api/services/technical.py:225-228 | appends the Williams tags |
| Signals.CciSignals | api/services/technical.py:231-234 | appends the CCI tags |
| Signals.Synthesize | api/services/technical.py:164-246 | the tag list, a score in [-6, 7] and the overall signal classified from that score |
| Signals.SnapshotOf | api/services/technical.py:125-157 | the snapshot's price is the latest close, its MAs are the 20- and 50-bar means, and MA50 exists iff there are 50 bars |
| Signals.NoneIfZero | api/services/technical.py:252-253 | a value is reported iff it is present and non-zero |
| Signals.ChangeOver | api/services/technical.py:129-130 | the change over `back` bars exists iff there are more than `back` bars, and is 0 iff the two closes are equal |
| Signals.PriceVs | api/services/technical.py:160-161 | the price-versus-MA figure exists iff the MA does, and is positive iff the price is above it |
| Signals.SmaOfPositive | api/services/technical.py:133-136 | a mean of positive closes is positive |
| Signals.Analyze | api/services/technical.py:110-306 | an error with no bars, with one bar and with fewer than 20; otherwise the tags, score and overall signal of the latest snapshot |
| Signals.PriceFields | api/services/technical.py:125-161 | the 1-day change; the 5- and 20-day changes exist iff enough bars exist and the price moved; MA100/MA200 are reported exactly when 100/200 bars exist, as those SMAs; price-vs-MA20/MA50 exist iff the SMA does and are positive iff the price is above it |
| Signals.PriceChanges | api/services/technical.py:128-130 | the 1-day change; the 5- and 20-day changes exist iff enough bars exist and the price moved over them |
| Signals.AverageFields | api/services/technical.py:137-161 | MA100/MA200 are reported exactly when 100/200 bars exist, as those SMAs; price-vs-MA20/MA50 exist iff the SMA does and are positive iff the price is above it |
| Signals.LongAverage | api/services/technical.py:137-138 | a long average is reported only as the SMA over a history that covers it, and over positive closes always then |
| Signals.LatestSignals | api/services/technical.py:133-165 | the snapshot of the latest indicators, with the tags, score and label synthesized from it |
| Signals.Indicators | api/services/technical.py:147-152 | the middle band is the 20-bar SMA and the bands exist iff the standard deviation does; ATR is present with 20 bars; the levels' current price is the last close |
| Signals.FullAnalysis | api/services/technical.py:125-303 | the snapshot's tags, score and signal; the 1-day change; the 5-day change reported iff it exists and is non-zero; price-vs-MA20 sign |
| Signals.TrendOf | api/services/technical.py:327 | the trend is UP iff the current price is above MA20 |
| Signals.TimeframeSignal | api/services/technical.py:322-328 | one timeframe's view is its outcome: absent when the analysis errs |
| Signals.MultiTimeframeSignals | api/services/technical.py:312-330 | the result maps each timeframe name to its view, for the timeframes whose analysis succeeded |
| Signals.OutcomeOf | api/services/technical.py:323 | a timeframe has a view iff its history has at least 20 bars |
| Signals.KeyedContents | api/services/technical.py:320-328 | the result has only listed names; a name is present iff its outcome is, and maps to that view |
| Signals.StrictUptrendFlatMacdScoresThree | api/services/technical.py:164-246 | a strict uptrend with neutral readings and MACD level with its signal tags only STRONG_UPTREND, scores 3 and gives BUY |
| Signals.StrictUptrendAloneIsBuy | api/services/technical.py:164-246 | the same uptrend with MACD below its signal tags STRONG_UPTREND and MACD_BEARISH, scores 2 and gives BUY |
| Earnings.IndexOf | api/services/earnings.py:50 | finds a bar with exactly the date, or shows there is none |
| Earnings.FirstAtOrAfter | api/services/earnings.py:51-54 | the first bar dated on or after d, or None when every bar is before it |
| Earnings.AlignIndex | api/services/earnings.py:49-55 | an aligned bar is dated on or after d; there is none iff every bar is before d |
| Earnings.AlignIndexIsFirstAtOrAfter | api/services/earnings.py:49-55 | on ascending bars the aligned bar is the first one dated on or after d |
| Earnings.ReturnsAt | api/services/earnings.py:56-67 | next-day return iff a next bar exists, (c1/c0-1)·100; five-day iff idx+5 exists; baseline at max(0, idx-1) |
| Earnings.RecordReturns | api/services/earnings.py:56-67 | one loop iteration appends exactly the returns at the aligned bar to each of the three lists |
| Earnings.AlignedReturns | api/services/earnings.py:47-68 | at most one entry per date |
| Earnings.AlignedReturnsAllKept | api/services/earnings.py:47-68 | when every date aligns, there is one entry per date, each the returns at its aligned bar |
| Earnings.ReturnsAroundDates | api/services/earnings.py:40-68 | the three lists are the columns of the aligned returns |
| Earnings.Insert | api/services/earnings.py:75 | inserting into an ascending distinct list keeps it so and adds exactly the new date |
| Earnings.SortedDistinct | api/services/earnings.py:75 | the sorted set of dates is strictly ascending with exactly the input's dates |
| Earnings.AscendingListingUnique | api/services/earnings.py:75 | two strictly ascending lists with the same members are equal |
| Earnings.SortedDatesOfNewestFirst | api/services/earnings.py:75 | for distinct newest-first events the sorted dates are the event dates reversed |
| Earnings.PairedItems | api/services/earnings.py:85-92 | zip length, and item k pairs event k with the k-th returns from the end |
| Earnings.ZipItems | api/services/earnings.py:85-92 | the zip loop pairs event k with the k-th returns counted from the end, for as many items as the shorter list |
| Earnings.BareItems | api/services/earnings.py:79 | one item per event with every return missing |
| Earnings.ValidMoves | api/services/earnings.py:94 | no more moves than items |
| Earnings.ValidMovesMembers | api/services/earnings.py:94 | a value is a valid move iff some item's next-day return is that value; none iff all are missing |
| Earnings.MeanOrNone | api/services/earnings.py:103-104 | a group average is present iff the group is non-empty |
| Earnings.CountOrNone | api/services/earnings.py:106-107 | a zero count is reported as missing, otherwise as itself |
| Earnings.UpDownPartition | api/services/earnings.py:95-96 | the up and down groups together are exactly the moves, as a multiset |
| Earnings.MovesPartition | api/services/earnings.py:94-96 | every valid move lands in exactly one of the up and down groups |
| Earnings.SummaryAverages | api/services/earnings.py:94-105 | upside present iff some move >= 0 and then >= 0; downside iff some move < 0 and then < 0; abs move iff any move and then >= 0 |
| Earnings.SummaryCounts | api/services/earnings.py:99-107 | beats missing iff no beat, misses iff no miss; counts are positive when present and together at most the number of events |
| Earnings.BeatsAndMisses | api/services/earnings.py:99-100 | beats plus misses never exceed the events |
| Earnings.NeutralSurpriseCountsNowhere | api/services/earnings.py:99-100 | an event with a missing or zero surprise changes neither count |
| Earnings.EarningsReaction | api/services/earnings.py:70-109 | upper-case ticker; no events gives no items and an empty summary; no prices gives bare items; otherwise the reversed paired items and their summary |
| Earnings.ItemsMatchEventsWhenAligned | api/services/earnings.py:75-92 | distinct newest-first events all covered by bars each get the returns of their own date |
| Earnings.DroppedDateShiftsItems | api/services/earnings.py:52-53 | an uncovered date is dropped and the remaining returns shift onto the newest event |
| Trading.SurpriseSignalOf | api/services/trading.py:34-46 | STRONG_BUY iff both beat; WEAK_BUY iff exactly one beats; SELL iff neither beats and EPS surprise < -5; HOLD otherwise |
| Trading.WinRate | api/services/trading.py:30 | the win rate is in [0, 1] and times the move count gives the gain count |
| Trading.RiskMetricsFacts | api/services/trading.py:12-32 | no sample size iff no valid moves, and then all-zero metrics; otherwise the metrics of the moves |
| Trading.MetricsOfMovesFacts | api/services/trading.py:20-31 | sample size is the move count; 0 <= avg <= max; max is one of the absolute moves and bounds them all; variance >= 0; win rate in [0, 1] and counts strict gains |
| Trading.MoveStats | api/services/trading.py:27-29 | the mean of non-negative moves is between 0 and their maximum, and the variance is non-negative |
| Trading.TickerAlertRules | api/services/trading.py:97-121 | every alert names the ticker; VALUE_OPPORTUNITY iff pe < 15 and margin > 0.2 (both truthy); HIGH_VOLATILITY iff avg move > 8; EARNINGS_SOON iff the next report is 0..5 days away; at most three |
| Trading.AllAlertsMembers | api/services/trading.py:87-126 | an alert is in the list iff it is an alert of some watched ticker |
| Trading.CheckTicker | api/services/trading.py:93-121 | one ticker's alerts are its alert rules' output |
| Trading.CheckTradingAlerts | api/services/trading.py:87-126 | the alert list is every ticker's alerts in watchlist order |
| Trading.MatchingItem | api/services/trading.py:65 | the first reaction item with the event's date, or None iff there is none |
| Trading.AllRowsCount | api/services/trading.py:57-81 | the export has exactly one row per event across the watchlist |
| Trading.RowContents | api/services/trading.py:65-80 | a row carries the event's date, surprise and signal; its returns come from the first matching item, or are missing without one |
| Trading.ExportTicker | api/services/trading.py:63-81 | one ticker's rows |
| Trading.ExportTradingData | api/services/trading.py:53-85 | all rows in watchlist order, one per event |
| Backtesting.ReportFacts | api/services/backtesting.py:78-88 | total trades and return over all trades; worst <= avg <= best, both among the PnLs and bounding them; win rate in [0, 1] counting PnL > 0; only the last `keep` trades listed |
| Backtesting.LastAtOrBefore | api/services/backtesting.py:43 | the last bar dated on or before d, or None when every bar is after it |
| Backtesting.PositionRules | api/services/backtesting.py:49-58 | surprise: +1 on STRONG/WEAK_BUY, -1 on SELL, 0 on HOLD; always_long: +1; volatility: +1 iff abs surprise > 2, else 0; unknown: 0 |
| Backtesting.Pnl | api/services/backtesting.py:61 | PnL is positive iff the move goes the position's way, and 0 iff exit equals entry |
| Backtesting.TradeForFacts | api/services/backtesting.py:39-73 | a trade exists iff bars exist before and after the report and the position is non-zero; entry is the last close on or before the day before, exit the first close on or after the day after |
| Backtesting.EarningsTrades | api/services/backtesting.py:34-73 | at most one trade per event |
| Backtesting.RunningTotals | api/services/backtesting.py:62-64 | adding a trade adds its PnL to the total, and one to the wins iff it gained |
| Backtesting.VisitEvent | api/services/backtesting.py:34-73 | appends the event's trade if any and keeps total and win count equal to those of the trades |
| Backtesting.VisitEvents | api/services/backtesting.py:30-73 | the loop's trades are those of the events in order, and its total return and win count are the sum and the number of gains of their P&Ls |
| Backtesting.BacktestEarningsStrategy | api/services/backtesting.py:12-91 | the errors for no events, no prices and no trades; otherwise the report over all trades keeping the last 10 |
| Backtesting.StopLossIsBelow95Percent | api/services/backtesting.py:143 | the stop-loss fires iff the price is below 95% of entry |
| Backtesting.Step | api/services/backtesting.py:132-152 | one bar keeps the machine well formed |
| Backtesting.Run | api/services/backtesting.py:125-152 | the machine stays well formed over any prefix of bars |
| Backtesting.StepRules | api/services/backtesting.py:132-152 | flat: enter at the close iff the entry signal holds; long: exit iff final bar or stop-loss, recording a trade with entry date at i-5 and its PnL |
| Backtesting.RunTrades | api/services/backtesting.py:125-152 | every trade exits after bar 50 at a final bar or on a stop-loss, with entry date five bars before the exit |
| Backtesting.BacktestTechnicalStrategy | api/services/backtesting.py:93-173 | the errors for no prices and no trades; otherwise the report over the machine's trades keeping the last 5 |
| Backtesting.VisitBar | api/services/backtesting.py:126-152 | one loop iteration is one machine step |
| Portfolio.Find | api/services/portfolio.py:36 | the index of the first position with the ticker, or None iff none has it |
| Portfolio.FindKeyed | api/services/portfolio.py:36 | with distinct keys a position's index is what lookup finds |
| Portfolio.Merge | api/services/portfolio.py:38-44 | shares are summed and shares times the new average price is the old cost plus the new cost |
| Portfolio.Add | api/services/portfolio.py:26-49 | insufficient cash iff cost > cash, and then nothing changes; success takes exactly the cost from cash; a new ticker becomes a new upper-case position, an existing one is merged in place |
| Portfolio.SalePrice | api/services/portfolio.py:58 | the quote when it is present and non-zero, else the entry price |
| Portfolio.Remove | api/services/portfolio.py:51-73 | no position iff the upper-case ticker is absent, and then nothing changes; a full sale deletes it and credits held·price; a partial one reduces its shares and credits sold·price |
| Portfolio.Refresh | api/services/portfolio.py:79-82 | without a usable quote the position is untouched; with one, price and PnL are set from it and nothing else changes |
| Portfolio.FirstRaise | api/services/portfolio.py:77-82 | the index of the first position whose revaluation would divide by zero |
| Portfolio.Refreshed | api/services/portfolio.py:77-82 | the first k positions revalued, the rest as they were |
| Portfolio.Update | api/services/portfolio.py:75-82 | succeeds iff no position would divide by zero, and then every position is revalued; otherwise the positions before the first zero entry price are revalued, that one gets its price and PnL but keeps its old percentage, and the rest are untouched |
| Portfolio.PnlPct | api/services/portfolio.py:118 | the percentage times (total - PnL) is the PnL times 100, and 0 when that denominator is 0 |
| Portfolio.SummaryOf | api/services/portfolio.py:88-121 | cash, the count, position value as a sum of market values, total = cash + position value, PnL as a sum, the percentage, and one row per position |
| Portfolio.HoldingRows | api/services/portfolio.py:92-111 | the loop builds the summary rows |
| Portfolio.Portfolio.constructor | api/services/portfolio.py:21-24 | no positions and 100000 in cash and total value; the key invariant `Valid` (upper-case, distinct tickers) holds |
| Portfolio.Portfolio.AddPosition | api/services/portfolio.py:26-49 | the state after the call is the ledger step `Add`; the total value is untouched; `Valid` is kept |
| Portfolio.Portfolio.RemovePosition | api/services/portfolio.py:51-73 | the state after the call is the ledger step `Remove`; the total value is untouched; `Valid` is kept |
| Portfolio.MarkPrice | api/services/portfolio.py:80-81 | the quote becomes the current price, the PnL is its move times the shares, and nothing else changes |
| Portfolio.UpdateStopsAt | api/services/portfolio.py:77-82 | revaluation stops at the first position that raises, leaving it with price and PnL written |
| Portfolio.UpdateCompletes | api/services/portfolio.py:77-82 | revaluation with no zero entry price revalues every position |
| Portfolio.Portfolio.RevalueAt | api/services/portfolio.py:78-82 | one loop step: raises iff the quote is usable and the entry price is zero, having written price and PnL; otherwise revalues the position |
| Portfolio.Portfolio.UpdatePositions | api/services/portfolio.py:75-82 | positions are revalued in order as `Update` says, including the partial writes before a division by zero; cash and total value are untouched; `Valid` is kept |
| Portfolio.Portfolio.GetPortfolioSummary | api/services/portfolio.py:84-121 | revalues first; succeeds iff revaluation did, returning the summary and storing its total value; `Valid` is kept |
| Portfolio.AddKeepsKeyed | api/services/portfolio.py:35-46 | buying keeps position keys upper-case and distinct |
| Portfolio.RemoveKeepsKeyed | api/services/portfolio.py:53-72 | selling keeps position keys upper-case and distinct |
| Portfolio.UpdateKeepsKeyed | api/services/portfolio.py:77-82 | revaluation keeps position keys upper-case and distinct |
| Portfolio.BasisUpdate | api/services/portfolio.py:43-44 | replacing one position changes the cost basis by the difference of their costs |
| Portfolio.BasisDelete | api/services/portfolio.py:65 | deleting one position removes its cost from the cost basis |
| Portfolio.AddConservesBook | api/services/portfolio.py:36-48 | a purchase raises the cost basis by exactly its cost, so cash plus cost basis is unchanged |
| Portfolio.SellAllBook | api/services/portfolio.py:60-66 | a full sale changes cash plus cost basis by its realised PnL |
| Portfolio.SellSomeBook | api/services/portfolio.py:68-73 | a partial sale changes cash plus cost basis by its realised PnL |
| Portfolio.RemoveRealizesPnl | api/services/portfolio.py:57-73 | selling a held ticker succeeds and changes cash plus cost basis by exactly (price - entry)·shares sold |
| Portfolio.MarkedValueIsBasis | api/services/portfolio.py:81-89 | for revalued positions, total market value minus total PnL is the cost basis |
| Portfolio.RefreshKeepsBasis | api/services/portfolio.py:79-82 | revaluation leaves the cost basis alone |
| Portfolio.SummaryPctOverBook | api/services/portfolio.py:86-118 | when every holding is quoted, the percentage's denominator is cash plus cost basis |
| Portfolio.TickerCaseIgnored | api/services/portfolio.py:35-53 | add and remove give the same result for a ticker and its upper-case form |
| Portfolio.AddSameKey | api/services/portfolio.py:35-46 | two tickers with the same upper-case form buy identically |
| Portfolio.RemoveSameKey | api/services/portfolio.py:53-72 | two tickers with the same upper-case form sell identically |
| Portfolio.AddThenRemoveRestores | api/services/portfolio.py:26-66 | buying a new ticker and selling it all unquoted restores the ledger exactly |
| Calendar.InsertBy | api/services/calendar.py:48 | insertion adds exactly one element |
| Calendar.SortBy | api/services/calendar.py:48 | the sort is a permutation |
| Calendar.InsertLowerBound | api/services/calendar.py:48 | insertion keeps a common lower bound of the keys |
| Calendar.InsertSorted | api/services/calendar.py:48 | insertion keeps a list sorted by key |
| Calendar.WithKeyNone | api/services/calendar.py:48 | a list with no element of key k has none after filtering |
| Calendar.InsertWithKey | api/services/calendar.py:48 | insertion places an element after every element of its key |
| Calendar.SortByFacts | api/services/calendar.py:48 | the sort is ascending by key and stable: each key's elements keep their order |
| Calendar.Upcoming | api/services/calendar.py:24-42 | a ticker's rows carry it, with days-until in [0, daysAhead] and report date = today + days-until |
| Calendar.UpcomingMembers | api/services/calendar.py:24-42 | a row belongs to a ticker's rows iff it comes from one of its events inside the window |
| Calendar.Collected | api/services/calendar.py:19-45 | every collected row has days-until in [0, daysAhead] |
| Calendar.CollectedMembers | api/services/calendar.py:19-45 | a row is collected iff it is an in-window event of a listed ticker with data |
| Calendar.UpcomingEvents | api/services/calendar.py:24-42 | the loop builds one ticker's rows |
| Calendar.GetEarningsCalendar | api/services/calendar.py:9-49 | the calendar is the collected rows sorted stably by days-until |
| Calendar.CalendarFacts | api/services/calendar.py:17-48 | the calendar is a permutation of the in-window rows, ascending by days-until, stable, with days-until in [0, daysAhead] |
| Calendar.GetHighVolatilityCalendar | api/services/calendar.py:117-130 | the default calendar's rows with avg move >= the minimum, sorted stably by descending avg move |
| Calendar.HighVolatilityFacts | api/services/calendar.py:122-128 | a row is kept iff its avg move reaches the minimum; descending by avg move; ties in calendar order |
| Calendar.NextEarnings | api/services/calendar.py:75-79 | missing iff there are no events or the first is before today, else the first report date |
| Calendar.ComparisonRows | api/services/calendar.py:69-93 | at most one row per ticker, flagged as target iff its upper-case ticker is the target's |
| Calendar.ComparisonRowsEmpty | api/services/calendar.py:69-96 | the comparison is empty iff no listed ticker has data |
| Calendar.GetSectorComparison | api/services/calendar.py:51-115 | the error iff there are no rows; otherwise the rows, the averages over non-target rows and their count |
| Calendar.PeersExcludeTarget | api/services/calendar.py:99 | the peers are exactly the rows of tickers other than the target |
| Calendar.PeerCount | api/services/calendar.py:99-114 | peer rows and target rows together account for every row |
| Calendar.AveragesFacts | api/services/calendar.py:100-108 | all four averages are 0 without peers, and otherwise each is between the smallest and largest peer value |
| Fundamentals.FirstNonNone | api/services/fundamentals.py:11-15 | None iff every value is None, else the first present one, kept even when falsy |
| Fundamentals.FirstOfTwo | api/services/fundamentals.py:41 | the first of two fallbacks when present, else the second |
| Fundamentals.PriceOf | api/services/fundamentals.py:25-30 | fast last price, else fast last close, else info current price, else the history's close |
| Fundamentals.DerivedMarketCap | api/services/fundamentals.py:36-37 | present iff shares outstanding and price are both truthy, and then their non-zero product |
| Fundamentals.MarketCapOf | api/services/fundamentals.py:33-38 | fast market cap, else info market cap, else the derived one |
| Fundamentals.GuardedRatio | api/services/fundamentals.py:44-58 | the ratio exists iff the numerator is truthy and the denominator positive, and then times the denominator gives the numerator |
| Fundamentals.BuildProfile | api/services/fundamentals.py:17-79 | upper-case ticker; price and market cap by their chains; pe trailing else forward; P/FCF and EV/EBITDA iff their guards hold; short name else long name |
| Fundamentals.ZeroMarketCapIsKept | api/services/fundamentals.py:11-15 | a zero fast market cap is kept rather than replaced, and then no P/FCF is reported |

## Left out

- Data providers: fetching earnings events, price histories, quotes and company info is not modelled. Their results are parameters: per-ticker event lists (newest first, already cut to each call's limit), bar sequences, quote maps and the fast-quote/info records. The event-table normaliser that adapts the provider's columns is not modelled either.
- Floating-point smoothing: EMA/MACD values, rolling standard deviations, CCI and the annualised rolling volatility are inputs to the model. The rolling volatility is the baseline series `vol` of the reaction returns.
- Rounding, IEEE NaN/infinity propagation and output formatting of the response dictionaries are not modelled. The numbers are unbounded reals.
- Message strings: the portfolio's success and error messages are replaced by the `Outcome` values. The formatted alert messages are replaced by the alert kind.
- Exceptions and broad `except` blocks are modelled by what they catch. In the calendar and comparison loops, a ticker without data is skipped; this is the key missing from the data map. The alert and export loops take a watchlist that holds only the tickers whose fetches succeeded. The technical analysis's messages are kept only for its three length errors.
- Clocks: `now()` and `today()` are parameters, and so is the default entry date of a purchase. Lookback windows are left to the provider and assumed to be reflected in the bars passed in.
- The quotes the portfolio reads from the price history, and each holding's technical signal, are parameters:
  - `lastPrice` for a sale;
  - a price map for revaluation;
  - a signal map, where an unmapped holding reads HOLD.
- The module-level portfolio singleton and its wrapper functions are not modelled. Those wrappers include the fallback entry price for a missing quote.
- A division by zero in the portfolio is not raised as an exception. It is modelled as an outcome, with the writes made before the division kept:
  - a merge to zero total shares (a negative purchase) gives `ZeroTotalShares` and changes nothing;
  - revaluing a zero entry price gives `ZeroEntryPrice`. Earlier positions are already revalued, and the failing one has its current price and unrealised PnL written but its old percentage.
- Portfolio.Portfolio.AddPosition: positions are an ordered sequence keyed by upper-case ticker, in insertion order, not a dictionary of shared `Position` objects. No `Position` reference escapes the ledger, so no aliasing is lost.
- Common.Upper: upper-cases ASCII letters only. Python's `str.upper` is full Unicode, including case mappings that lengthen a string ('ß' becomes "SS"); tickers are assumed to be ASCII.
- Calendar.GetEarningsCalendar: the in-place `list.sort` is modelled as a pure stable insertion sort on the sequence. The result is stated by its properties (permutation, order, stability), which determine Python's stable sort uniquely.
- Trading.MetricsOfMoves: the risk metrics' `volatility` is the variance of the absolute moves, because there is no square root over the reals. The same value is reported as the calendar rows' and comparison rows' volatility.
- Trading.TickerAlertRules: the alerts read `pe` and `profit_margin` from the ticker data, not by building the profile. Building the profile is modelled separately by `Fundamentals.BuildProfile`.
- Calendar.Upcoming: an event always has a report date, so the check for a missing report date is not modelled. The same holds for that check in the earnings backtest.
- Signals.Analyze: the EMA-12/26 values, ATR, support/resistance and band values enter the result record but are not tied to any tag.
- The market-data cache, HTTP layer, API routing and UI are outside the analytics services and are not modelled.
