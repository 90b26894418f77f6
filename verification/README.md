# Verified model of the stock price repository

A Dafny model of the deterministic trading engine of this repository and of the batch protocols around it, with proofs.
One module a component; `dafny verify dfyconfig.toml` checks everything.

- **Backtest** (`Backtest`, `BacktestFigures`, `TradeLedger`, `BacktestMoney`, `BacktestRuns`, `NoLookAhead`): the
  one-position engine as a class that trades day by day, proved against the books of the run; a declarative description
  of the trade list over closes that has exactly one solution; every figure over closes; two runs that differ in costs, or
  in how much of the history they see.
- **Indicators** (`Indicators`, `Oscillators`, `IndicatorBounds`, `IndicatorWeights`, `IndicatorLaws`, `TrendLines`,
  `PairSums`, `SupportResistance`, `ReturnAnalytics`, `Covariance`): every series method states that entry i is a function
  of the history up to day i, which is what rules out looking ahead; bounds and closed forms of the recurrences, and which
  way the indicators point on a trend; least squares and covariance through the double sum over pairs; the in-place sort
  and clustering of swing points.
- **Signals** (`Strategies`, `StrategySignals`, `SignalLaws`): entries and exits of the strategies, and what a signal says
  about the price path that gives it.
- **Daily picks** (`ScoreCurves`, `ScoreMarks`, `DailyPickScreening`, `ScreeningLaws`, `PickSelection`, `PickMessages`,
  `PickNotification`, `PickAnnouncements`, `PickEvaluation`, `VerdictPrices`): screening and scoring, optimality of the
  greedy selection under sector caps, message packing, and the create/notify and evaluate protocols over all histories of
  runs with failing steps.
- **Worker pools** (`WorkerPool`, `PoolSchedules`, `StrategyRanking`, `StrategyResults`, `RankingTotals`, `RankingLists`):
  feeder and workers as interleaved steps, the merge of worker-local totals, the totals over the stock lists, and what of
  the result depends on the schedule.
- **Imports** (`DaytradeImport`, `TradeApprox`, `EquityStats`, `Backfill`): occurrence numbers, delete-then-insert-ignore,
  grouping that conserves totals, and the checkpointed download. `Folds` has the counts and sums that the statements use.

Decimals are exact reals (`Decimals`), rounded where the program rounds for its reports, halves away from zero. Dates are
day numbers. The square root is a function with `r >= 0` and `r * r == x`. A repository is a field holding a table; a
transaction applies as a whole or not at all; a step that may fail is a parameter of the run. Closes are positive where a
position is bought, rates lie in [0,1), a bar's close lies in its range, and ticker symbols are distinct, wherever a
contract says so.

## Findings

Where the code and its own documentation differ, the model follows the code and the exact condition is proved:

- Message length: the documented limit on every body fails when the legend joins the last body, because the test leaves
  out the separator (`PickMessages.BodiesWithinIff`, `PickMessages.DocumentedLimitIff`, `PickMessages.LimitExceeded`).
- Repeated abscissae of a score curve take the earlier height, not the later as commented, except at the end
  (`ScoreCurves.LaterWinsIff`, `ScoreCurves.EarlierWins`). The six curves in use have no repeated abscissae.
- The pooled ranking equals the sequential one in every total, but the stored stock lists order ties by schedule: they are
  the sequential ones exactly with one worker or without ties (`RankingLists.StoredListIff`).
- A retried announcement shows no stock names, because the table has no column for them (`PickNotification.RetryLosesNames`).
- A pick that no successful run decides within 60 days stays unjudged for ever (`PickEvaluation.JudgedIff`).
- The backfill reports no error after an interruption whose checkpoint is saved, and moves its checkpoint past days the
  repositories refuse (`Backfill.NoErrorCompleteIff`, `Backfill.HandedAndStored`).
- `readme.md` describes an incremental import unless `replace=true` is given; the code always replaces the file's own dates.
  It deletes nothing, and loses nothing, exactly under the conditions of `DaytradeImport.NothingDeletedIff` and
  `DaytradeImport.NothingLostIff`.

## Model

| member | source | states |
|---|---|---|
| Backtest.RunBacktest | domain_service/backtest.go:133-239 | an empty or mismatched input gives the empty result; otherwise every figure is that of the trade list and the equity curve of the run, whether or not the series are collected |
| Backtest.Account.TradeOn | domain_service/backtest.go:187-206 | one day of the loop takes the running account from the books after i days to the books after i+1 days |
| Backtest.Account.CloseTrade | domain_service/backtest.go:161-185 | closing a position multiplies the realized equity by effective exit over effective entry and books the trade under its reason |
| Backtest.Account.Mark | domain_service/backtest.go:207-217 | the equity of a day is the realized equity while flat, and that at entry times close over effective entry price while a position is open |
| Backtest.TradeAllDays | domain_service/backtest.go:187-229 | after the loop the account and both series are those of the whole run |
| Backtest.TradeStats.Record | domain_service/backtest.go:32-44 | the streaming counters and sums are those of the list of returns and holds seen so far, the new trade included |
| Backtest.FillTradeStats | domain_service/backtest.go:242-260 | win rate, profit factor, average win and loss and payoff ratio are those of the list of trade returns, each with its zero guard |
| Backtest.Summarise | domain_service/backtest.go:229-239 | the figures assembled from the counters are the ones recomputed from the trade list |
| Backtest.EffectivePricesPositive | domain_service/backtest.go:97-122 | costs never make buying cheaper or selling dearer than the close, and both effective prices stay positive |
| Backtest.EffectiveFormulas | domain_service/backtest.go:97-122 | skipping a zero rate equals multiplying by one |
| BacktestMoney.CompoundedIsQuotient | domain_service/backtest.go:97-185 | the realized equity times all that was paid is all that was got, both as products over the trades' closes and rates |
| BacktestMoney.LastEquity | domain_service/backtest.go:207-229 | the last equity point, less the exit costs where the end of the data closes a position, is one plus the unrounded total return |
| BacktestMoney.RatiosOverReturns | domain_service/backtest.go:242-260 | win rate, average win and loss, profit factor and payoff ratio are the share of the days won, the mean gain and loss and their quotients over the trade returns, to the rounding |
| BacktestMoney.ReportedOverCloses | domain_service/backtest.go:161-185 | without costs a reported trade has the entry and exit close, their move, dates and days between, to half a millionth |
| BacktestMoney.ReportedEquityOverDays | domain_service/backtest.go:207-217 | the equity reported for a day is that of the curve, to half a millionth |
| BacktestMoney.HoldsAddUp | domain_service/backtest.go:229-239 | the holding days behind the average are the exit days less the entry days |
| TradeLedger.LedgerIsLedger | domain_service/backtest.go:187-229 | every trade enters on the first signal day free of a position, exits on the first later day a rule fires, and no signal on a flat day is passed over |
| TradeLedger.LedgerUnique | domain_service/backtest.go:187-229 | that description has exactly one solution: a list of trades fits it if and only if it is the list of the run |
| TradeLedger.DecisionFollowsRules | domain_service/backtest.go:69-91 | the loop's decision, on the return since entry, is none exactly when the close is strictly between stop and target and neither limit nor signal calls, and otherwise the rule that calls first, all in terms of closes |
| TradeLedger.TradesOverCloses | domain_service/backtest.go:187-229 | a trade that took its profit closes at least the target above its entry close, one that was stopped at least the stop below it, any other ended by rule strictly between, and on no day in between has the close left that range |
| TradeLedger.ExitPrecedence | domain_service/backtest.go:69-91 | profit target before stop before holding limit before strategy signal; no exit exactly when none of the four applies |
| TradeLedger.HoldAndOrder | domain_service/backtest.go:187-229 | no hold exceeds max(1, MaxHoldDays), a trade starts no earlier than the one before it ended, and only the last can end with the data |
| BacktestRuns.CostsDoNotTrade | domain_service/backtest.go:187-219 | two runs that differ only in commission and slippage make the same trades, with the same days and reasons |
| BacktestRuns.CompoundedShrinks | domain_service/backtest.go:128-185 | over the same trades dearer execution never compounds to more |
| BacktestRuns.CostsNeverHelp | domain_service/backtest.go:133-239 | higher costs change no date and no reason and never raise the reported total return |
| BacktestRuns.PrefixRuns | domain_service/backtest.go:187-219 | the books after i days are those of any longer history |
| BacktestRuns.PrefixBacktest | domain_service/backtest.go:133-239 | a backtest of the first k days has the same equity points, has every trade the full run closed before day k at its place in the list, and beyond those at most one it is forced to end |
| NoLookAhead.BacktestStrategy | usecase/backtest_interactor.go:38-96 | the chain from prices over signals to the reported figures, for every strategy and both exit modes; fewer than 80 days report nothing |
| NoLookAhead.SignalsOfPrefix | domain_service/strategy_signals.go:40-75 | entry and exit signals on the first k days are the first k signals on the whole series, for every strategy |
| NoLookAhead.NoLookAhead | domain_service/backtest.go:133-239 | end to end, nothing before day k depends on prices from day k on: signals, equity points and the trades closed before k are the same, and the shorter history adds at most one forced trade |
| Indicators.CalculateEMA | domain_service/technical_indicators.go:22-44 | each entry is the average of the history up to its day: a simple mean first, then the exponential recurrence |
| Indicators.CalculateMACD | domain_service/technical_indicators.go:54-95 | line, signal and histogram of each day are those of the history up to it, none before the slow warm-up; nil on too few prices |
| Indicators.CalculateRSI | domain_service/technical_indicators.go:98-151 | each entry comes from the Wilder averages of gains and losses of the history up to its day; nil on too few prices |
| Indicators.CalculateBollingerBands | domain_service/technical_indicators.go:162-201 | each day's bands are mean, deviation and width of the last `period` closes up to that day |
| Indicators.CalculateATR | domain_service/technical_indicators.go:222-248 | each entry is the Wilder average of the true ranges up to its day; nil on too few bars |
| Indicators.SmaSeries | domain_service/strategy_signals.go:447-460 | each entry is the mean of the last `period` closes up to its day, zero before |
| Indicators.WilderAtLeast | domain_service/technical_indicators.go:222-248 | a Wilder average is never below a lower bound of everything it has seen |
| Indicators.WilderAtMost | domain_service/technical_indicators.go:222-248 | a Wilder average is never above an upper bound of everything it has seen |
| IndicatorWeights.EmaWeights | domain_service/technical_indicators.go:22-44 | closed form of the exponential average: the mean of the first prices decayed, and every later price with weight k (1-k)^age, k = 2/(period+1) |
| IndicatorWeights.WilderWeights | domain_service/technical_indicators.go:98-151 | the same for Wilder's average with k = 1/period |
| IndicatorWeights.AccumulatedWeights | domain_service/technical_indicators.go:336-360 | Wilder's accumulation is the sum of the first values decayed and every later value with weight (1-1/period)^age |
| IndicatorLaws.GainsLessLosses | domain_service/technical_indicators.go:98-151 | daily gains less daily losses add up to the way from the first price to the last, and no day has both |
| IndicatorLaws.RsiIsShare | domain_service/technical_indicators.go:98-151 | RSI * (average gain + average loss) = 100 * average gain, unless both are zero |
| IndicatorLaws.RsiOfTrends | domain_service/technical_indicators.go:98-151 | prices that fall every day have RSI 0 and prices that never fall have RSI 100 |
| IndicatorLaws.RsiRisesWithClose | domain_service/technical_indicators.go:98-151 | a higher last close never lowers the RSI |
| IndicatorLaws.BandsMeasureSpread | domain_service/technical_indicators.go:162-201 | the bands lie symmetrically about the window's mean, at the multiplier times the root of mean square less squared mean |
| IndicatorLaws.TrueRangeIsSpan | domain_service/technical_indicators.go:207-220 | the true range is the length of the shortest interval holding the bar and the close before it |
| IndicatorLaws.MovementDirection | domain_service/technical_indicators.go:308-325 | a bar moves up exactly when its high and its middle are higher than the last bar's, by as much as its high is; and down likewise |
| IndicatorLaws.DirectionalIndices | domain_service/technical_indicators.go:329-372 | bars that rise every day have a positive +DI and a -DI of zero, bars that fall every day the reverse |
| IndicatorLaws.AdxOfTrends | domain_service/technical_indicators.go:329-383 | a trend that never turns, up or down, has ADX 100 |
| IndicatorLaws.FastKExtremes | domain_service/technical_indicators.go:259-298 | %K is 100 on a close at or above every high of its window and 0 at or below every low |
| IndicatorLaws.SlowDOfLevel | domain_service/technical_indicators.go:259-298 | %D is the level %K has kept for its period, whatever came before |
| IndicatorBounds.RsiBounds | domain_service/technical_indicators.go:98-151 | the RSI of any prices lies in [0,100] |
| IndicatorBounds.AtrBounds | domain_service/technical_indicators.go:222-248 | the ATR stays between the smallest and the largest true range seen |
| IndicatorBounds.StochasticsBounds | domain_service/technical_indicators.go:259-298 | %K and %D lie in [0,100] for bars whose close is inside their range |
| IndicatorBounds.MovementWithinRange | domain_service/technical_indicators.go:308-325 | +DM and -DM are never both positive and together at most the true range |
| IndicatorBounds.AccumulatedDominates | domain_service/technical_indicators.go:336-360 | the Wilder recurrences preserve smPlus + smMinus <= smTR |
| IndicatorBounds.DirectionalIndexBounds | domain_service/technical_indicators.go:329-372 | +DI and -DI are non-negative and sum to at most 100 |
| IndicatorBounds.AdxBounds | domain_service/technical_indicators.go:329-383 | the ADX lies in [0,100] |
| Oscillators.CalculateStochastics | domain_service/technical_indicators.go:259-298 | each %K and %D is that of the bars up to its day; nil exactly on a non-positive period or too few bars |
| Oscillators.CalcDMTR | domain_service/technical_indicators.go:308-325 | directional movements and true range of each day, from that bar and the one before |
| Oscillators.CalculateADX | domain_service/technical_indicators.go:329-383 | ADX, +DI and -DI of each day are those of the bars up to it; nil exactly on a non-positive period or fewer than 2*period bars |
| StrategySignals.MACDBullishEntrySignals | domain_service/strategy_signals.go:179-209 | a day signals exactly when, on the history up to it, MACD crosses above a non-negative signal line with RSI under 70 on above-average volume |
| StrategySignals.MACDBullishExitSignals | domain_service/strategy_signals.go:79-101 | a day exits exactly when MACD crosses below its signal line on the history up to it |
| StrategySignals.BollingerBreakoutEntrySignals | domain_service/strategy_signals.go:212-246 | a day signals exactly when the close leaves the upper band out of a squeeze, on the history up to it |
| StrategySignals.BollingerBreakoutExitSignals | domain_service/strategy_signals.go:106-127 | a day exits exactly when the close falls through the middle band on the history up to it |
| StrategySignals.MovingAverageCrossEntrySignals | domain_service/strategy_signals.go:349-373 | a day signals exactly when the close comes to stand above all its averages on the history up to it |
| StrategySignals.MovingAverageCrossExitSignals | domain_service/strategy_signals.go:131-152 | a day exits exactly when the averages cross down on the history up to it |
| StrategySignals.GenericTrendBreakExitSignals | domain_service/strategy_signals.go:156-176 | a day exits exactly when the trend average is broken on the history up to it |
| StrategySignals.TriangleFormationEntrySignals | domain_service/strategy_signals.go:284-346 | a day signals exactly when the window before it converges and contracts and the day breaks out on volume |
| StrategySignals.CheckConvergence | domain_service/strategy_signals.go:297-314 | the window converges exactly when highs fall and lows rise by the slopes required |
| StrategySignals.MultipleSignalsEntrySignals | domain_service/strategy_signals.go:376-403 | a day signals exactly when at least two of the four base strategies do |
| StrategySignals.EntrySignalsByStrategy | domain_service/strategy_signals.go:40-55 | every strategy's entry signal of day i is a predicate of the prices up to day i; an unknown strategy never signals |
| StrategySignals.ExitSignalsByStrategy | domain_service/strategy_signals.go:60-75 | the same for exits |
| SignalLaws.MacdEntryMeans | domain_service/strategy_signals.go:179-209 | a MACD entry closes above its twelve-day exponential average with a risen MACD line, an RSI below 70 and more volume than the five days before had on average |
| SignalLaws.TriangleEntryMeans | domain_service/strategy_signals.go:284-346 | a triangle entry closes above every high of the twenty days before, on half as much volume again, out of a window whose highs do not all rise, lows do not all fall and ranges have shrunk by a fifth |
| SignalLaws.BollingerEntryMeans | domain_service/strategy_signals.go:212-246 | a breakout closes above the mean of its twenty closes, from bands narrower lately than before, on half as much volume again, with an RSI below 70 |
| SignalLaws.AverageEntryMeans | domain_service/strategy_signals.go:349-373 | an average cross closes above the means of its last 5, 25 and 75 closes, which for positive prices it did not the day before |
| SignalLaws.EntryMeans | domain_service/strategy_signals.go:40-55 | by strategy: which average, mean or high the last close has passed when its entry signal is lit |
| SignalLaws.ExitMeans | domain_service/strategy_signals.go:60-75 | by strategy: which mean the close, or which mean the short mean, has fallen through when its exit signal is lit, or that the MACD line has fallen |
| SignalLaws.MultipleMeansTwo | domain_service/strategy_signals.go:376-403 | the combined strategy signals exactly when two different base strategies do |
| SignalLaws.NoEntryWithoutRise | domain_service/strategy_signals.go:40-55 | on closes that never rise no strategy gives an entry signal |
| SignalLaws.NoExitWithoutFall | domain_service/strategy_signals.go:60-75 | on closes that never fall no strategy but the MACD gives an exit signal |
| SignalLaws.FallingMarketUntraded | domain_service/backtest.go:133-239 | in a market that never rises no strategy trades and the equity stays at one |
| SignalLaws.FallingStockNotPicked | domain_service/daily_stock_pick_screening.go:57-118 | a stock whose closes never rise, or whose bars fall every day, is never a candidate |
| StrategySignals.AvgVolume | domain_service/strategy_signals.go:408-426 | mean volume of the days before, zero when there are none |
| StrategySignals.AvgBandWidth | domain_service/strategy_signals.go:429-444 | mean band width of the days up to and including the given one |
| StrategySignals.AvgPriceRange | domain_service/strategy_signals.go:525-534 | mean daily range of a window, zero for an empty one |
| StrategySignals.MaxHighInLookback | domain_service/strategy_signals.go:537-552 | highest high of the look-back, the day itself left out |
| TrendLines.FindExtrema | domain_service/strategy_signals.go:465-500 | the points collected are exactly the local extrema of the window, in order |
| TrendLines.ExtremaOverBars | domain_service/strategy_signals.go:465-500 | a point is collected exactly when it is the high, or low, of a day that is a local extreme |
| TrendLines.DenominatorPositive | domain_service/strategy_signals.go:506-521 | n*Sxx - Sx^2 is positive exactly for two points or more, so the zero guard fires only on fewer |
| TrendLines.SlopeFollowsExtrema | domain_service/strategy_signals.go:506-521 | strictly falling extrema give a negative slope, strictly rising ones a positive slope |
| TrendLines.NormalEquationsMinimise | domain_service/strategy_signals.go:506-521 | a solution of the normal equations has the least squared error of all lines, and any other intercept or slope has a larger one |
| TrendLines.SlopeMinimises | domain_service/strategy_signals.go:506-521 | the regression line is the unique line of least squared error, so the computed slope is the unique such slope |
| TrendLines.LocalExtremaSlope | domain_service/strategy_signals.go:465-522 | a slope comes out exactly when there are at least minPoints, and at least two, extrema, and it is the regression slope of all of them |
| PairSums.BinetCauchy | domain_service/strategy_signals.go:506-521 | the regression determinant equals the sum over all pairs of points of the squared distance of their abscissae |
| PairSums.CauchySchwarz | domain_service/return_analytics.go:207-219 | Cauchy-Schwarz for sums of products, over all pairs |
| SupportResistance.InsertionSort | domain_service/technical_indicators.go:499-504 | the in-place sort leaves a permutation in price order |
| SupportResistance.DetectSwingPoints | domain_service/technical_indicators.go:474-506 | the points are, in price order, exactly the strict swing highs and lows of the bars with a full look-back on both sides |
| SupportResistance.SwingsOverBars | domain_service/technical_indicators.go:474-498 | the points are exactly the highs above, and the lows below, those of all bars within the look-back |
| SupportResistance.ClusterSwingPoints | domain_service/technical_indicators.go:509-538 | the levels summarise consecutive, maximal clusters that make up all points, every member within tolerance of its cluster's first |
| SupportResistance.TouchesTotal | domain_service/technical_indicators.go:509-538 | the touches add up to the number of points |
| SupportResistance.LevelBetween | domain_service/technical_indicators.go:509-538 | a level lies between the first price of its cluster and, strictly, that of the next |
| SupportResistance.ClusterReach | domain_service/technical_indicators.go:509-538 | a cluster reaches at most the tolerance above its first price, its level lies in that stretch, and the next point beyond it |
| SupportResistance.LevelsStrictlyIncrease | domain_service/technical_indicators.go:509-538 | for sorted positive prices the level prices strictly increase |
| SupportResistance.LevelsUnique | domain_service/technical_indicators.go:509-538 | the points and the tolerance admit only one clustering |
| SupportResistance.CalculateSupportResistance | domain_service/technical_indicators.go:543-553 | nil exactly on a non-positive look-back or too few bars; otherwise the levels of the sorted swing points |
| ReturnAnalytics.MaxDrawdown | domain_service/return_analytics.go:98-117 | the scan over the running peak gives the worst fall from it |
| ReturnAnalytics.DrawdownIsWorstChange | domain_service/return_analytics.go:98-117 | the worst fall equals the minimum of p_j/p_i - 1 over all i <= j, is attained, and lies in (-1,0] |
| ReturnAnalytics.DailyReturns | domain_service/return_analytics.go:27-42 | one return per day after the first, zero after a zero price; nil on fewer than two prices |
| ReturnAnalytics.ReturnsTelescope | domain_service/return_analytics.go:27-54 | the product of (1 + daily return) equals 1 + cumulative return when no price but the last is zero |
| Covariance.Mean | domain_service/return_analytics.go:178-187 | mean, zero for an empty series |
| Covariance.SampleVariance | domain_service/return_analytics.go:189-201 | the sample variance is the sample covariance of a series with itself; zero on fewer than two values |
| Covariance.SampleCovariance | domain_service/return_analytics.go:207-219 | the covariance from deviations; zero on fewer than two values or unequal lengths |
| Covariance.CovarianceOverPairs | domain_service/return_analytics.go:189-219 | n (n-1) times the covariance is the sum over all pairs of the products of their differences |
| Covariance.CovarianceBound | domain_service/return_analytics.go:189-219 | cov(a,b)^2 <= var(a)*var(b) |
| Covariance.CorrelationBound | domain_service/return_analytics.go:158-169 | the correlation lies in [-1,1] for all pairs of series |
| Covariance.SelfComparison | domain_service/return_analytics.go:145-169 | beta and correlation of a moving series to itself are one |
| Covariance.BetaRemovesCovariance | domain_service/return_analytics.go:145-155 | cov(stock, benchmark) = beta * var(benchmark), also when the zero guard fires |
| DailyPickScreening.EvaluateDailyPickCandidate | domain_service/daily_stock_pick_screening.go:57-118 | a stock is a candidate exactly when it passes every filter, trends up and has a signal on the last day; its metrics and score are those of its bars |
| DailyPickScreening.CheckHardFilters | domain_service/daily_stock_pick_screening.go:121-143 | price, range and liquidity filters, with the window averages over the days up to and including the last |
| DailyPickScreening.DetectStrategies | domain_service/daily_stock_pick_screening.go:171-181 | the base strategies lit on the last day, in strategy order |
| DailyPickScreening.CandidateBounds | domain_service/daily_stock_pick_screening.go:57-118 | a candidate has 1 to 4 signals, +DI above -DI with sum at most 100, and the trading value asked for |
| ScreeningLaws.CandidatePassed | domain_service/daily_stock_pick_screening.go:57-143 | a candidate has enough bars, a last close of at least the minimum with a range, and the trading value asked for |
| ScreeningLaws.CandidateVolume | domain_service/daily_stock_pick_screening.go:121-143 | the volumes of a candidate's window, the last day's included, add up to at least the minimum a day |
| ScreeningLaws.MetricsFollowTrends | domain_service/daily_stock_pick_screening.go:57-118 | rising bars give an ADX of 100 with +DI only, falling ones with -DI only; closes that never fall give an RSI of 100, and that always fall of 0 |
| ScreeningLaws.VolatilityOverBars | domain_service/daily_stock_pick_screening.go:154-169 | the volatility metric times the close lies between any bounds of the true ranges |
| ScreeningLaws.VolumeOverBars | domain_service/daily_stock_pick_screening.go:57-118 | over earlier days of one volume the volume metric is the last day's volume over it |
| ScreeningLaws.LiquidityOverBars | domain_service/daily_stock_pick_screening.go:57-118 | the liquidity metric lies between any bounds of the window's daily trading values, the last day's included |
| ScoreCurves.CurveIsSegment | domain_service/daily_stock_pick_score.go:55-78 | with ascending abscissae the curve is, on each span, exactly the segment between its two breakpoints |
| ScoreCurves.PassesThroughBreakpoints | domain_service/daily_stock_pick_score.go:55-78 | the curve passes through every breakpoint |
| ScoreCurves.BetweenNeighbours | domain_service/daily_stock_pick_score.go:55-78 | between two breakpoints the curve stays between their heights |
| ScoreCurves.CurveWithinY | domain_service/daily_stock_pick_score.go:55-78 | the curve never leaves the range of the heights, whatever the order of the breakpoints |
| ScoreCurves.CurveMonotone | domain_service/daily_stock_pick_score.go:55-78 | a curve with rising heights is monotone over all inputs |
| ScoreCurves.RepeatedAbscissa | domain_service/daily_stock_pick_score.go:54-78 | at a repeated abscissa the first breakpoint's height is taken, except at the right-hand end |
| ScoreCurves.LaterWinsIff | domain_service/daily_stock_pick_score.go:54-78 | the comment's rule that the later of equal abscissae wins holds exactly when it ends a curve it does not also start, or the heights agree |
| ScoreCurves.EarlierWins | domain_service/daily_stock_pick_score.go:54-78 | a curve on which that rule fails |
| ScoreCurves.ScoreBounds | domain_service/daily_stock_pick_score.go:129-145 | with non-negative weights the score lies between 0 and their rounded total for all metrics |
| ScoreCurves.DefaultScoreBounds | domain_service/daily_stock_pick_score.go:31-145 | with the standard weights the score lies in [0,100] for all metrics |
| ScoreCurves.ScoreMonotone | domain_service/daily_stock_pick_score.go:129-145 | the score never falls when signal count, volume ratio, ADX or trading value rise |
| ScoreMarks.ScoreIsLinear | domain_service/daily_stock_pick_score.go:80-145 | the unrounded score is the sum of what the six factors contribute on their own |
| ScoreMarks.SignalMarks | domain_service/daily_stock_pick_score.go:80-145 | on its own the signal weight earns 30, 65 and 100 percent for one, two, and three or more signals |
| ScoreMarks.VolumeMarks | domain_service/daily_stock_pick_score.go:80-145 | the volume weight earns nothing up to the average, 40 and 70 percent at 1.5 and 2 times, all from 3 times on |
| ScoreMarks.TrendMarks | domain_service/daily_stock_pick_score.go:80-145 | the trend weight earns nothing up to ADX 15, 35 and 80 percent at 20 and 30, all from 40 on |
| ScoreMarks.VolatilityMarks | domain_service/daily_stock_pick_score.go:80-145 | the volatility weight earns all for an ATR of 2 to 5 percent of the close, nothing up to 1 or from 10 percent on |
| ScoreMarks.LiquidityMarks | domain_service/daily_stock_pick_score.go:80-145 | the liquidity weight earns nothing up to 100 million, 40 and 75 percent at 300 million and a billion, all from 5 billion on |
| ScoreMarks.OverheatMarks | domain_service/daily_stock_pick_score.go:80-145 | the overheat weight earns all at RSI 60, 40, 90, 50 and 10 percent at 30, 45, 70 and 80, nothing from 90 on |
| PickSelection.RankDailyPickCandidates | domain_service/daily_stock_pick_screening.go:186-212 | the picks are the greedy selection in score order under the sector caps, ranked from 1 |
| PickSelection.OrderUnique | domain_service/daily_stock_pick_screening.go:189-194 | with distinct tickers the ranking order has one outcome, whatever the sorting algorithm |
| PickSelection.GreedyWithinCaps | domain_service/daily_stock_pick_screening.go:199-210 | no sector with a name gets more than maxPerSector picks |
| PickSelection.GreedyIsLargest | domain_service/daily_stock_pick_screening.go:199-210 | no selection within the caps from the first k candidates is larger than the greedy one, unless that is complete |
| PickSelection.KthPickBest | domain_service/daily_stock_pick_screening.go:186-212 | the k-th pick scores at least the k-th best of any feasible selection |
| PickSelection.GreedyOptimal | domain_service/daily_stock_pick_screening.go:186-212 | no feasible selection has more members or, for non-negative scores, a higher total score |
| PickSelection.PicksFeasible | domain_service/daily_stock_pick_screening.go:186-212 | the picks are themselves a feasible selection, listed in ranking order |
| PickSelection.PicksOverScores | domain_service/daily_stock_pick_screening.go:189-194 | a pick scores at least as high as any later one, and on a tie its ticker comes first in character order |
| PickSelection.UncappedTakesTop | domain_service/daily_stock_pick_screening.go:199-210 | without a cap the picks are the first of the ranking |
| PickSelection.PicksIgnoreOrder | domain_service/daily_stock_pick_screening.go:186-212 | the picks depend on the candidates only, not on the order they arrive in |
| PickMessages.ChunkDailyStockPickBlocks | domain_service/daily_stock_pick_message.go:74-104 | chunks tile the blocks in order, none empty or split; each fits or holds one block, and could not have taken the next |
| PickMessages.ChunksConcatenate | domain_service/daily_stock_pick_message.go:74-104 | put end to end the chunks give back the blocks |
| PickMessages.GreedyStaysAhead | domain_service/daily_stock_pick_message.go:74-104 | after as many chunks the greedy packing is at least as far as any packing whose chunks fit |
| PickMessages.FewestChunks | domain_service/daily_stock_pick_message.go:74-104 | no in-order packing whose chunks all fit uses fewer chunks |
| PickMessages.FormatDailyStockPickMessages | domain_service/daily_stock_pick_message.go:19-48 | title and bodies are empty for no picks; otherwise one body a chunk, the legend joined to the last or appended |
| PickAnnouncements.DecimalReadsBack | domain_service/daily_stock_pick_message.go:19-48 | the digits of a rank in a heading read back as the rank |
| PickAnnouncements.JoinParts | domain_service/daily_stock_pick_message.go:19-48 | blocks joined in two parts are joined as a whole, in order and with one separator |
| PickMessages.HeadingWidth | domain_service/daily_stock_pick_message.go:77-78 | a heading with ranks up to 999 fits the length set aside for it |
| PickMessages.ChunkBodyWithin | domain_service/daily_stock_pick_message.go:19-48 | with at most 999 picks and blocks that fit alone, every chunk's own body keeps the limit |
| PickMessages.BodiesWithinIff | domain_service/daily_stock_pick_message.go:16-48 | for any chunks, legend and limit: all bodies keep the limit exactly when every chunk's own body does and so does the legend, joined with its separator where the test lets it join, alone where not |
| PickMessages.DocumentedLimitIff | domain_service/daily_stock_pick_message.go:16-48 | with at most 999 picks, blocks that fit alone and a legend no longer than the limit, the documented limit fails exactly when the legend joins with fewer than two runes to spare; only the last body then exceeds it, by at most two |
| PickMessages.LimitExceeded | domain_service/daily_stock_pick_message.go:16-48 | any list of blocks that fits into one body with a legend of at least four runes has, with its last block longer by the runes still free, one body that is two runes over the limit |
| PickNotification.PickStore.CreateDailyStockPicks | usecase/create_daily_stock_picks.go:62-112 | everything one run may do to rows and messages, for every request and every combination of failing steps |
| PickAnnouncements.ScreenedWithinLimits | usecase/create_daily_stock_picks.go:62-68 | without a number at most 25 picks, with a negative cap at most 4 a sector, with a cap of zero the best of all |
| PickNotification.PickStore.NotifyIfPending | usecase/create_daily_stock_picks.go:115-122 | a fully notified date is left alone; otherwise the stored rows are announced and marked |
| PickNotification.PickStore.Notify | usecase/create_daily_stock_picks.go:209-232 | success means all bodies for the picks went out in one thread and the date is marked; an error leaves the rows as they are |
| PickNotification.PickStore.SendAll | usecase/create_daily_stock_picks.go:215-224 | the bodies go out in order, all but the first as replies to the first, exactly up to the one whose sending fails, if any |
| PickNotification.PickStore.Replace | usecase/create_daily_stock_picks.go:94-105 | deleting and inserting the rows of a date happens as a whole or not at all |
| PickNotification.StepSound | usecase/create_daily_stock_picks.go:62-112 | every run keeps: a date's rows are ranked from 1, all notified or none, and notified only if announced in full |
| PickNotification.AllRunsSound | usecase/create_daily_stock_picks.go:62-232 | in every history from an empty table, whatever fails and however often it is retried, that holds at every point |
| PickNotification.SuccessMeansNotified | usecase/create_daily_stock_picks.go:62-112 | a run that returns success with picks or pending rows leaves the date notified |
| PickAnnouncements.AnnouncedInFull | usecase/create_daily_stock_picks.go:209-232 | what counts as announced is one thread under the picks' title, all replies to its first message, that contains the text of every pick and ends with the legend |
| PickNotification.NotifiedLeftAlone | usecase/create_daily_stock_picks.go:79-122 | an unforced run on a fully notified date sends and writes nothing |
| PickNotification.NotifiedForEver | usecase/create_daily_stock_picks.go:79-122 | in any history without force a notified date keeps its rows for ever |
| PickNotification.RetryLosesNames | infrastructure/database/daily_stock_pick.go:185-229 | a retry announces stored rows, which carry no names; where the wording shows the name, picks and blocks of text are those of the first run exactly when no pick had a name |
| PickEvaluation.ForwardReturns | domain_service/signal_performance.go:14-39 | rounded return from the first bar to each horizon, none where the bar has not come; no base on no bars or a zero adjusted close |
| VerdictPrices.ReturnOverPrices | domain_service/signal_performance.go:14-39 | a filled return is the move of the adjusted close to half a millionth, and positive (negative) exactly when the price rose (fell) by at least half a millionth of the base; the other way round for a sale |
| PickEvaluation.HasCorporateAction | usecase/evaluate_daily_stock_picks.go:167-190 | true exactly when a split or consolidation falls on one of the first five bars after the base |
| PickEvaluation.Pick.EvaluateOnePick | usecase/evaluate_daily_stock_picks.go:122-163 | what is written over the stored row is its evaluation, and nothing is written exactly where there is nothing to change |
| PickEvaluation.Pick.MarkVoid | usecase/evaluate_daily_stock_picks.go:192-198 | a void verdict with its time |
| PickEvaluation.PickTable.EvaluateDailyStockPicks | usecase/evaluate_daily_stock_picks.go:52-79 | every pending pick is evaluated or, when a step fails, none |
| PickEvaluation.PickTable.ListPending | infrastructure/database/daily_stock_pick.go:84-101 | exactly the unjudged picks no older than twice the deadline |
| PickEvaluation.VerdictMeaning | usecase/evaluate_daily_stock_picks.go:122-163 | win, lose or draw exactly by the sign of the five-day return without a corporate action; void exactly on a corporate action or an expired wait |
| VerdictPrices.VerdictOverPrices | usecase/evaluate_daily_stock_picks.go:122-163 | over adjusted closes: with the fifth bar there and no corporate action a pick wins (loses) exactly when the price is up (down) by at least half a millionth, and the three returns are the moves after 1, 3 and 5 bars |
| VerdictPrices.BarsSeen | usecase/evaluate_daily_stock_picks.go:82-98 | the bars judged on are the symbol's bars from the pick's date to today, oldest first |
| PickEvaluation.OpenAfterRunIff | usecase/evaluate_daily_stock_picks.go:52-163 | after a successful run a pick is open exactly when it was too old to be looked at, or is within its deadline without a fifth bar |
| PickEvaluation.AlwaysSound | usecase/evaluate_daily_stock_picks.go:52-198 | in every history the verdict and its time go together and a verdict other than void is the sign of the return |
| PickEvaluation.VerdictFinal | usecase/evaluate_daily_stock_picks.go:52-79 | once judged a pick never changes, whatever happens to bars, splits or clock |
| PickEvaluation.JudgedIff | usecase/evaluate_daily_stock_picks.go:52-163 | a pick ends any history judged exactly when some successful run saw it no older than twice the deadline, with its fifth bar present or its deadline past |
| PickEvaluation.ReturnsFinal | usecase/evaluate_daily_stock_picks.go:138-150 | while bars are only appended a filled-in one-day or three-day return never changes |
| WorkerPool.StepInv | usecase/strategy_ranking_interactor.go:302-347 | every step keeps each fed job with exactly one worker, and failures with a recorded error and a cancellation |
| WorkerPool.EachJobOnce | usecase/strategy_ranking_interactor.go:302-347 | in every interleaving without an error each job was finished exactly once |
| WorkerPool.NoDeadlock | usecase/strategy_ranking_interactor.go:302-347 | while anything runs some step is possible, also after failures and cancellations |
| WorkerPool.ScheduleEnds | usecase/strategy_ranking_interactor.go:302-347 | every schedule has at most three steps a job, one a worker, and two more |
| PoolSchedules.LoneWorkerInOrder | usecase/strategy_ranking_interactor.go:302-347 | a single worker finishes the jobs in the order they are fed, whatever the interleaving |
| PoolSchedules.OneApart | usecase/strategy_ranking_interactor.go:302-347 | with two workers or more there is a complete schedule that leaves any one job to a worker of its own, merged after all others |
| StrategyRanking.WorkerAccs.AccumulateResults | usecase/strategy_ranking_interactor.go:72-118 | a stock's results add its share to every strategy and one best count to the first strategy of highest return among those that traded |
| StrategyResults.BacktestAll | usecase/strategy_ranking_interactor.go:72-78 | each strategy's result is the report on the trades its signals make on the stock's prices by the common exit rules, without series |
| StrategyResults.ResultsUnique | usecase/strategy_ranking_interactor.go:72-78 | prices and exit rules determine the results of all strategies, so they do not depend on the worker that computes them |
| StrategyResults.AccumulateStock | usecase/strategy_ranking_interactor.go:72-118 | from prices to totals: a stock adds exactly the contribution of its backtests |
| StrategyRanking.WorkerAccs.Merge | usecase/strategy_ranking_interactor.go:55-68 | entry by entry addition, stock lists put end to end |
| StrategyRanking.BestOf | usecase/strategy_ranking_interactor.go:106-117 | the best strategy is the first of highest return among those that traded with a return above -999, if any |
| StrategyRanking.WorkOff | usecase/strategy_ranking_interactor.go:309-332 | a worker's totals and processed count are those of its jobs; stocks with fewer than 80 days count for nothing |
| RankingTotals.TallyTotals | usecase/strategy_ranking_interactor.go:72-105 | after any log every counter and sum of a strategy is the one recomputed from its own stock list, which has one entry for each stock that counts, with that stock's figures |
| RankingTotals.BestCounts | usecase/strategy_ranking_interactor.go:106-117 | a strategy's best count is the number of stocks on which it traded above -999, no traded strategy did better and none before it as well |
| RankingTotals.BestCountsAddUp | usecase/strategy_ranking_interactor.go:106-117 | the best counts of all strategies add up to the stocks that some strategy traded above -999 |
| RankingTotals.ProcessedCounted | usecase/strategy_ranking_interactor.go:309-332 | the processed count is the length of the stock lists |
| StrategyRanking.MergeWorkers | usecase/strategy_ranking_interactor.go:353-357 | the merge of all workers, first worker first |
| StrategyRanking.MergeIsConcat | usecase/strategy_ranking_interactor.go:353-357 | merging the workers is working off their logs one after the other |
| StrategyRanking.TallyIgnoresOrder | usecase/strategy_ranking_interactor.go:285-288 | the order of the jobs matters only to the order of the stock lists |
| StrategyRanking.PoolEqualsSequential | usecase/strategy_ranking_interactor.go:285-359 | every interleaving without an error gives the counters, sums and processed count of the sequential run, and its stock lists up to order |
| StrategyRanking.PicksIgnoreSchedule | usecase/create_daily_stock_picks.go:125-206 | the picks do not depend on the schedule or the number of workers |
| RankingLists.SortIsStable | usecase/strategy_ranking_interactor.go:255-262 | the stored list is a permutation by falling return that keeps ties in merge order |
| RankingLists.SameListIff | usecase/strategy_ranking_interactor.go:255-262 | two merges are stored as the same list exactly when they agree on the order of the stocks that share a return |
| RankingLists.NoTiesSameList | usecase/strategy_ranking_interactor.go:255-262 | without ties the stored list is that of the sequential run |
| RankingLists.TieBreaksOrder | usecase/strategy_ranking_interactor.go:285-288 | any two stocks that tie have, with two workers or more, a complete schedule whose stored list is not the sequential one, so "identical to the sequential version" fails for the lists |
| RankingLists.StoredListIff | usecase/strategy_ranking_interactor.go:285-288 | for any number of stocks and workers, every complete schedule stores the sequential list exactly when there is one worker or no two stocks of at least 80 days share a return under the strategy |
| DaytradeImport.AssignOccurrenceNo | usecase/daytrade/sbi_csv_parser.go:220-236 | each row is numbered by how often its key occurred before it, in 32 bits |
| DaytradeImport.NumbersAreDense | usecase/daytrade/sbi_csv_parser.go:220-236 | a key occurring c times gets exactly the numbers 0 to c-1, in file order |
| DaytradeImport.NumberedUnique | usecase/daytrade/sbi_csv_parser.go:218-236 | key and occurrence number identify a row of the file |
| DaytradeImport.ExecutionTable.DeleteBySourceAndDates | infrastructure/database/daytrade_execution.go:32-48 | exactly the rows of the source on the dates go, and their number is reported |
| DaytradeImport.ExecutionTable.BulkInsertIgnore | infrastructure/database/daytrade_execution.go:50-64 | rows are inserted one by one unless their unique key is taken, and the number inserted is reported |
| DaytradeImport.ExecutionTable.ImportSBICsv | usecase/daytrade_interactor.go:46-90 | delete and insert as a whole or not at all; the counts reported are those of the table; an empty file changes nothing |
| DaytradeImport.ImportKeepsUnique | usecase/daytrade_interactor.go:66-79 | an import keeps unique keys unique |
| DaytradeImport.Reimport | usecase/daytrade_interactor.go:46-90 | importing the same file again leaves the same table and deletes exactly what was inserted before |
| DaytradeImport.NothingSkippedIff | usecase/daytrade_interactor.go:83-88 | nothing is skipped exactly when no row of another source has the unique key of a row of the file |
| DaytradeImport.NothingDeletedIff | infrastructure/database/daytrade_execution.go:32-48 | an import deletes nothing exactly when no row of the broker lies on a date of the file |
| DaytradeImport.NothingLostIff | usecase/daytrade_interactor.go:46-90 | every stored row outlives an import, as an incremental one promises, exactly when the file has again all rows the broker has on its dates |
| DaytradeImport.FileReplacesItsDates | usecase/daytrade_interactor.go:46-90 | other dates are untouched; on dates with only the broker's rows the table afterwards holds exactly the file |
| TradeApprox.BuildTradeApprox | usecase/daytrade/insights.go:39-83 | one trade per stock, day and direction, in the order of first appearance, with that group's totals |
| TradeApprox.TradesConserve | usecase/daytrade/insights.go:39-83 | the trades carry exactly the profit, amount, wins and losses of the executions |
| TradeApprox.TradesOverExecutions | usecase/daytrade/insights.go:39-83 | each trade has the profit, amount, gaining and losing executions of its stock, day and direction, and the name of the first of them |
| TradeApprox.EachExecutionOnce | usecase/daytrade/insights.go:39-83 | every execution is part of exactly one trade |
| TradeApprox.ImportToTrades | usecase/daytrade_interactor.go:46-90 | from file over table to trades: the totals of the file's dates are those of the file |
| TradeApprox.ComputeLossConcentration | usecase/daytrade/insights.go:93-142 | for any trades and any sort that leaves ties open: total loss of the losing ones, the shares of the largest 1, 3 and 5 losses, the same in every order of the ties, and the five worst trades in the order the sort gave |
| TradeApprox.TiesDoNotMatter | usecase/daytrade/insights.go:101-132 | two orders of the same trades by profit or loss have the same share for every n |
| TradeApprox.SharesGrow | usecase/daytrade/insights.go:123-132 | the shares lie in (0,1], grow with n and reach 1 once every loss counts |
| TradeApprox.TopLossesAreWorst | usecase/daytrade/insights.go:101-132 | no other n losing trades lose more together than the first n |
| EquityStats.ComputeEquityStats | usecase/daytrade/equity_stats.go:10-43 | the one-pass figures equal brute force: largest fall and rise between any two points of the running total, longest run of losing days |
| EquityStats.OneWayDays | usecase/daytrade/equity_stats.go:10-43 | days without a loss have no drawdown and rise by all they gain, and days without a gain the reverse |
| Backfill.Interactor.CreateHistoricalDailyStockPrices | usecase/create_historical_daily_stock_prices.go:22-84 | the checkpoint and the days asked for, handed over and stored after a run, and exactly when it reports an error |
| Backfill.RunCovers | usecase/create_historical_daily_stock_prices.go:33-84 | one run never moves the checkpoint back, and every weekday up to the new one has been asked for |
| Backfill.ChainCovers | usecase/create_historical_daily_stock_prices.go:33-84 | along any chain of runs that share a checkpoint, whatever fails, every weekday from the first start to the checkpoint has been asked for; a completing run extends this to its date |
| Backfill.ChainHandsOver | usecase/create_historical_daily_stock_prices.go:33-84 | along any chain every weekday from the first start to the checkpoint was answered by the service in some run and its prices, if any, handed over, and stored unless refused; a completing run extends this to its own date |
| Backfill.FailedDayIsNext | usecase/create_historical_daily_stock_prices.go:53-58 | after an interruption whose checkpoint is saved the next run starts at the day that failed |
| Backfill.HandedAndStored | usecase/create_historical_daily_stock_prices.go:65-75 | every trading day worked off is handed over; it is newly stored exactly when the repository accepts it, which does not stop the run |
| Backfill.NothingElseDone | usecase/create_historical_daily_stock_prices.go:33-84 | a run asks only for weekdays of its stretch that the service answers, hands over only days with prices and stores only what it hands over |
| Backfill.SavedIsLast | usecase/create_historical_daily_stock_prices.go:65-79 | the checkpoint saved by the way is the last trading day whose saving did not fail |
| Backfill.NoErrorCompleteIff | usecase/create_historical_daily_stock_prices.go:48-84 | a run without an error has covered everything exactly when no request of its weekdays failed |
| Decimals.RoundMonotone | domain_service/daily_stock_pick_score.go:144-144 | rounding to places never reverses an order |
| Decimals.RoundError | domain_service/backtest.go:229-237 | rounding moves a value by at most half a unit of the last place |
| Decimals.NearestOfHalves | domain_service/backtest.go:229-237 | rounding treats both signs alike and takes a half away from zero |

## Left out

- Division precision of the decimal library and rounding by database columns: both exact here.
- Floating point: the square root by float conversion, and annualized return, volatility and the ratios built on them.
- Integer widths other than the occurrence number: running totals of money are unbounded.
- Time zones; a time of day appears only where a pick's deadline needs one.
- OBV, Ichimoku and rolling VWAP, which the engine does not use; quiz scoring, valuation, sector and summary figures.
- Rank bands, quartiles and favourite traps, which are further groupings of the same kind.
- SQL, Redis, Slack, file decoding, CSV and number parsing and formatting: parameters or failing steps. A database error is
  taken to leave no trace of its step, and text is compared exactly, without a collation.
- The averages of the ranking items, which are quotients of the totals, and the order of the five items by them.
- The wording of titles, blocks and legend, and escaping: parameters of `PickMessages`.
- Logging, identifiers and creation times.
- Goroutine memory effects: the pool is modelled by its channel, cancellation and completion steps.
- Expiry of the backfill checkpoint after seven days, and a checkpoint text that does not parse.
- Which prices of a backfilled day are kept (unknown symbols and all-zero prices are dropped by the code).
- A forced run deletes the date's rows and with them evaluations already written; the evaluation histories are those of rows
  that stay in the table.
- A missing bar on the pick date itself: the first bar on or after it is the base, as in the code.
- PickNotification.PickStore.CreateDailyStockPicks: does not model the metrics stored with a pick, only its identity, sector, score and rank.
- StrategyRanking.WorkerAccs.AccumulateResults: takes a stock's backtest results as given; `StrategyResults` computes them.
- DailyPickScreening.EvaluateDailyPickCandidate: does not model an empty series with a window of zero days, on which the code panics, or a negative window.
- PickSelection.RankDailyPickCandidates: does not model a negative limit, which the caller rules out.
