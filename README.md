# Market indicator scorer, modelled in Dafny

`mpa.py` is a daily market summary. For each ticker it does four things:

1. It takes the daily OHLCV history.
2. It adds the technical indicator columns to the data frame with
   `calculate_all_indicators`: RSI, MACD, Bollinger bands, moving averages, stochastic
   %K, OBV, ATR, VWAP, volume change and a weekly RSI.
3. It scores the latest row with ten weighted threshold rules in `generate_signals`. The
   optional CNN Fear & Greed reading feeds one of the rules.
4. It prints a Buy, Sell or Hold verdict with an explanation.

This project models the indicator engine, the scorer, and the verdict and explanation
selection, and proves properties about them.

How the model represents the source:

- **Numbers.** Floating-point cells are `real`. A NaN cell, whether from warm-up or from
  0/0, is `None` of `Option<real>`.
- **Infinities.** The columns that can hold an infinity (`Percent_K`, `Volume_Change`)
  use `Option<Ext>`, with `Ext = Finite | PosInf | NegInf`. pandas' division is written
  out in `Numeric.Divide`, and every comparison with a NaN cell is false.
- **Weights.** `generate_signals` weights are kept in hundredths, so the points are exact
  integers.
- **Frame.** The frame is the class `Indicators.Frame`. Each `calculate_*` method
  reassigns the columns it adds, and the function `Indicators.Annotate` states what the
  finished frame holds.
- **RSI loop.** The loop that overwrites `avg_gain` and `avg_loss` in place
  (`Rsi.SmoothSeeds`) runs over arrays.
- **Signals.** `generate_signals` is ten small block methods run in order, each proved
  equal to one step of the specification function `Signals.Tally`.
- **Calendar.** The calendar is abstract. Each bar carries the index of its week and
  whether it is dated exactly at the instant that closes the week.

Where the code and the usual description of this program differ, the model follows the
code:

- **The weights sum to 1.25, not 1.15.** There are ten rules, and the weekly and short
  RSI rules each add the `rsi` weight again (lines 140-218). `Signals.AllWeights` proves
  the weights total 125 hundredths.
- **In exact arithmetic, a flat price history gives Buy, not Hold.** `BB_Width` is 0
  there, and 0 < 0.05 fires the low-volatility buy rule. RSI is 0/0 = NaN there, not
  100. `Scenarios.FlatHistory` proves the resulting report. In floating point the VWAP
  of a flat history can round away from the price, which changes the verdict (see
  "Left out").
- **Weekly RSI comes from the previous week.** pandas labels a `resample('W')` row with
  the instant that closes the week. `reindex(method='ffill')` therefore gives a daily row
  the weekly RSI of the previous week. A row gets its own week's value only when it is
  dated exactly at that closing instant (lines 111 and 129). `Weekly.Reindex` does this,
  and `Weekly.FilledWeeklyRsiCausal` proves that the filled value never looks ahead.
- **The VIX reading is never read** by `generate_signals`.

## Model

| member | source | states |
|---|---|---|
| Rsi.Gains | mpa.py:51-52 | the gain column is as long as the closes, never negative, and 0 on the first row, where the NaN difference fails the test |
| Rsi.Losses | mpa.py:51-53 | the loss column is as long as the closes, never negative, and 0 on the first row |
| Rsi.ChangeSplits | mpa.py:51-53 | each day's gain minus its loss is the day's price change, and at most one of the two is non-zero |
| Rsi.SmoothWithin | mpa.py:57-58 | one smoothing step between two values in [lo, hi] stays in [lo, hi] |
| Rsi.WilderWithin | mpa.py:54-58 | Wilder's average (mean seed, then the recursive step) stays within any bounds of the values it averages |
| Rsi.WilderAverages | mpa.py:54-58 | the average column is as long as its input and defined exactly from index period-1 on |
| Rsi.WilderAveragesNonnegative | mpa.py:54-58 | averages of the non-negative gains and losses are non-negative |
| Rsi.RsiValue | mpa.py:59-60 | `100 - 100/(1 + g/l)` with pandas division is NaN exactly when both averages are 0, lies in [0, 100], is 100 when l = 0 < g, and is 100·g/(g+l) when l > 0 |
| Rsi.RsiClosedForm | mpa.py:59-60 | for a positive average loss the printed formula equals the gains' share of the total movement, within [0, 100] |
| Rsi.RsiSpec | mpa.py:50-61 | the RSI column has one cell per close |
| Rsi.SeedIsWilder | mpa.py:54-55 | before index period, the rolling-mean seed equals Wilder's average column: NaN, then the mean of the first period values |
| Rsi.WilderSmooth | mpa.py:56-58 | from index period on, each average cell is the smoothing step applied to the cell before it |
| Rsi.SmoothSeeds | mpa.py:56-58 | the in-place loop over rows period..n-1, on arrays holding the seeds, leaves exactly the target average columns when the seeds agree with them before period and the targets follow the step from there |
| Rsi.ComputeRsi | mpa.py:50-61 | `calculate_rsi` (seeds, in-place loop, ratio) computes exactly the RSI column `RsiSpec` |
| Rsi.RsiSeed | mpa.py:52-55 | gain[0] = loss[0] = 0, and the seed at index period-1 is the mean of the first period gains (losses), that spurious 0 included |
| Rsi.RsiRecurrence | mpa.py:56-58 | for i ≥ period, avg[i] = (avg[i-1]·(period-1) + x[i]) / period for both gains and losses |
| Rsi.RsiCell | mpa.py:54-60 | RSI is NaN before index period-1; after that it is defined exactly when the averages are not both 0, is 100 when the average loss is 0 and the gain positive, is 100·g/(g+l) otherwise, and always lies in [0, 100] |
| Rsi.WilderPositive | mpa.py:54-58 | a Wilder average of non-negative values with a positive second value stays positive |
| Rsi.StepPositive | mpa.py:57 | a smoothing step from a positive average stays positive for period ≥ 2 |
| Rsi.RsiFlat | mpa.py:51-60 | a flat close column has RSI NaN (0/0) in every cell |
| Rsi.RsiRising | mpa.py:51-60 | a close column that rises every day has RSI exactly 100 from index period-1 on |
| Rsi.WilderCausal | mpa.py:54-58 | Wilder's average at i depends only on the values up to i |
| Rsi.RsiCausal | mpa.py:50-61 | the RSI at row k depends only on the closes up to row k |
| Macd.Alpha | mpa.py:64-65 | the smoothing factor 2/(span+1) lies in (0, 1] |
| Macd.Ema | mpa.py:64-65 | the `ewm(adjust=False)` column is as long as its input and seeded with the first value |
| Macd.EmaRecurrence | mpa.py:64-65 | ema[i] = α·x[i] + (1-α)·ema[i-1] with α = 2/(span+1) |
| Macd.EmaStepWithin | mpa.py:64-65 | one averaging step between values in [lo, hi] stays in [lo, hi] |
| Macd.EmaWithin | mpa.py:64-65 | the average never leaves the range of the values seen so far |
| Macd.EmaConstant | mpa.py:64-65 | the average of a constant column is that constant |
| Macd.EmaStepLinear | mpa.py:66-67 | one averaging step is linear in the value and the previous average |
| Macd.EmaOfDifference | mpa.py:66-67 | the average of a difference is the difference of the averages |
| Macd.ComputeMacd | mpa.py:63-69 | the MACD, Signal and Histogram columns each have one cell per close |
| Macd.MacdHistogram | mpa.py:66-68 | Histogram = MACD - Signal at every row, and Signal is EMA9(EMA12) - EMA9(EMA26) |
| Macd.MacdFlat | mpa.py:63-68 | a constant close column has MACD = Signal = Histogram = 0 |
| Rolling.WindowSumIsSum | mpa.py:79-81 | the sliding window sum is the sum of the n values ending at i |
| Rolling.RollingMean | mpa.py:79-81 | `rolling(n).mean()` has one cell per input |
| Rolling.RollingMeanAt | mpa.py:79-81 | SMA(n) is NaN for i < n-1, and for i ≥ n-1 it is the arithmetic mean of x[i-n+1..i] |
| Rolling.RollingMeanConstant | mpa.py:79-81 | SMA of a constant column is the constant wherever it is defined |
| Rolling.RollingMeanWithin | mpa.py:79-81 | a defined SMA stays within any bounds of its column |
| Rolling.RollingMin | mpa.py:84 | `rolling(n).min()` is defined exactly from index n-1 on |
| Rolling.RollingMax | mpa.py:85 | `rolling(n).max()` is defined exactly from index n-1 on |
| Rolling.RollingMinAt | mpa.py:84 | a defined rolling minimum is a value of its window and no window value is smaller |
| Rolling.RollingMaxAt | mpa.py:85 | a defined rolling maximum is a value of its window and no window value is larger |
| Rolling.SampleVariance | mpa.py:73 | the sample variance (n-1 denominator, as `std` uses) is non-negative |
| Rolling.SquaredDeviationsNonnegative | mpa.py:73 | a sum of squared deviations is non-negative |
| Rolling.SquaredDeviationsOfConstant | mpa.py:73 | a constant window has no squared deviation from its value |
| Rolling.RollingVariance | mpa.py:73 | the square of `rolling(n).std()` is defined exactly from index n-1 on and is non-negative |
| Rolling.RollingVarianceConstant | mpa.py:73 | a constant column has zero variance wherever the variance is defined |
| Bollinger.Bands | mpa.py:72-73 | the band column (SMA20, STD20²) is defined exactly from index period-1 on, with non-negative variance |
| Bollinger.BandsAgree | mpa.py:72-73 | each band cell is the rolling mean and rolling variance of the closes, and both are NaN together |
| Bollinger.WidthRules | mpa.py:74-76 | for every deviation s ≥ 0, deciding width < 0.05 and width > 0.15 on the variance s² agrees with comparing (upper - lower)/SMA20 computed from s, including a zero mean, where the width is NaN or +inf |
| Bollinger.WidthPositiveMean | mpa.py:74-76 | the same agreement for a positive mean |
| Bollinger.WidthNegativeMean | mpa.py:74-76 | with a negative mean the width is never positive: always below 0.05 and never above 0.15 |
| Bollinger.WidthZeroMean | mpa.py:74-76 | the same agreement for a zero mean |
| Bollinger.FlatBand | mpa.py:199-204 | a positive band with no spread votes low volatility and not high volatility |
| Bollinger.BandsConstant | mpa.py:71-77 | on a constant close column each defined band is (c, 0), narrow and not wide when c > 0 |
| Stochastic.Percent | mpa.py:86 | `* 100` scales a finite cell and passes NaN and the infinities through |
| Stochastic.PercentK | mpa.py:83-87 | the %K column has one cell per bar |
| Stochastic.KCellRange | mpa.py:86 | for a close in [ll, hh], %K is NaN exactly on a zero range, and otherwise a finite value in [0, 100] with %K·(hh-ll) = 100·(close-ll) |
| Stochastic.PercentKCell | mpa.py:83-87 | on a consistent bar %K is NaN during warm-up and on a flat window, and otherwise a finite percentage in [0, 100] of the close's place between the window's lowest low and highest high |
| Stochastic.PercentKWindow | mpa.py:83-87 | %K at i reads only the period bars ending at i |
| Volume.Flows | mpa.py:90 | the flow is 0 on the first row, where the NaN difference passes neither test; after it, +volume when the close rose, -volume when it fell, 0 when unchanged |
| Volume.Obv | mpa.py:89-91 | the OBV column has one cell per bar |
| Volume.ObvSteps | mpa.py:90 | OBV[0] = 0, and OBV[i] - OBV[i-1] is +volume when the close rose, -volume when it fell, 0 when unchanged |
| Volume.ObvBounded | mpa.py:90 | OBV never moves further from 0 than the volume traded so far |
| Volume.LowerTerms | mpa.py:102-103 | each bar's turnover is at least lo times its volume when its typical price is at least lo |
| Volume.UpperTerms | mpa.py:102-103 | each bar's turnover is at most hi times its volume when its typical price is at most hi |
| Volume.TurnoverLower | mpa.py:102-103 | typical prices of at least lo make the cumulative turnover at least lo times the cumulative volume |
| Volume.TurnoverUpper | mpa.py:102-103 | typical prices of at most hi make the cumulative turnover at most hi times the cumulative volume |
| Volume.TurnoverBounds | mpa.py:102-103 | both bounds together |
| Volume.NoVolume | mpa.py:103 | the cumulative volume is non-negative, and is 0 exactly when no bar traded, when the turnover is 0 too |
| Volume.VwapCell | mpa.py:101-104 | VWAP at i is defined exactly when some bar up to i traded, and then lies within any bounds of the typical prices up to i; with lo = hi = P it is P |
| Volume.VolumeChange | mpa.py:106-108 | the volume change column has one cell per bar |
| Volume.VolumeChangeCell | mpa.py:107 | the change is NaN on the first row and between two zero-volume bars, +inf exactly when trading resumes after a zero-volume bar, never -inf, and otherwise the finite relative change, at least -1 |
| Atr.TrueRange | mpa.py:94-97 | the true range column has one cell per bar, and on the first row, where the row maximum skips the two NaN distances, it is high - low |
| Atr.AverageTrueRange | mpa.py:98 | the ATR column has one cell per bar |
| Atr.TrueRangeSpan | mpa.py:94-97 | after the first row the true range is max(high, prev close) - min(low, prev close), never less than the bar's own span |
| Atr.TrueRangeNonnegative | mpa.py:94-97 | on the first row the true range is high - low, and on a consistent bar it is never negative |
| Atr.AllNonnegative | mpa.py:94-97 | every true range of a consistent history is non-negative |
| Atr.AtrCell | mpa.py:93-99 | on consistent bars ATR is defined once a window is full, and lies between 0 and the window's largest true range |
| Weekly.Resample | mpa.py:111 | the weekly rows are at most as many as the bars, empty exactly for no bars, and the last row is the last bar's week with the last bar's close |
| Weekly.WeeklyRsi | mpa.py:110-112 | one weekly RSI cell per weekly row |
| Weekly.Reindex | mpa.py:129 | the forward-filled column has one cell per daily bar |
| Weekly.FilledWeeklyRsi | mpa.py:128-129 | the daily `Weekly_RSI` column has one cell per bar |
| Weekly.ResampleStep | mpa.py:111 | one more bar changes at most the last weekly row and adds at most one row |
| Weekly.ResamplePrefix | mpa.py:111 | the weekly rows of a prefix are those of the whole history, the last possibly still open |
| Weekly.ResampleCut | mpa.py:111 | when the next bar opens a new week, the prefix's weekly rows are exactly the first rows of the whole history |
| Weekly.ResampleConsistent | mpa.py:111 | each weekly row keeps low ≤ open, close ≤ high when every bar does |
| Weekly.ResampleCloses | mpa.py:111 | weekly closes stay within any bounds that hold the daily closes |
| Weekly.ResampleOrdered | mpa.py:111 | under date order the weekly rows are in strictly increasing week order |
| Weekly.ResampleVolume | mpa.py:111 | the weekly rows carry exactly the total daily volume |
| Weekly.WeekCloseIsLastClose | mpa.py:111 | a week's close is the close of the week's last bar |
| Weekly.WeekRowFields | mpa.py:111 | the row the bars of one week fold into holds the first open, the highest high, the lowest low, the last close and the total volume of those bars |
| Weekly.OpenWeekRow | mpa.py:111 | while the bars s..m of one week are in, bar s having opened the week, the last weekly row is the fold of exactly those bars |
| Weekly.WeekRowFinal | mpa.py:111 | once the next bar opens another week, or there is none, bar i's weekly row is final |
| Weekly.WeekAggregates | mpa.py:111 | the weekly row of a complete week s..i has the open of its first bar, the highest high and lowest low of its bars, the close of its last bar and their total volume |
| Weekly.WeeklyRsiSettled | mpa.py:112 | the weekly RSI of row j is decided by the weekly rows up to j |
| Weekly.FilledCell | mpa.py:128-129 | a daily row gets its own week's RSI when dated at the week's close, otherwise the previous week's, or NaN in the first week |
| Weekly.OwnWeekFinal | mpa.py:111-112 | under date order, the weekly RSI of a bar's own week is final once a bar that closes the week is in |
| Weekly.PreviousWeekFinal | mpa.py:111-112 | the weekly RSI of the week before a bar's week is final once that bar is in |
| Weekly.FilledWeeklyRsiCausal | mpa.py:128-129 | under date order, the `Weekly_RSI` a daily row gets equals the one computed from the history up to that row, so there is no look-ahead |
| Indicators.Annotate | mpa.py:114-130 | the finished frame holds RSI_14, RSI_5, SMA5/10/50/200 and every other indicator column, each with one cell per bar |
| Indicators.AnnotateCausal | mpa.py:114-130 | under date order, the daily RSIs and the weekly RSI at row i depend only on the bars up to row i |
| Indicators.Frame.constructor | mpa.py:47 | the frame as the data source returns it: the bars and no derived column |
| Indicators.Frame.CalculateRsi | mpa.py:50-61 | adds or replaces `RSI_{period}` with the RSI of the closes and changes no other column |
| Indicators.Frame.CalculateMacd | mpa.py:63-69 | sets MACD, Signal and Histogram and changes no other column |
| Indicators.Frame.CalculateBollingerBands | mpa.py:71-77 | sets SMA20 and STD20² and changes no other column |
| Indicators.Frame.CalculateSma | mpa.py:79-81 | adds or replaces `SMA{period}` and changes no other column |
| Indicators.Frame.CalculateStochasticOscillator | mpa.py:83-87 | sets Lowest_Low, Highest_High and Percent_K and changes no other column |
| Indicators.Frame.CalculateObv | mpa.py:89-91 | sets OBV and changes no other column |
| Indicators.Frame.CalculateAtr | mpa.py:93-99 | sets TR and ATR and changes no other column |
| Indicators.Frame.CalculateVwap | mpa.py:101-104 | sets VWAP and changes no other column |
| Indicators.Frame.CalculateVolumeChange | mpa.py:106-108 | sets Volume_Change and changes no other column |
| Indicators.Frame.CalculateWeeklyRsi | mpa.py:110-112 | returns the RSI of the weekly resampling and leaves the frame alone |
| Indicators.Frame.CalculateAllIndicators | mpa.py:114-130 | afterwards the frame holds the `Annotate` columns, and RSI/SMA columns of other periods already present are kept; on a fresh frame the result is exactly `Annotate` |
| Signals.AnnotateAligned | mpa.py:114-134 | every column the rules read is present in the finished frame and as long as the series |
| Signals.TallyAll | mpa.py:151-218 | the scorer is the ten blocks applied in source order, from empty lists and zero points |
| Signals.FearGreedBlock | mpa.py:151-157 | the Fear & Greed block is one step of the tally; it is skipped when there is no reading |
| Signals.DailyRsiBlock | mpa.py:159-164 | the daily RSI block is one step of the tally |
| Signals.WeeklyRsiBlock | mpa.py:165-170 | the weekly RSI block is one step of the tally |
| Signals.ShortRsiBlock | mpa.py:171-176 | the short RSI block is one step of the tally |
| Signals.MacdBlock | mpa.py:178-183 | the MACD histogram block is one step of the tally |
| Signals.StochasticBlock | mpa.py:185-190 | the stochastic block is one step of the tally |
| Signals.VolumeChangeBlock | mpa.py:192-197 | the volume change block is one step of the tally |
| Signals.BbWidthBlock | mpa.py:199-204 | the Bollinger width block is one step of the tally |
| Signals.SmaBlock | mpa.py:206-211 | the moving average block is one step of the tally |
| Signals.VwapBlock | mpa.py:213-218 | the VWAP block is one step of the tally |
| Signals.GenerateSignals | mpa.py:133-220 | running the blocks in order returns exactly the lists and totals `SignalsOf` specifies, whatever the VIX reading |
| Signals.TallyMeans | mpa.py:135-220 | labels match points: each list holds, in rule order, the labels of exactly the rules that voted for its side, and each total is the sum of those rules' weights |
| Signals.CastMeans | mpa.py:151-218 | recording one block's decision keeps the lists and totals in step with the rules fired so far |
| Signals.FiredMeans | mpa.py:151-218 | a rule is among a side's fired rules exactly when it was run and decides for that side |
| Signals.Listed | mpa.py:151-218 | a rule that decides for a side has its label on that side's list |
| Signals.FiredExclusive | mpa.py:151-218 | an if/elif block votes for at most one side, so no rule fires on both |
| Signals.FiredShare | mpa.py:135-220 | the two sides together hold at most the rules run, and at most their total weight |
| Signals.AllWeights | mpa.py:140-149 | the ten blocks' weights total 1.25, the three RSI blocks each counting the `rsi` weight |
| Signals.SignalBounds | mpa.py:140-218 | buy + sell points ≤ 1.25 (each is non-negative), and the two lists hold at most ten labels |
| Signals.UndefinedAbstains | mpa.py:151-218 | a missing Fear & Greed reading or a NaN cell makes its rule vote for neither side |
| Signals.AllBuy | mpa.py:151-218 | there is a row on which all ten rules vote buy: the bound 1.25 is reached |
| Signals.FiredAll | mpa.py:151-218 | when every rule decides buy, the buy side fires every rule and the sell side none |
| Numeric.Divide | mpa.py:86 | pandas division: 0/0 is NaN, x/0 is ±inf by the sign of x, and otherwise the finite quotient |
| Numeric.NaNComparesFalse | mpa.py:159-218 | no comparison with a NaN cell holds |
| Recommendation.Recommend | mpa.py:285 | Buy iff buy > sell, Sell iff sell > buy, Hold iff equal (both zero included) |
| Recommendation.RecommendMirror | mpa.py:285 | swapping the totals swaps Buy and Sell and keeps Hold |
| Recommendation.Explanation | mpa.py:300-306 | the explanation picks the same branch as the verdict |
| Recommendation.ExplanationsDistinct | mpa.py:300-306 | the three explanations differ, so the explanation determines the verdict |
| Analysis.Analyze | mpa.py:324-334 | an empty history gets no report; otherwise a fresh frame, `calculate_all_indicators`, `generate_signals` on its last row, then the verdict and the explanation, give exactly `ReportOf`: the signals of the finished frame's last row, the verdict of their totals and that verdict's explanation |
| Scenarios.LatestCells | mpa.py:114-134 | the latest row, cell by cell, is the last cell of each indicator column |
| Scenarios.OnlyBandVotes | mpa.py:151-218 | on a quiet row with a neutral or missing Fear & Greed reading only the low-volatility rule votes, 0.10 to buy |
| Scenarios.FlatRow | mpa.py:50-130 | the last row of a flat history of at least 20 bars is quiet |
| Scenarios.FlatHistory | mpa.py:199-204 | a flat history of at least 20 positive bars reports only the low-volatility buy signal (0.10 to 0) and the verdict Buy |
| Scenarios.WeeklyFlat | mpa.py:110-112 | a flat history has weekly RSI NaN on every daily row |
| Scenarios.FlatStochastic | mpa.py:83-87 | a flat window gives %K = NaN |
| Scenarios.FlatVolume | mpa.py:106-108 | an unchanged volume changes by 0, or NaN when it is 0 |
| Scenarios.FlatVwap | mpa.py:101-104 | a flat history has VWAP equal to the price, or NaN before anything trades |
| Scenarios.ExtremeFearAlone | mpa.py:151-157 | a reading ≤ 20 with no other vote gives 0.05 to buy and the verdict Buy |
| Scenarios.OverboughtRow | mpa.py:159-176 | a daily and a short RSI of at least 70 put both overbought labels on the sell list |
| Scenarios.RisingHistory | mpa.py:50-61 | a history of at least 14 bars whose close rises every day gets both overbought sell labels |

## Left out

- Network and data-source I/O (lines 14-47) are left out: `get_fear_greed_data`,
  `get_vix_data` and `get_stock_data`. Their results are inputs: an optional reading and
  a sequence of bars.
- `display_market_indicators` (lines 223-307) prints the indicator tables, the
  trend notes and coloured output. Only the verdict and explanation selection (lines 285
  and 300-306) is modelled. Left out with the printing:
  - the `prev = df.iloc[-3]` comparisons behind the trend notes;
  - the ATR note at line 248, which calls `.mean()` on a single value.
- `main` (lines 310-337) parses arguments and loops over tickers. Only the per-ticker
  pipeline is modelled, in `Analysis.Analyze`.
- Indicators.Frame.CalculateBollingerBands: keeps `SMA20` and the square of `STD20`, not
  the `Upper_Band`, `Lower_Band` and `BB_Width` columns. They need a square root.
  `Bollinger.WidthRules` proves that deciding both width rules on the variance agrees
  with comparing the width computed from the deviation.
- Indicators.Frame.CalculateAtr: keeps `TR` but not the `H-L`, `H-PC` and `L-PC`
  columns it is the maximum of.
- Weekly.Resample: calendar resampling is abstract. A bar carries a week index and
  whether it sits at the week's closing instant, and there is no date or time-zone
  arithmetic.
- Weekly.Reindex: calendar weeks without any bar are not modelled; the weekly rows are
  only the weeks that hold bars. pandas gives an empty week a row with a NaN close. The
  two price differences into and out of that row are NaN, so they count as neither gain
  nor loss and the price change across the gap is lost. The row also adds one smoothing
  step. Daily rows after the gap forward-fill from that row's RSI, while the model gives
  them the last week with data. Every weekly RSI from the gap on therefore differs from
  pandas'.
- Floating point is exact `real` arithmetic, so IEEE rounding, the sign of zero and
  float ties are left out. For example, the model treats 0.10 + 0.05 as equal to 0.15,
  while the Python totals can differ in the last bit and tip a near tie. Rounding can
  also flip a rule whose two sides are equal in exact arithmetic, such as `Close < VWAP`
  at lines 213-218, where the cumulative sums of line 103 move VWAP by a last bit
  either way.
- Scenarios.FlatHistory holds in exact arithmetic only. In Python a flat bar at 0.1 has
  typical price (0.1 + 0.1 + 0.1) / 3 = 0.10000000000000002 (line 102). Where the
  cumulative sums of line 103 keep that last bit, VWAP sits above the close, the VWAP
  sell rule fires as well, and the verdict is Hold at 0.10 to 0.10.
- Volume.VolumeChange: `pct_change`'s default forward fill of NaN volumes is left out.
  Volumes are whole share counts and never NaN.
- Overflow is left out. OBV and the volumes are unbounded integers, while pandas uses
  64-bit integers.
