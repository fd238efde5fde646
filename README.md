# ETF / stock technical-analysis rule layer in Dafny

This project models the deterministic rule layer of an ETF and stock
technical-analysis platform and proves what those rules guarantee. The rule
layer reads rows of indicator columns and turns them into labels, narrative
lines, fused trade signals, risk alerts and price predictions. The columns are
close, SMA_5/10/20/60, MACD with its signal and histogram, the Bollinger
bands, RSI_12/RSI_14, KDJ K/D/J, CCI_14, OBV and WR_14.

There is one Dafny module per source file, plus a shared data module:

- `frames.dfy` (module `Frames`) is the shared data model.
  - A `Row` has 21 `Option<real>` columns; pandas NaN is `None`, and every
    ordered comparison with NaN is false.
  - A `Frame` is a row sequence that also records whether the high and low
    columns exist.
  - It defines Python's builtin `max`/`min` over lists that may hold NaN.
  - It defines pandas' NaN-skipping `Series.max()`/`Series.min()` and
    `iloc[-n:]`.
- `indicators.dfy` (module `Indicators`) covers core/indicators.py.
  - The trend classifier `judge_trend_status` is a pure function.
  - The three narrators are methods of a `TrendSignals` object whose `items`
    field is the caller-owned list they append to.
  - Each narrator is proved to append exactly the lines of a specification
    function.
  - The Bollinger crossing-count loop is proved against a recursive crossing
    count.
- `signal_system.dfy` (module `SignalFusion`) covers core/signal_system.py.
  - It holds the eight weighted judges and the accumulating loop of
    `generate_signals`.
  - It proves bounds on the score, the confidence, the signal type and the
    strength.
- `alert_system.dfy` (module `Alerts`) covers core/alert_system.py.
  - It holds the six detectors, the per-level counts and the overall-risk
    rule.
  - It also models the selection part of the alert summary.
- `predictor.dfy` (module `Predictor`) covers core/predictor.py.
  - Support and resistance levels are rounded, de-duplicated, sorted,
    filtered and truncated.
  - The trend probability is accumulated score by score and then normalised.
  - Each horizon gets a band with clamping, a trend label and a confidence
    bucket.
- `analysis.dfy` (module `Analysis`) covers core/analysis.py.
  - It defines the indicator columns the daily analysis adds to a history.
  - It holds the gates that decide whether a history is analysed, and the
    per-item analysis body.
  - It holds the intraday ±2.5% classifier over the realtime snapshot.

Some quantities exist only as floating-point smoothers, and these enter the
model as inputs:

- the EMAs behind MACD;
- the 20-row standard deviation, which is never negative;
- the ATR rolling mean;
- the mean of the last three returns;
- the volatility of the last 20 returns, which is never negative.

`round(v, n)` is round-half-even on the exact value.

The model follows the code as written, including these behaviours:

- **Trend labels.** `judge_trend_status` never returns the plain 上升趋势 or
  下降趋势 labels. The refinement step always overwrites them.
- **Signal strength.** core/signal_system.py:225-239 sets the strength to
  "Strong" for Strong Buy and Strong Sell and "Weak" otherwise. Lines 246-249
  then overwrite it from the confidence: "Strong" from 70, "Weak" from 40 up
  to 70. So a Strong Buy or Strong Sell with a confidence from 40 up to 70 is
  "Weak", and the type decides the strength only below a confidence of 40.
- **Confidence floor.** A generated signal's confidence is never below 50,
  so the low-confidence alert never fires for it.
- **Williams %R.** The Williams judge and the Williams alert both use the
  −100..0 convention, exactly as their thresholds are written.
- **Support at 0.00.** The `v > 0` filter runs before `round(v, 2)`, so a
  support level can round to 0.00. The contract therefore says support
  levels are ≥ 0, not > 0.
- **Predictor trend.** core/predictor.py:363-365 divides the percentages by
  100, and lines 395-400 then compare the fractions with 50. A fraction never
  exceeds 1, so every horizon is 横盘. Lines 403-416 then take `int` of a
  fraction, which is at most 1, so the confidence is "low". The docstring example at core/predictor.py:33 shows a
  上涨 horizon with confidence "high", which lines 363-416 can never produce.
- **Short histories in the predictor.** With fewer than 20 rows,
  core/predictor.py:110-112 returns empty support and resistance lists. The
  three horizons are still predicted, with the 2% daily volatility of
  core/predictor.py:359-360.
- **Key alerts.** The comment at core/alert_system.py:632 speaks of the
  first three medium alerts, but line 634 keeps only the first two. The model
  keeps two, as the code does.
- **Unreachable guard.** The "fewer than 2 rows" gate of the daily analysis
  can never fire, because every history reaching it has at least 61 rows.

## Model

| member | source | states |
|---|---|---|
| Frames.Tail | core/alert_system.py:364-367 | `iloc[-n:]`: the last n items; n = 0 or n past the length selects everything |
| Frames.PyMax | core/alert_system.py:124-126 | Python `max` of a list: a number exactly when the first item is, and then it is an item and bounds every present item from above |
| Frames.PyMin | core/alert_system.py:138-140 | Python `min`: a number exactly when the first item is, and then it is an item and bounds every present item from below |
| Frames.SeriesMax | core/predictor.py:126 | pandas `max()`: present iff some value is present; it is one of the values and no present value exceeds it |
| Frames.SeriesMin | core/predictor.py:127 | pandas `min()`: present iff some value is present; it is one of the values and no present value is below it |
| Indicators.JudgeTrendStatus | core/indicators.py:62-106 | missing close gives 数据异常; the result is one of the five labels 数据异常/均线数据不足/强势上升趋势/弱势下降趋势/震荡趋势; close within 0.5% of a nonzero middle band gives 震荡趋势; 均线数据不足 iff SMA_20 is missing and the band override does not fire; 强势上升趋势 iff close > SMA_20 > SMA_60 without the override; 弱势下降趋势 iff close < SMA_20 < SMA_60 without the override |
| Indicators.PriceVsMa | core/indicators.py:119-128 | "above" iff the MA is present and close exceeds it, "below" iff present and close ≤ MA, "missing" iff the MA is NaN |
| Indicators.PriceVsMaLines | core/indicators.py:119-128 | four lines, one per MA length 5/10/20/60 in that order |
| Indicators.PairLine | core/indicators.py:144-160 | golden cross iff all four values present and cur_s > cur_l with prev_s ≤ prev_l; death cross iff cur_s < cur_l with prev_s ≥ prev_l; missing iff any value is NaN; never both crosses |
| Indicators.MaLines | core/indicators.py:113-174 | missing close gives exactly the one "close missing" line; otherwise exactly 8 lines: 4 price-vs-MA, 3 pair relations, 1 SMA_60 direction |
| Indicators.MacdCrossLine | core/indicators.py:197-205 | MACD golden cross iff l_macd > l_signal and p_macd ≤ p_signal; death cross iff l_macd < l_signal and p_macd ≥ p_signal |
| Indicators.HistogramLine | core/indicators.py:216-231 | a red-bar line iff the histogram is positive, a green-bar line iff it is negative |
| Indicators.MacdLines | core/indicators.py:195-233 | exactly 3 lines when all six MACD values are present, otherwise exactly the one "missing" line; golden/death cross among them iff the crossing condition holds |
| Indicators.Crossings | core/indicators.py:41-49 | the count of consecutive pairs where close crosses the middle band is below the window length |
| Indicators.CrossCount | core/indicators.py:29-49 | cross_count ≤ min(len, 5) − 1 |
| Indicators.PositionLines | core/indicators.py:12-19 | at most one position line; none when close equals the middle band inside the bands |
| Indicators.BollingerLines | core/indicators.py:11-57 | incomplete bands give exactly the one "missing" line; the oscillation line appears iff the bands are complete, there are ≥ 2 rows and cross_count ≥ 2; close on the middle band adds no position line |
| Indicators.CountMidBandCrossings | core/indicators.py:24-49 | the tail-indexed loop computes the crossing count of the last min(len, 5) rows, which is < min(len, 5) |
| Indicators.TrendSignals.constructor | core/analysis.py:216 | the narrative list starts empty |
| Indicators.TrendSignals.AnalyzeMa | core/indicators.py:108-176 | appends exactly the lines of MaLines to the list, keeping the earlier entries |
| Indicators.TrendSignals.AppendPriceVsMa | core/indicators.py:119-128 | the first loop appends the four price-vs-MA lines |
| Indicators.TrendSignals.AppendPairLines | core/indicators.py:131-160 | the pair loop appends the three pair lines in pair order |
| Indicators.TrendSignals.AppendSma60Trend | core/indicators.py:163-174 | appends the single SMA_60 direction line |
| Indicators.TrendSignals.AnalyzeMacd | core/indicators.py:178-233 | appends exactly the lines of MacdLines, keeping the earlier entries |
| Indicators.TrendSignals.AppendMacdCross | core/indicators.py:197-205 | appends the signal-line relation |
| Indicators.TrendSignals.AppendMacdZero | core/indicators.py:208-213 | appends the zero-axis position |
| Indicators.TrendSignals.AppendHistogram | core/indicators.py:216-231 | appends the histogram change |
| Indicators.TrendSignals.AnalyzeBollinger | core/indicators.py:3-57 | appends exactly the lines of BollingerLines, keeping the earlier entries |
| SignalFusion.Weight | core/signal_system.py:21-30 | every indicator weight is positive |
| SignalFusion.WeightsSumTo100 | core/signal_system.py:21-30 | the eight weights sum to 100 |
| SignalFusion.EvaluateRsi | core/signal_system.py:264-302 | absent iff RSI_12 is NaN; Buy iff RSI_12 < 40, Sell iff > 60, weight 25 |
| SignalFusion.EvaluateKdj | core/signal_system.py:304-369 | absent iff K or J is NaN; a cross of K against the previous D decides first (up: Buy, down: Sell); otherwise Buy iff J < 0 or (J ≤ 100 and K < 20), Sell iff J > 100 or (0 ≤ J, K > 80) |
| SignalFusion.EvaluateMacd | core/signal_system.py:371-417 | absent iff MACD or its signal is NaN; Buy iff a signal-line golden cross, or no death cross and both lines above zero; Sell symmetrically |
| SignalFusion.EvaluateMa | core/signal_system.py:419-465 | absent iff close or SMA_20 is NaN; Buy iff close > SMA_20, Sell iff close < SMA_20 |
| SignalFusion.EvaluateBollinger | core/signal_system.py:467-503 | absent iff close or the lower band is NaN; never Neutral; Buy iff close < lower, or close not above the upper band and above the middle band |
| SignalFusion.EvaluateCci | core/signal_system.py:505-533 | absent iff CCI_14 is NaN; Buy iff < −100, Sell iff > 100 |
| SignalFusion.EvaluateObv | core/signal_system.py:535-564 | absent iff OBV is NaN; Buy iff OBV rose from the previous row, Sell iff it fell |
| SignalFusion.EvaluateWilliams | core/signal_system.py:566-595 | absent iff WR_14 is NaN; Buy iff > −20, Sell iff < −80 |
| SignalFusion.Judge | core/signal_system.py:72-181 | a present judgement carries its indicator's weight |
| SignalFusion.ForwardOf | core/signal_system.py:72-181 | at most one entry per judge, each with its indicator's weight |
| SignalFusion.TypeOf | core/signal_system.py:225-239 | Strong Buy iff score ≥ 85, Buy iff in [65, 85), Hold iff in [45, 65), Sell iff in [25, 45), Strong Sell iff < 25 |
| SignalFusion.SideWeightsWithinTotal | core/signal_system.py:72-181 | buy_weight + sell_weight ≤ total_weight |
| SignalFusion.TotalWeightPositive | core/signal_system.py:183-190 | total_weight > 0 iff some judge is present |
| SignalFusion.ScoreInRange | core/signal_system.py:183-190 | signal_score lies in [0, 100] |
| SignalFusion.ConfidenceInRange | core/signal_system.py:193-222 | confidence lies in [50, 100] |
| SignalFusion.TypeMonotone | core/signal_system.py:225-239 | a higher score never gives a more bearish signal type |
| SignalFusion.StrengthFollowsConfidence | core/signal_system.py:246-249 | with confidence ≥ 50, the strength is Strong iff confidence ≥ 70, whatever the type |
| SignalFusion.SignalProperties | core/signal_system.py:183-249 | score in [0, 100], confidence in [50, 100], Strong iff confidence ≥ 70, Hold carries exactly the placeholder reason, no present judge gives 50 / 50 / Hold |
| SignalFusion.Unanimous | core/signal_system.py:72-181 | when every entry has one side, that side holds all the weight and all the count |
| SignalFusion.UnanimousScore | core/signal_system.py:183-222 | a unanimous side scores 100 (Buy) or 0 (Sell) with confidence 100 |
| SignalFusion.AllBuy | core/signal_system.py:72-249 | every present judge Buy: score 100, confidence 100, Strong Buy, Strong |
| SignalFusion.AllSell | core/signal_system.py:72-249 | every present judge Sell: score 0, confidence 100, Strong Sell, Strong |
| SignalFusion.AllNeutral | core/signal_system.py:72-249 | every present judge Neutral: score 50, confidence 50, Hold with the placeholder reason, Weak |
| SignalFusion.JudgeAll | core/signal_system.py:67-181 | the eight judge blocks collect the present judgements in order and accumulate the total, buy and sell weights and the reasons |
| SignalFusion.ForwardStep | core/signal_system.py:72-181 | one more judge appends its entry or leaves the list unchanged |
| SignalFusion.AggregatesStep | core/signal_system.py:72-181 | appending an entry adds its weight to the total and to its side, and its reason when not neutral |
| SignalFusion.GenerateSignals | core/signal_system.py:32-250 | the result is the fused signal of the two rows; score in [0, 100], confidence in [50, 100], Strong iff confidence ≥ 70, Hold carries only the placeholder reason |
| Alerts.NoDoubleDivergence | core/alert_system.py:124-140 | top and bottom divergence never both hold for one price/indicator pair |
| Alerts.DivergencePair | core/alert_system.py:334-360 | at most one alert; the top alert iff top divergence, the bottom alert iff bottom divergence |
| Alerts.MaImminentCross | core/alert_system.py:151-177 | the death-imminent alert alone iff SMA_5 and SMA_10 are present and the previous SMA_10 < SMA_5 < SMA_10; the golden-imminent alert alone iff both are present and SMA_10 < SMA_5 < the previous SMA_10; no alert otherwise; always medium and trend-reversal |
| Alerts.MacdDivergence | core/alert_system.py:111-148 | over the last 10 rows: the high top-divergence alert alone iff the last close tops the others while MACD does not; the medium bottom-divergence alert alone iff the mirror holds |
| Alerts.CheckTrendReversal | core/alert_system.py:106-182 | at most 2 alerts, and only the MACD top/bottom-divergence and MA death/golden-imminent alerts, all trend-reversal; below 10 rows only the imminent-cross check runs; from 10 rows the high MACD top-divergence alert is present iff the last close tops the 9 before it while MACD does not, and the medium bottom-divergence alert iff the mirror holds; the MA death/golden-imminent alerts are present iff their conditions hold |
| Alerts.RsiLadder | core/alert_system.py:189-231 | an RSI alert iff RSI_14 ≥ 70 or ≤ 30; high iff ≥ 80, medium iff in [70, 80) or ≤ 20, low iff in (20, 30] |
| Alerts.KdjLadder | core/alert_system.py:233-255 | a KDJ alert iff J ≥ 100 or J ≤ 0; high iff J ≥ 100; never low |
| Alerts.CciLadder | core/alert_system.py:257-289 | a CCI alert iff CCI ≥ 100 or ≤ −200; high iff ≥ 200; never low |
| Alerts.WrLadder | core/alert_system.py:291-313 | a WR alert iff WR_14 ≤ −80 or ≥ −20; high iff ≤ −80; never low |
| Alerts.CheckOverboughtOversold | core/alert_system.py:184-318 | at most four alerts, all overbought/oversold, no two from the same indicator |
| Alerts.Present | core/alert_system.py:364 | `dropna()` keeps only present values, taken from the input |
| Alerts.PresentCounts | core/alert_system.py:364 | `dropna()` keeps every present value exactly as often as it occurs and no missing cell |
| Alerts.PresentAppend | core/alert_system.py:364 | `dropna()` of a concatenation is the concatenation of the two `dropna()`s, so the kept values stay in order |
| Alerts.RsiDivergence | core/alert_system.py:328-360 | over the last 10 rows, only the two RSI divergence alerts can appear, at most one; the high top alert alone iff top divergence, the medium bottom alert alone iff bottom divergence |
| Alerts.ObvDivergence | core/alert_system.py:362-396 | only the two OBV divergence alerts can appear, at most one; fewer than 3 present OBV values give nothing; otherwise the high top / medium bottom alert alone iff the divergence of the last k closes against the k present OBV values |
| Alerts.CheckDivergence | core/alert_system.py:320-401 | fewer than 10 rows give no alert; at most 2 alerts, none low |
| Alerts.BandBreak | core/alert_system.py:413-433 | exactly one medium Bollinger alert iff close and both bands are present and close is outside them; upper break takes precedence over lower |
| Alerts.ZeroBreak | core/alert_system.py:435-459 | exactly one low MACD alert iff both MACD values are present and MACD crossed zero; the upward cross takes precedence |
| Alerts.CheckBreakout | core/alert_system.py:403-464 | only the four breakout alerts, never high; exactly one medium alert if close is outside the bands and none otherwise, exactly one low alert if MACD crossed zero and none otherwise; the upper-band alert iff close > upper band, the lower-band alert iff not above the upper and below the lower, the zero-up alert iff MACD > 0 ≥ previous MACD, the zero-down alert iff MACD < 0 ≤ previous MACD |
| Alerts.CheckMaAlignment | core/alert_system.py:466-514 | exactly one alert iff close, SMA_5 and SMA_20 are present; low iff a strict bull or bear chain, medium otherwise |
| Alerts.CheckSignalConflict | core/alert_system.py:516-559 | signal-conflict alerts only, never high; exactly one medium alert if ≥ 2 Buy and ≥ 2 Sell judgements and none otherwise; exactly one low alert if confidence < 30 and none otherwise |
| Alerts.GeneratedSignalNeverLowConfidence | core/alert_system.py:543-554 | a signal from generate_signals raises no low-confidence alert |
| Alerts.Count | core/alert_system.py:83-87 | a per-level count never exceeds the number of alerts |
| Alerts.CountsPartition | core/alert_system.py:83-87 | high + medium + low counts equal the number of alerts |
| Alerts.OverallRisk | core/alert_system.py:561-585 | high iff high ≥ 1 or medium ≥ 3; medium iff no high and 1–2 medium; low iff neither; the low count plays no part |
| Alerts.OverallRiskMonotone | core/alert_system.py:561-581 | more high or medium alerts never lower the overall risk |
| Alerts.CollectAlerts | core/alert_system.py:59-80 | the six detectors extend the list in order, signal conflicts only with signal data |
| Alerts.GenerateAlerts | core/alert_system.py:32-97 | the alerts, their per-level counts summing to the number of alerts, and the overall risk of those counts |
| Alerts.OverboughtCascade | core/alert_system.py:184-318 | extreme RSI, J, CCI and WR give four high alerts, so the overall risk is high whatever else fires |
| Alerts.SevereOverboughtHighs | core/alert_system.py:184-318 | at RSI ≥ 80, J ≥ 100, CCI ≥ 200 and WR ≤ -80 the overbought/oversold check raises exactly four high alerts |
| Alerts.OverboughtCounted | core/alert_system.py:59-87 | the report has at least as many high alerts as the overbought/oversold check raises |
| Alerts.OfLevel | core/alert_system.py:633-634 | the alerts of one level, as many as its count; every alert of that level is kept exactly as often as it occurs in the report |
| Alerts.OfLevelAppend | core/alert_system.py:633-634 | selecting a level from a concatenation concatenates the two selections, so the selected alerts stay in report order |
| Alerts.SummaryOf | core/alert_system.py:588-642 | calm text iff there are no alerts; otherwise the key alerts are exactly the high alerts in report order followed by the first min(2, #medium) medium alerts in report order, none low |
| Predictor.RoundHalfEven | core/predictor.py:419-421 | the rounded integer lies within 0.5 of its argument |
| Predictor.Round2 | core/predictor.py:419-421 | `round(v, 2)` is within 0.005 of v and keeps a non-negative value non-negative |
| Predictor.Round1 | core/predictor.py:319-321 | `round(v, 1)` is within 0.05 of v and keeps a non-negative value non-negative |
| Predictor.Trunc | core/predictor.py:405-409 | `int()` truncates: the floor for non-negative values, never larger in magnitude |
| Predictor.SortedSet | core/predictor.py:178-180 | `sorted(set(xs))`: strictly ascending with exactly the values of xs |
| Predictor.RoundPositive | core/predictor.py:178-179 | rounded values of exactly the present candidates above 0; all ≥ 0 |
| Predictor.Below | core/predictor.py:181 | keeps exactly the levels below the price, still ascending |
| Predictor.Above | core/predictor.py:211 | keeps exactly the levels above the price, still ascending |
| Predictor.LastThree | core/predictor.py:214 | the three largest (or all) levels, ascending, every dropped level below every kept one |
| Predictor.FirstThree | core/predictor.py:215-219 | the three smallest (or all) levels, ascending, every dropped level above every kept one |
| Predictor.Highs | core/predictor.py:115-118 | one entry per row: row i's high when the frame has a high column, otherwise exactly the close column |
| Predictor.Lows | core/predictor.py:120-123 | one entry per row: row i's low when the frame has a low column, otherwise exactly the close column |
| Predictor.SupportPool | core/predictor.py:153-181 | all support candidates: ascending, each in [0, price) |
| Predictor.ResistancePool | core/predictor.py:183-211 | all resistance candidates: ascending, each above the price |
| Predictor.SupportResistanceOf | core/predictor.py:93-225 | fewer than 20 rows give empty lists; both lists strictly ascending with ≤ 3 entries, support in [0, price), resistance above the price |
| Predictor.NearestLevelsKept | core/predictor.py:213-219 | support keeps the three nearest levels below the price, resistance the three nearest above |
| Predictor.SupportLevels | core/predictor.py:153-181 | the candidates appended, rounded, de-duplicated, sorted and filtered below the price |
| Predictor.ResistanceLevels | core/predictor.py:183-211 | the candidates appended, rounded, de-duplicated, sorted and filtered above the price |
| Predictor.CalculateSupportResistance | core/predictor.py:84-225 | the method computes SupportResistanceOf |
| Predictor.SignalFactor | core/predictor.py:246-254 | adds a non-negative amount to exactly one score |
| Predictor.MaFactor | core/predictor.py:268-275 | adds a non-negative amount to exactly one score |
| Predictor.MomentumFactor | core/predictor.py:277-286 | adds a non-negative amount to exactly one score |
| Predictor.RsiFactor | core/predictor.py:288-296 | adds a non-negative amount to exactly one score |
| Predictor.KdjFactor | core/predictor.py:298-307 | adds a non-negative amount to exactly one score |
| Predictor.TrendScores | core/predictor.py:241-307 | up and down stay ≥ 0 and sideways ≥ 10, so the total is positive |
| Predictor.Fractions | core/predictor.py:309-316 | the unrounded fractions lie in [0, 1] and sum to 1 |
| Predictor.Normalise | core/predictor.py:318-322 | each rounded percentage lies in [0, 100.05] |
| Predictor.RoundedPercentSum | core/predictor.py:309-322 | the three rounded percentages sum to within 0.1 of 100 |
| Predictor.TrendProbabilityBounds | core/predictor.py:231-322 | every percentage is non-negative and the three sum to within 0.1 of 100 |
| Predictor.AddTrendFactors | core/predictor.py:246-286 | factors 1–3 applied to the running scores |
| Predictor.AddOscillatorFactors | core/predictor.py:288-307 | factors 4–5 applied to the running scores |
| Predictor.PredictTrendProbability | core/predictor.py:231-326 | the accumulating method computes the trend probability |
| Predictor.SqrtDay | core/predictor.py:376-379 | √day ≥ 1 for the three horizons |
| Predictor.RawBandBrackets | core/predictor.py:368-380 | with volatility ≥ 0 and target ≥ 0, low ≤ target ≤ high before clamping |
| Predictor.TargetFollowsProbabilities | core/predictor.py:368-371 | with positive volatility, target > price iff up > down and target < price iff up < down |
| Predictor.Clamp | core/predictor.py:382-392 | high ≤ 1.01 × resistance[0] when it exceeded it, low ≥ 0.99 × support[-1] when it undercut it, otherwise unchanged; the target is untouched |
| Predictor.PredictSingleDay | core/predictor.py:328-427 | 上涨 iff up/100 > 50, 下跌 iff not and down/100 > 50; a 横盘 score is int(sideways/100); high iff score ≥ 60, low iff < 45; prices present iff < 20 rows or a volatility |
| Predictor.AlwaysSidewaysLow | core/predictor.py:395-416 | for percentages in the normal range every horizon is 横盘 with score 0 or 1 and confidence low |
| Predictor.HorizonsShape | core/predictor.py:58-62 | the horizon map has the three keys, each holding its day's prediction |
| Predictor.HorizonsFacts | core/predictor.py:58-62 | keys exactly prediction_1d/2d/3d, each its day's prediction, all 横盘 / low |
| Predictor.PredictHorizons | core/predictor.py:58-62 | the horizon loop builds the three-entry map |
| Predictor.PredictPrice | core/predictor.py:22-82 | missing or non-positive close gives the empty bundle (no horizons, empty levels, 33/33/34); otherwise the levels, the probabilities and exactly the three horizons, all 横盘 / low |
| Analysis.RollingMean | core/analysis.py:193-196 | present iff the row has n rows up to it and none of them is NaN |
| Analysis.RollingMeanWithinWindow | core/analysis.py:193-196 | a present rolling mean lies between the window's smallest and largest close |
| Analysis.RollingMeanOfFlatWindow | core/analysis.py:193-196 | a window of equal closes has that close as its mean |
| Analysis.IndicatorFrame | core/analysis.py:192-209 | one indicator row per bar |
| Analysis.IndicatorColumns | core/analysis.py:193-209 | SMA_n is missing for the first n − 1 rows and equals the rolling mean; the middle band is SMA_20; the outer bands are present iff SMA_20 and std are, with lower ≤ middle ≤ upper; the histogram is MACD − signal |
| Analysis.NarrationLength | core/analysis.py:216-220 | the three narrators append at least 2 lines |
| Analysis.DailyGates | core/analysis.py:185-230 | insufficient iff < 61 rows; calculation failure iff ≥ 61 rows all with NaN close; the < 2 rows gate never fires; an analysed history keeps all rows, its status is the classifier's label of the latest row, one of five, with ≥ 2 narrative lines |
| Analysis.AnalyzeDaily | core/analysis.py:185-234 | the per-item body computes the gated report |
| Analysis.NarrateAndJudge | core/analysis.py:214-230 | the three narrators append to one list, then the classifier labels the latest row |
| Analysis.IntradayPoints | core/analysis.py:291-298 | exactly one point; 日内大幅上涨 iff change > 2.5, 日内大幅下跌 iff change < −2.5, 盘中信号平稳 iff neither; never both |
| Analysis.FirstQuote | core/analysis.py:274-276 | present iff some snapshot row has the code, and then it is the first such row |
| Analysis.SignalsFromPool | core/analysis.py:271-278 | at most one signal per item, each for a pool item quoted in the snapshot |
| Analysis.SignalsOfQuotedPool | core/analysis.py:271-278 | with every item quoted, exactly one signal per item in pool order |
| Analysis.SignalsOfUnquotedPool | core/analysis.py:271-278 | with no item quoted, no signals |
| Analysis.QuotedItems | core/analysis.py:271-278 | the pool items with a snapshot row: each is a quoted pool item, and every quoted pool item is kept |
| Analysis.QuotedItemsSnoc | core/analysis.py:271-278 | extending the pool by one item extends the quoted items by that item exactly when it is quoted |
| Analysis.SignalsOfQuotedItems | core/analysis.py:271-278 | for every pool and snapshot, the k-th signal is built from the first snapshot row of the k-th quoted pool item, and there are as many signals as quoted items |
| Analysis.IntradaySignalGenerator.CreateSignalDict | core/analysis.py:280-299 | stock and ETF branches agree: the change is the raw change and the points follow IntradayPoints |
| Analysis.IntradaySignalGenerator.GenerateSignals | core/analysis.py:271-278 | the loop returns Signals of the pool, which SignalsOfQuotedItems identifies as one signal per quoted pool item, in pool order |

## Left out

- Text formatting: the numbers embedded in reasons, alert messages and narrative strings are left out. A reason or alert carries the reading or the topic instead of the formatted text.
- Summary formatting: `generate_signal_summary` and `generate_prediction_summary` are left out. `generate_alert_summary` is modelled only for its list selection; its string joining is left out.
- Exception paths: the catch-all `except` branches and their logging are left out. The modelled functions are total over their inputs, and no input modelled here raises.
- PricePredictorDebug: this duplicate debug class is left out. It builds debug dictionaries and is not used by the base predictor.
- The `isinstance(historical_data, DataFrame)` check of the support/resistance method is left out. The history is always a frame here.
- Floating-point smoothers are parameters of the model, with only their sign facts:
  - the 12/26/9-span EMAs;
  - the rolling standard deviation;
  - the ATR rolling mean;
  - `pct_change` means and standard deviations;
  - the √252 annualising and de-annualising, which cancels.
- ATR fallback: the `(high − low) × 0.1` branch is left out. It is unreachable, because that code runs only with at least 20 rows.
- Predictor.RoundHalfEven: `round()` is round-half-even on the exact real value, not on its binary floating-point representation.
- Orchestration of the daily analysis is left out: fetching, the asynchronous fan-out, renaming columns, date parsing, numeric coercion (bars arrive coerced) and sorting by `ai_score`.
- The check for a missing close column (core/analysis.py:182) is left out. Line 177 already uses the column.
- Indicator frames: the in-place column assignments are modelled as a function that builds each row. Analysis.IndicatorFrame gives every column the daily analysis does not add (RSI, KDJ, CCI, OBV, WR) as missing.
- Intraday snapshot: a snapshot row without a change column is given as a change of 0.0 by the caller. This matches `get('涨跌幅', 0)`.
- The LLM commentary, the data-fetch layer, the web application and the one-off scripts are outside this model. They are I/O and foreign calls.
