/**
 * Trend classifier and narrators (core/indicators.py).
 *
 * judge_trend_status is a pure classifier of the latest row. analyze_ma,
 * analyze_macd and analyze_bollinger append narrative lines to a list owned by
 * the caller; that list is the `items` field of a TrendSignals object, and each
 * narrator is a method that only appends to it. The lines are values of the
 * datatype Narrative; Narrative.Text() gives the exact wording the source appends.
 */
module Indicators {
  import opened Frames

  // ---------------------------------------------------------------------------
  // judge_trend_status
  // ---------------------------------------------------------------------------

  datatype TrendStatus =
    | DataAnomaly | MaInsufficient | Uptrend | Downtrend
    | StrongUptrend | WeakDowntrend | Oscillating
  {
    function Label(): string {
      match this
      case DataAnomaly => "🟡 数据异常"
      case MaInsufficient => "🟡 均线数据不足"
      case Uptrend => "🟢 上升趋势"
      case Downtrend => "🔴 下降趋势"
      case StrongUptrend => "🟢 强势上升趋势"
      case WeakDowntrend => "🔴 弱势下降趋势"
      case Oscillating => "🟡 震荡趋势"
    }
  }

  /**
   * The Bollinger override: close lies within 0.5% of the middle band. A zero
   * middle band makes the source divide by zero, which numpy turns into inf or
   * NaN, so the test is false there.
   */
  predicate NearMiddleBand(close: real, middle: Option<real>) {
    middle.Some? && middle.value != 0.0 && Abs(close - middle.value) / middle.value < 0.005
  }

  /** The label set by the SMA_20 test and refined by the SMA_20/SMA_60 test, before the Bollinger override. */
  function MaTrend(close: real, sma20: Option<real>, sma60: Option<real>): TrendStatus {
    var primary :=
      if sma20.Some? then (if close > sma20.value then Uptrend else Downtrend)
      else MaInsufficient;
    if sma20.Some? && sma60.Some? then
      if close > sma20.value && sma20.value > sma60.value then StrongUptrend
      else if close < sma20.value && sma20.value < sma60.value then WeakDowntrend
      else Oscillating
    else if primary != MaInsufficient then Oscillating
    else primary
  }

  function JudgeTrendStatus(latest: Row): (s: TrendStatus)
    ensures latest.close.None? ==> s == DataAnomaly
    ensures s in {DataAnomaly, MaInsufficient, StrongUptrend, WeakDowntrend, Oscillating}
    ensures latest.close.Some? && NearMiddleBand(latest.close.value, latest.bbm) ==> s == Oscillating
    ensures s == MaInsufficient <==>
              latest.close.Some? && latest.sma20.None? && !NearMiddleBand(latest.close.value, latest.bbm)
    ensures s == StrongUptrend <==>
              && latest.close.Some? && latest.sma20.Some? && latest.sma60.Some?
              && latest.close.value > latest.sma20.value > latest.sma60.value
              && !NearMiddleBand(latest.close.value, latest.bbm)
    ensures s == WeakDowntrend <==>
              && latest.close.Some? && latest.sma20.Some? && latest.sma60.Some?
              && latest.close.value < latest.sma20.value < latest.sma60.value
              && !NearMiddleBand(latest.close.value, latest.bbm)
  {
    if latest.close.None? then DataAnomaly
    else
      var close := latest.close.value;
      var status := MaTrend(close, latest.sma20, latest.sma60);
      if NearMiddleBand(close, latest.bbm) then Oscillating else status
  }

  // ---------------------------------------------------------------------------
  // Narrative lines
  // ---------------------------------------------------------------------------

  datatype Narrative =
    // analyze_ma
    | MaCloseMissing
    | PriceAboveMa(len: nat) | PriceBelowMa(len: nat) | MaMissing(len: nat)
    | MaGoldenCross(short: nat, long: nat) | MaDeathCross(short: nat, long: nat)
    | MaBullishStack(short: nat, long: nat) | MaBearishStack(short: nat, long: nat)
    | MaPairMissing(short: nat, long: nat)
    | Sma60Rising | Sma60Falling | Sma60Flat | Sma60Missing
    // analyze_macd
    | MacdGoldenCross | MacdDeathCross | MacdAboveSignal | MacdBelowSignal
    | MacdAboveZero | MacdBelowZero | MacdAtZero
    | RedBarGrowing | RedBarShrinking | RedBarFlat
    | GreenBarGrowing | GreenBarShrinking | GreenBarFlat | HistogramAtZero
    | MacdMissing
    // analyze_bollinger
    | BollAboveUpper | BollBelowLower | BollAboveMiddle | BollBelowMiddle
    | BollOscillating | BollOscillationDataMissing | BollDataMissing
  {
    /** The line exactly as the source appends it. */
    function Text(): string {
      match this
      case MaCloseMissing => "收盘价数据缺失，无法进行均线分析。"
      case PriceAboveMa(n) => "股价高于" + LenText(n) + "日均线。"
      case PriceBelowMa(n) => "股价低于" + LenText(n) + "日均线。"
      case MaMissing(n) => LenText(n) + "日均线数据缺失。"
      case MaGoldenCross(s, l) => LenText(s) + "日均线金叉" + LenText(l) + "日均线（看涨信号）。"
      case MaDeathCross(s, l) => LenText(s) + "日均线死叉" + LenText(l) + "日均线（看跌信号）。"
      case MaBullishStack(s, l) => LenText(s) + "日均线在" + LenText(l) + "日均线上方，多头排列延续。"
      case MaBearishStack(s, l) => LenText(s) + "日均线在" + LenText(l) + "日均线下方，空头排列延续。"
      case MaPairMissing(s, l) => LenText(s) + "日与" + LenText(l) + "日均线数据缺失，无法判断交叉。"
      case Sma60Rising => "60日均线趋势向上（中长期趋势积极）。"
      case Sma60Falling => "60日均线趋势向下（中长期趋势谨慎）。"
      case Sma60Flat => "60日均线趋势持平（中长期趋势中性）。"
      case Sma60Missing => "60日均线数据缺失，无法判断趋势。"
      case MacdGoldenCross => "MACD金叉（看涨信号）。"
      case MacdDeathCross => "MACD死叉（看跌信号）。"
      case MacdAboveSignal => "MACD线在信号线上方，多头延续。"
      case MacdBelowSignal => "MACD线在信号线下方，空头延续。"
      case MacdAboveZero => "MACD线在零轴上方，市场偏强。"
      case MacdBelowZero => "MACD线在零轴下方，市场偏弱。"
      case MacdAtZero => "MACD线在零轴附近，市场中性。"
      case RedBarGrowing => "MACD红柱增长，多头力量增强。"
      case RedBarShrinking => "MACD红柱缩短，多头力量减弱。"
      case RedBarFlat => "MACD红柱持平，多头力量维持。"
      case GreenBarGrowing => "MACD绿柱增长，空头力量增强。"
      case GreenBarShrinking => "MACD绿柱缩短，空头力量减弱。"
      case GreenBarFlat => "MACD绿柱持平，空头力量维持。"
      case HistogramAtZero => "MACD柱线在零轴，多空平衡。"
      case MacdMissing => "MACD指标数据缺失或不完整，无法分析。"
      case BollAboveUpper => "收盘价突破布林上轨，短线超买，警惕回调。"
      case BollBelowLower => "收盘价跌破布林下轨，短线超卖，关注反弹。"
      case BollAboveMiddle => "收盘价位于布林中轨之上，趋势偏强。"
      case BollBelowMiddle => "收盘价位于布林中轨之下，趋势偏弱。"
      case BollOscillating => "近期收盘价频繁上下穿布林中轨，市场震荡明显。"
      case BollOscillationDataMissing => "布林通道震荡判别数据不足或列缺失。"
      case BollDataMissing => "布林通道数据不足或关键数据缺失，无法分析。"
    }

    predicate IsBollPosition() {
      BollAboveUpper? || BollBelowLower? || BollAboveMiddle? || BollBelowMiddle?
    }
  }

  function LenText(n: nat): string {
    if n == 5 then "5" else if n == 10 then "10" else if n == 20 then "20" else "60"
  }

  // ---------------------------------------------------------------------------
  // analyze_ma: what it appends
  // ---------------------------------------------------------------------------

  const MaLengths: seq<nat> := [5, 10, 20, 60]
  const MaPairs: seq<(nat, nat)> := [(5, 10), (10, 20), (20, 60)]

  function SmaOf(r: Row, len: nat): Option<real> {
    if len == 5 then r.sma5 else if len == 10 then r.sma10 else if len == 20 then r.sma20 else r.sma60
  }

  /** Price against one moving average; a tie counts as "below". */
  function PriceVsMa(close: real, len: nat, sma: Option<real>): (n: Narrative)
    ensures n == PriceAboveMa(len) <==> sma.Some? && close > sma.value
    ensures n == PriceBelowMa(len) <==> sma.Some? && close <= sma.value
    ensures n == MaMissing(len) <==> sma.None?
  {
    if sma.Some? then (if close > sma.value then PriceAboveMa(len) else PriceBelowMa(len))
    else MaMissing(len)
  }

  /** The four price-versus-MA lines for SMA_5, SMA_10, SMA_20, SMA_60, in that order. */
  function PriceVsMaLines(close: real, latest: Row): (r: seq<Narrative>)
    ensures |r| == 4
    ensures forall k :: 0 <= k < 4 ==> r[k] == PriceVsMa(close, MaLengths[k], SmaOf(latest, MaLengths[k]))
  {
    seq(4, k requires 0 <= k < 4 => PriceVsMa(close, MaLengths[k], SmaOf(latest, MaLengths[k])))
  }

  /**
   * The crossing rule shared by the MA pairs: a golden cross is "short above long
   * now, not above before"; a death cross is "short below long now, not below
   * before". Being one value, the line can never be both.
   */
  function PairLine(s: nat, l: nat, curS: Option<real>, curL: Option<real>,
                    prevS: Option<real>, prevL: Option<real>): (n: Narrative)
    ensures n == MaGoldenCross(s, l) <==>
              curS.Some? && curL.Some? && prevS.Some? && prevL.Some? &&
              curS.value > curL.value && prevS.value <= prevL.value
    ensures n == MaDeathCross(s, l) <==>
              curS.Some? && curL.Some? && prevS.Some? && prevL.Some? &&
              curS.value < curL.value && prevS.value >= prevL.value
    ensures n == MaPairMissing(s, l) <==> curS.None? || curL.None? || prevS.None? || prevL.None?
  {
    if curS.Some? && curL.Some? && prevS.Some? && prevL.Some? then
      if curS.value > curL.value && prevS.value <= prevL.value then MaGoldenCross(s, l)
      else if curS.value < curL.value && prevS.value >= prevL.value then MaDeathCross(s, l)
      else if curS.value > curL.value then MaBullishStack(s, l)
      else MaBearishStack(s, l)
    else MaPairMissing(s, l)
  }

  function PairLines(latest: Row, prev: Row): (r: seq<Narrative>)
    ensures |r| == 3
  {
    seq(3, k requires 0 <= k < 3 =>
      var (s, l) := MaPairs[k];
      PairLine(s, l, SmaOf(latest, s), SmaOf(latest, l), SmaOf(prev, s), SmaOf(prev, l)))
  }

  function Sma60TrendLine(cur: Option<real>, prev: Option<real>): Narrative {
    if cur.Some? && prev.Some? then
      if cur.value > prev.value then Sma60Rising
      else if cur.value < prev.value then Sma60Falling
      else Sma60Flat
    else Sma60Missing
  }

  /** Everything analyze_ma appends for one (latest, previous) pair of rows. */
  function MaLines(latest: Row, prev: Row): (r: seq<Narrative>)
    ensures latest.close.None? ==> r == [MaCloseMissing]
    ensures latest.close.Some? ==> |r| == 8
    ensures latest.close.Some? ==>
              (forall k :: 0 <= k < 4 ==> r[k].PriceAboveMa? || r[k].PriceBelowMa? || r[k].MaMissing?) &&
              (forall k :: 4 <= k < 7 ==>
                 r[k].MaGoldenCross? || r[k].MaDeathCross? || r[k].MaBullishStack? ||
                 r[k].MaBearishStack? || r[k].MaPairMissing?) &&
              (r[7].Sma60Rising? || r[7].Sma60Falling? || r[7].Sma60Flat? || r[7].Sma60Missing?)
  {
    if latest.close.None? then [MaCloseMissing]
    else
      PriceVsMaLines(latest.close.value, latest) + PairLines(latest, prev)
      + [Sma60TrendLine(latest.sma60, prev.sma60)]
  }

  // ---------------------------------------------------------------------------
  // analyze_macd: what it appends
  // ---------------------------------------------------------------------------

  predicate MacdComplete(latest: Row, prev: Row) {
    latest.macd.Some? && latest.macds.Some? && latest.macdh.Some? &&
    prev.macd.Some? && prev.macds.Some? && prev.macdh.Some?
  }

  function MacdCrossLine(lm: real, ls: real, pm: real, ps: real): (n: Narrative)
    ensures n == MacdGoldenCross <==> lm > ls && pm <= ps
    ensures n == MacdDeathCross <==> lm < ls && pm >= ps
  {
    if lm > ls && pm <= ps then MacdGoldenCross
    else if lm < ls && pm >= ps then MacdDeathCross
    else if lm > ls then MacdAboveSignal
    else MacdBelowSignal
  }

  function MacdZeroLine(lm: real): Narrative {
    if lm > 0.0 then MacdAboveZero else if lm < 0.0 then MacdBelowZero else MacdAtZero
  }

  function HistogramLine(lh: real, ph: real): (n: Narrative)
    ensures n.RedBarGrowing? || n.RedBarShrinking? || n.RedBarFlat? <==> lh > 0.0
    ensures n.GreenBarGrowing? || n.GreenBarShrinking? || n.GreenBarFlat? <==> lh < 0.0
  {
    if lh > 0.0 then
      if lh > ph then RedBarGrowing else if lh < ph then RedBarShrinking else RedBarFlat
    else if lh < 0.0 then
      if lh < ph then GreenBarGrowing else if lh > ph then GreenBarShrinking else GreenBarFlat
    else HistogramAtZero
  }

  /** Everything analyze_macd appends: three lines with all six values present, one otherwise. */
  function MacdLines(latest: Row, prev: Row): (r: seq<Narrative>)
    ensures |r| == if MacdComplete(latest, prev) then 3 else 1
    ensures !MacdComplete(latest, prev) ==> r == [MacdMissing]
    ensures MacdGoldenCross in r <==>
              MacdComplete(latest, prev) &&
              latest.macd.value > latest.macds.value && prev.macd.value <= prev.macds.value
    ensures MacdDeathCross in r <==>
              MacdComplete(latest, prev) &&
              latest.macd.value < latest.macds.value && prev.macd.value >= prev.macds.value
  {
    if MacdComplete(latest, prev) then
      [MacdCrossLine(latest.macd.value, latest.macds.value, prev.macd.value, prev.macds.value),
       MacdZeroLine(latest.macd.value),
       HistogramLine(latest.macdh.value, prev.macdh.value)]
    else [MacdMissing]
  }

  // ---------------------------------------------------------------------------
  // analyze_bollinger: the mid-band crossing count and what it appends
  // ---------------------------------------------------------------------------

  /** Close crosses the middle band between two consecutive rows (all four values present). */
  predicate Crossed(prev: Row, cur: Row) {
    && prev.close.Some? && prev.bbm.Some? && cur.close.Some? && cur.bbm.Some?
    && ((prev.close.value <= prev.bbm.value && cur.close.value > cur.bbm.value) ||
        (prev.close.value >= prev.bbm.value && cur.close.value < cur.bbm.value))
  }

  /** Number of consecutive pairs of w across which close crosses the middle band. */
  function Crossings(w: seq<Row>): (c: nat)
    ensures |w| > 0 ==> c < |w|
    ensures |w| <= 1 ==> c == 0
  {
    if |w| < 2 then 0
    else Crossings(w[..|w| - 1]) + (if Crossed(w[|w| - 2], w[|w| - 1]) then 1 else 0)
  }

  /** The window the source scans: the last min(len, 5) rows. */
  function CrossWindow(result: seq<Row>): (w: seq<Row>)
    ensures |w| == Min(|result|, 5)
  {
    result[|result| - Min(|result|, 5)..]
  }

  /** The crossing count of analyze_bollinger: crossings inside the last min(len, 5) rows. */
  function CrossCount(result: seq<Row>): (c: nat)
    ensures |result| > 0 ==> c <= Min(|result|, 5) - 1
    ensures |result| == 0 ==> c == 0
  {
    Crossings(CrossWindow(result))
  }

  predicate BandsComplete(latest: Row) {
    latest.bbu.Some? && latest.bbm.Some? && latest.bbl.Some? && latest.close.Some?
  }

  /** Close against the bands; nothing when close sits exactly on the middle band inside the bands. */
  function PositionLines(close: real, upper: real, middle: real, lower: real): (r: seq<Narrative>)
    ensures |r| <= 1
    ensures lower <= middle <= upper && close == middle ==> r == []
    ensures forall n :: n in r ==> n.IsBollPosition()
  {
    if close > upper then [BollAboveUpper]
    else if close < lower then [BollBelowLower]
    else if close > middle then [BollAboveMiddle]
    else if close < middle then [BollBelowMiddle]
    else []
  }

  /** Everything analyze_bollinger appends for the frame `result` and its latest row. */
  function BollingerLines(result: seq<Row>, latest: Row): (r: seq<Narrative>)
    ensures !BandsComplete(latest) ==> r == [BollDataMissing]
    ensures BollOscillating in r <==>
              BandsComplete(latest) && |result| >= 2 && CrossCount(result) >= 2
    ensures BandsComplete(latest) && latest.bbl.value <= latest.bbm.value <= latest.bbu.value &&
            latest.close.value == latest.bbm.value ==>
              forall n :: n in r ==> !n.IsBollPosition()
  {
    if BandsComplete(latest) then
      PositionLines(latest.close.value, latest.bbu.value, latest.bbm.value, latest.bbl.value) +
      (if |result| >= 2 then (if CrossCount(result) >= 2 then [BollOscillating] else [])
       else [BollOscillationDataMissing])
    else [BollDataMissing]
  }

  /**
   * The crossing-count loop of analyze_bollinger, indexing from the tail as the
   * source does: with num = min(len, 5), step i in 1..num-1 compares row
   * -1-(num-1-i) with the row before it.
   */
  method CountMidBandCrossings(result: seq<Row>) returns (count: nat)
    requires |result| >= 2
    ensures count == CrossCount(result)
    ensures count < Min(|result|, 5)
  {
    var n := |result|;
    var num := Min(n, 5);
    ghost var w := CrossWindow(result);
    count := 0;
    for i := 1 to num
      invariant count == Crossings(w[..i])
    {
      var cur := n - 1 - (num - 1 - i);
      var prev := cur - 1;
      assert w[..i + 1][..i] == w[..i];
      assert w[i - 1] == result[prev] && w[i] == result[cur];
      if Crossed(result[prev], result[cur]) {
        count := count + 1;
      }
    }
    assert w[..num] == w;
  }

  // ---------------------------------------------------------------------------
  // The caller-owned list the narrators append to
  // ---------------------------------------------------------------------------

  class TrendSignals {
    var items: seq<Narrative>

    constructor ()
      ensures items == []
    {
      items := [];
    }

    /** analyze_ma: price against each MA, the three pair relations, the SMA_60 direction. */
    method AnalyzeMa(latest: Row, prev: Row)
      modifies this
      ensures items == old(items) + MaLines(latest, prev)
    {
      if latest.close.None? {
        items := items + [MaCloseMissing];
        return;
      }
      AppendPriceVsMa(latest.close.value, latest);
      AppendPairLines(latest, prev);
      AppendSma60Trend(latest.sma60, prev.sma60);
    }

    /** The first loop of analyze_ma: close against SMA_5, SMA_10, SMA_20 and SMA_60. */
    method AppendPriceVsMa(close: real, latest: Row)
      modifies this
      ensures items == old(items) + PriceVsMaLines(close, latest)
    {
      for k := 0 to |MaLengths|
        invariant items == old(items) + PriceVsMaLines(close, latest)[..k]
      {
        var len := MaLengths[k];
        var sma := SmaOf(latest, len);
        if sma.Some? {
          if close > sma.value {
            items := items + [PriceAboveMa(len)];
          } else {
            items := items + [PriceBelowMa(len)];
          }
        } else {
          items := items + [MaMissing(len)];
        }
        assert PriceVsMaLines(close, latest)[..k + 1] == PriceVsMaLines(close, latest)[..k] + [PriceVsMa(close, len, sma)];
      }
      assert PriceVsMaLines(close, latest)[..|MaLengths|] == PriceVsMaLines(close, latest);
    }

    /** The second loop of analyze_ma: the (5, 10), (10, 20) and (20, 60) pairs. */
    method AppendPairLines(latest: Row, prev: Row)
      modifies this
      ensures items == old(items) + PairLines(latest, prev)
    {
      for k := 0 to |MaPairs|
        invariant items == old(items) + PairLines(latest, prev)[..k]
      {
        var (s, l) := MaPairs[k];
        var curS, curL := SmaOf(latest, s), SmaOf(latest, l);
        var prevS, prevL := SmaOf(prev, s), SmaOf(prev, l);
        if curS.Some? && curL.Some? && prevS.Some? && prevL.Some? {
          if curS.value > curL.value && prevS.value <= prevL.value {
            items := items + [MaGoldenCross(s, l)];
          } else if curS.value < curL.value && prevS.value >= prevL.value {
            items := items + [MaDeathCross(s, l)];
          } else if curS.value > curL.value {
            items := items + [MaBullishStack(s, l)];
          } else {
            items := items + [MaBearishStack(s, l)];
          }
        } else {
          items := items + [MaPairMissing(s, l)];
        }
        assert PairLines(latest, prev)[..k + 1] == PairLines(latest, prev)[..k] + [PairLine(s, l, curS, curL, prevS, prevL)];
      }
      assert PairLines(latest, prev)[..|MaPairs|] == PairLines(latest, prev);
    }

    /** The last block of analyze_ma: the direction of SMA_60. */
    method AppendSma60Trend(cur60: Option<real>, prev60: Option<real>)
      modifies this
      ensures items == old(items) + [Sma60TrendLine(cur60, prev60)]
    {
      if cur60.Some? && prev60.Some? {
        if cur60.value > prev60.value {
          items := items + [Sma60Rising];
        } else if cur60.value < prev60.value {
          items := items + [Sma60Falling];
        } else {
          items := items + [Sma60Flat];
        }
      } else {
        items := items + [Sma60Missing];
      }
    }

    /** analyze_macd: signal-line cross, zero-axis position, histogram change. */
    method AnalyzeMacd(latest: Row, prev: Row)
      modifies this
      ensures items == old(items) + MacdLines(latest, prev)
    {
      if MacdComplete(latest, prev) {
        var lm, ls, lh := latest.macd.value, latest.macds.value, latest.macdh.value;
        var pm, ps, ph := prev.macd.value, prev.macds.value, prev.macdh.value;
        AppendMacdCross(lm, ls, pm, ps);
        AppendMacdZero(lm);
        AppendHistogram(lh, ph);
      } else {
        items := items + [MacdMissing];
      }
    }

    /** The first MACD block: the DIF line against its signal line. */
    method AppendMacdCross(lm: real, ls: real, pm: real, ps: real)
      modifies this
      ensures items == old(items) + [MacdCrossLine(lm, ls, pm, ps)]
    {
      if lm > ls && pm <= ps {
        items := items + [MacdGoldenCross];
      } else if lm < ls && pm >= ps {
        items := items + [MacdDeathCross];
      } else if lm > ls {
        items := items + [MacdAboveSignal];
      } else {
        items := items + [MacdBelowSignal];
      }
    }

    /** The second MACD block: the DIF line against the zero axis. */
    method AppendMacdZero(lm: real)
      modifies this
      ensures items == old(items) + [MacdZeroLine(lm)]
    {
      if lm > 0.0 {
        items := items + [MacdAboveZero];
      } else if lm < 0.0 {
        items := items + [MacdBelowZero];
      } else {
        items := items + [MacdAtZero];
      }
    }

    /** The third MACD block: the histogram bar and its change since the previous row. */
    method AppendHistogram(lh: real, ph: real)
      modifies this
      ensures items == old(items) + [HistogramLine(lh, ph)]
    {
      if lh > 0.0 {
        if lh > ph {
          items := items + [RedBarGrowing];
        } else if lh < ph {
          items := items + [RedBarShrinking];
        } else {
          items := items + [RedBarFlat];
        }
      } else if lh < 0.0 {
        if lh < ph {
          items := items + [GreenBarGrowing];
        } else if lh > ph {
          items := items + [GreenBarShrinking];
        } else {
          items := items + [GreenBarFlat];
        }
      } else {
        items := items + [HistogramAtZero];
      }
    }

    /** analyze_bollinger: close against the bands, then the oscillation test over the last 5 rows. */
    method AnalyzeBollinger(result: seq<Row>, latest: Row)
      modifies this
      ensures items == old(items) + BollingerLines(result, latest)
    {
      if BandsComplete(latest) {
        var close, upper, middle, lower := latest.close.value, latest.bbu.value, latest.bbm.value, latest.bbl.value;
        if close > upper {
          items := items + [BollAboveUpper];
        } else if close < lower {
          items := items + [BollBelowLower];
        } else if close > middle {
          items := items + [BollAboveMiddle];
        } else if close < middle {
          items := items + [BollBelowMiddle];
        }
        if |result| >= 2 {
          var crossCount := CountMidBandCrossings(result);
          if crossCount >= 2 {
            items := items + [BollOscillating];
          }
        } else {
          items := items + [BollOscillationDataMissing];
        }
      } else {
        items := items + [BollDataMissing];
      }
    }
  }
}
