/**
 * Alert detector (core/alert_system.py): six detectors over the indicator frame
 * and the latest two rows, per-level counting, the overall-risk rule and the
 * selection of key alerts for the summary.
 *
 * Each detector is a function returning the alerts it appends, in order;
 * generate_alerts is a method that extends one list with them. Alert wording
 * that embeds formatted numbers is represented by the alert's Topic.
 */
module Alerts {
  import opened Frames
  import SignalFusion

  datatype Level = High | Medium | Low
  {
    function Name(): string {
      match this
      case High => "high"
      case Medium => "medium"
      case Low => "low"
    }
  }

  datatype AlertType = TrendReversal | OverboughtOversold | Divergence | Breakout | MaAlignment | SignalConflict
  {
    /** AlertSystem.alert_types. */
    function Name(): string {
      match this
      case TrendReversal => "趋势反转"
      case OverboughtOversold => "超买超卖"
      case Divergence => "背离信号"
      case Breakout => "突破预警"
      case MaAlignment => "多空排列"
      case SignalConflict => "信号冲突"
    }
  }

  /** Which message an alert carries. */
  datatype Topic =
    | MacdTopDivergence | MacdBottomDivergence | MaDeathImminent | MaGoldenImminent
    | RsiSevereOverbought | RsiOverbought | RsiSevereOversold | RsiOversold
    | KdjExtremeOverbought | KdjExtremeOversold
    | CciExtremeOverbought | CciOverbought | CciExtremeOversold
    | WrSevereOverbought | WrSevereOversold
    | RsiTopDivergence | RsiBottomDivergence | ObvTopDivergence | ObvBottomDivergence
    | BollUpperBreak | BollLowerBreak | MacdZeroUp | MacdZeroDown
    | MaBullAlignment | MaBearAlignment | MaMixed
    | ConflictingSignals(buys: nat, sells: nat) | LowConfidence(confidence: real)

  datatype Alert = Alert(level: Level, kind: AlertType, indicator: string, topic: Topic)

  // ---------------------------------------------------------------------------
  // _check_trend_reversal
  // ---------------------------------------------------------------------------

  function Macds(rows: seq<Row>): (r: seq<Option<real>>)
    ensures |r| == |rows| && forall i :: 0 <= i < |rows| ==> r[i] == rows[i].macd
  {
    seq(|rows|, i requires 0 <= i < |rows| => rows[i].macd)
  }

  function Rsis(rows: seq<Row>): (r: seq<Option<real>>)
    ensures |r| == |rows| && forall i :: 0 <= i < |rows| ==> r[i] == rows[i].rsi14
  {
    seq(|rows|, i requires 0 <= i < |rows| => rows[i].rsi14)
  }

  function Obvs(rows: seq<Row>): (r: seq<Option<real>>)
    ensures |r| == |rows| && forall i :: 0 <= i < |rows| ==> r[i] == rows[i].obv
  {
    seq(|rows|, i requires 0 <= i < |rows| => rows[i].obv)
  }

  /**
   * The divergence test shared by every detector that uses it: the last price
   * beats the builtin max (min) of the earlier prices while the last indicator
   * value stays below the max (above the min) of the earlier ones.
   */
  predicate TopDivergence(price: seq<Option<real>>, ind: seq<Option<real>>)
    requires |price| >= 2 && |ind| >= 2
  {
    Gt(price[|price| - 1], PyMax(price[..|price| - 1])) &&
    Lt(ind[|ind| - 1], PyMax(ind[..|ind| - 1]))
  }

  predicate BottomDivergence(price: seq<Option<real>>, ind: seq<Option<real>>)
    requires |price| >= 2 && |ind| >= 2
  {
    Lt(price[|price| - 1], PyMin(price[..|price| - 1])) &&
    Gt(ind[|ind| - 1], PyMin(ind[..|ind| - 1]))
  }

  /** A price cannot make a new high and a new low against the same earlier window. */
  lemma NoDoubleDivergence(price: seq<Option<real>>, ind: seq<Option<real>>)
    requires |price| >= 2 && |ind| >= 2
    ensures !(TopDivergence(price, ind) && BottomDivergence(price, ind))
  {
    var init := price[..|price| - 1];
    if TopDivergence(price, ind) {
      PyMinBelowPyMax(init);
    }
  }

  function DivergencePair(price: seq<Option<real>>, ind: seq<Option<real>>,
                          top: Alert, bottom: Alert): (r: seq<Alert>)
    requires |price| >= 2 && |ind| >= 2
    requires top != bottom
    ensures |r| <= 1
    ensures forall a :: a in r ==> a == top || a == bottom
    ensures r == [top] <==> TopDivergence(price, ind)
    ensures r == [bottom] <==> BottomDivergence(price, ind)
  {
    NoDoubleDivergence(price, ind);
    var r := (if TopDivergence(price, ind) then [top] else []) +
             (if BottomDivergence(price, ind) then [bottom] else []);
    assert r == [top] ==> r[0] == top;
    r
  }

  const RsiTopAlert: Alert := Alert(High, Divergence, "RSI", RsiTopDivergence)
  const RsiBottomAlert: Alert := Alert(Medium, Divergence, "RSI", RsiBottomDivergence)
  const ObvTopAlert: Alert := Alert(High, Divergence, "OBV", ObvTopDivergence)
  const ObvBottomAlert: Alert := Alert(Medium, Divergence, "OBV", ObvBottomDivergence)
  const MacdTopAlert: Alert := Alert(High, TrendReversal, "MACD", MacdTopDivergence)
  const MacdBottomAlert: Alert := Alert(Medium, TrendReversal, "MACD", MacdBottomDivergence)
  const MaDeathAlert: Alert := Alert(Medium, TrendReversal, "MA", MaDeathImminent)
  const MaGoldenAlert: Alert := Alert(Medium, TrendReversal, "MA", MaGoldenImminent)

  /** Both MAs present, SMA_5 above the previous SMA_10 but still below the current one. */
  predicate DeathCrossImminent(latest: Row, prev: Row) {
    latest.sma10.Some? && Gt(latest.sma5, prev.sma10) && latest.sma5.value < latest.sma10.value
  }

  /** Both MAs present, SMA_5 below the previous SMA_10 but already above the current one. */
  predicate GoldenCrossImminent(latest: Row, prev: Row) {
    latest.sma10.Some? && Lt(latest.sma5, prev.sma10) && latest.sma5.value > latest.sma10.value
  }

  /** The 5/10-day MA about to cross: SMA_5 between the previous and current SMA_10. */
  function MaImminentCross(latest: Row, prev: Row): (r: seq<Alert>)
    ensures |r| <= 1
    ensures forall a :: a in r ==> (a == MaDeathAlert || a == MaGoldenAlert) && a.level == Medium && a.kind == TrendReversal
    ensures r == [MaDeathAlert] <==> DeathCrossImminent(latest, prev)
    ensures r == [MaGoldenAlert] <==> GoldenCrossImminent(latest, prev)
    ensures r == [] <==> !DeathCrossImminent(latest, prev) && !GoldenCrossImminent(latest, prev)
    ensures MaDeathAlert in r <==> DeathCrossImminent(latest, prev)
    ensures MaGoldenAlert in r <==> GoldenCrossImminent(latest, prev)
  {
    if latest.sma5.Some? && latest.sma10.Some? then
      if Gt(latest.sma5, prev.sma10) && latest.sma5.value < latest.sma10.value then
        [MaDeathAlert]
      else if Lt(latest.sma5, prev.sma10) && latest.sma5.value > latest.sma10.value then
        [MaGoldenAlert]
      else []
    else []
  }

  /** The MACD half of _check_trend_reversal: divergence between close and MACD over the last 10 rows. */
  function MacdDivergence(rows: seq<Row>): (r: seq<Alert>)
    requires |rows| >= 10
    ensures |r| <= 1
    ensures forall a :: a in r ==> (a == MacdTopAlert || a == MacdBottomAlert) && a.kind == TrendReversal
    ensures r == [MacdTopAlert] <==> TopDivergence(Closes(Tail(rows, 10)), Macds(Tail(rows, 10)))
    ensures r == [MacdBottomAlert] <==> BottomDivergence(Closes(Tail(rows, 10)), Macds(Tail(rows, 10)))
    ensures MacdTopAlert in r <==> TopDivergence(Closes(Tail(rows, 10)), Macds(Tail(rows, 10)))
    ensures MacdBottomAlert in r <==> BottomDivergence(Closes(Tail(rows, 10)), Macds(Tail(rows, 10)))
  {
    DivergencePair(Closes(Tail(rows, 10)), Macds(Tail(rows, 10)), MacdTopAlert, MacdBottomAlert)
  }

  /** _check_trend_reversal: MACD divergence over the last 10 rows, then the imminent MA cross. */
  function CheckTrendReversal(rows: seq<Row>, latest: Row, prev: Row): (r: seq<Alert>)
    ensures |r| <= 2
    ensures |rows| < 10 ==> r == MaImminentCross(latest, prev)
    ensures forall a :: a in r ==>
              (a == MacdTopAlert || a == MacdBottomAlert || a == MaDeathAlert || a == MaGoldenAlert) &&
              a.kind == TrendReversal
    ensures |rows| >= 10 ==>
              (MacdTopAlert in r <==> TopDivergence(Closes(Tail(rows, 10)), Macds(Tail(rows, 10))))
    ensures |rows| >= 10 ==>
              (MacdBottomAlert in r <==> BottomDivergence(Closes(Tail(rows, 10)), Macds(Tail(rows, 10))))
    ensures MaDeathAlert in r <==> DeathCrossImminent(latest, prev)
    ensures MaGoldenAlert in r <==> GoldenCrossImminent(latest, prev)
  {
    var macd, ma := (if |rows| >= 10 then MacdDivergence(rows) else []), MaImminentCross(latest, prev);
    TrendReversalMembers(macd, ma);
    macd + ma
  }

  /** MACD alerts and MA alerts never coincide, so each of the four is found in its own half. */
  lemma TrendReversalMembers(macd: seq<Alert>, ma: seq<Alert>)
    requires forall a :: a in macd ==> (a == MacdTopAlert || a == MacdBottomAlert) && a.kind == TrendReversal
    requires forall a :: a in ma ==> (a == MaDeathAlert || a == MaGoldenAlert) && a.kind == TrendReversal
    ensures forall a :: a in macd + ma ==>
              (a == MacdTopAlert || a == MacdBottomAlert || a == MaDeathAlert || a == MaGoldenAlert) &&
              a.kind == TrendReversal
    ensures MacdTopAlert in macd + ma <==> MacdTopAlert in macd
    ensures MacdBottomAlert in macd + ma <==> MacdBottomAlert in macd
    ensures MaDeathAlert in macd + ma <==> MaDeathAlert in ma
    ensures MaGoldenAlert in macd + ma <==> MaGoldenAlert in ma
  {
    assert MacdTopAlert !in ma && MacdBottomAlert !in ma by {
      forall a | a in ma ensures a.topic != MacdTopDivergence && a.topic != MacdBottomDivergence { }
    }
    assert MaDeathAlert !in macd && MaGoldenAlert !in macd by {
      forall a | a in macd ensures a.topic != MaDeathImminent && a.topic != MaGoldenImminent { }
    }
  }

  // ---------------------------------------------------------------------------
  // _check_overbought_oversold
  // ---------------------------------------------------------------------------

  function RsiLadder(rsi: Option<real>): (r: seq<Alert>)
    ensures |r| <= 1
    ensures forall a :: a in r ==> a.kind == OverboughtOversold && a.indicator == "RSI"
    ensures |r| == 1 <==> rsi.Some? && (rsi.value >= 70.0 || rsi.value <= 30.0)
    ensures |r| == 1 ==> (r[0].level == High <==> rsi.value >= 80.0)
    ensures |r| == 1 ==> (r[0].level == Medium <==> 70.0 <= rsi.value < 80.0 || rsi.value <= 20.0)
    ensures |r| == 1 ==> (r[0].level == Low <==> 20.0 < rsi.value <= 30.0)
  {
    if rsi.None? then []
    else
      var v := rsi.value;
      if v >= 80.0 then [Alert(High, OverboughtOversold, "RSI", RsiSevereOverbought)]
      else if v >= 70.0 then [Alert(Medium, OverboughtOversold, "RSI", RsiOverbought)]
      else if v <= 20.0 then [Alert(Medium, OverboughtOversold, "RSI", RsiSevereOversold)]
      else if v <= 30.0 then [Alert(Low, OverboughtOversold, "RSI", RsiOversold)]
      else []
  }

  function KdjLadder(j: Option<real>): (r: seq<Alert>)
    ensures |r| <= 1
    ensures forall a :: a in r ==> a.kind == OverboughtOversold && a.indicator == "KDJ"
    ensures |r| == 1 <==> j.Some? && (j.value >= 100.0 || j.value <= 0.0)
    ensures |r| == 1 ==> (r[0].level == High <==> j.value >= 100.0)
    ensures |r| == 1 ==> r[0].level != Low
  {
    if j.None? then []
    else if j.value >= 100.0 then [Alert(High, OverboughtOversold, "KDJ", KdjExtremeOverbought)]
    else if j.value <= 0.0 then [Alert(Medium, OverboughtOversold, "KDJ", KdjExtremeOversold)]
    else []
  }

  function CciLadder(cci: Option<real>): (r: seq<Alert>)
    ensures |r| <= 1
    ensures forall a :: a in r ==> a.kind == OverboughtOversold && a.indicator == "CCI"
    ensures |r| == 1 <==> cci.Some? && (cci.value >= 100.0 || cci.value <= -200.0)
    ensures |r| == 1 ==> (r[0].level == High <==> cci.value >= 200.0)
    ensures |r| == 1 ==> r[0].level != Low
  {
    if cci.None? then []
    else if cci.value >= 200.0 then [Alert(High, OverboughtOversold, "CCI", CciExtremeOverbought)]
    else if cci.value >= 100.0 then [Alert(Medium, OverboughtOversold, "CCI", CciOverbought)]
    else if cci.value <= -200.0 then [Alert(Medium, OverboughtOversold, "CCI", CciExtremeOversold)]
    else []
  }

  /** Williams %R: at or below -80 is the high-level alert, at or above -20 the medium one. */
  function WrLadder(wr: Option<real>): (r: seq<Alert>)
    ensures |r| <= 1
    ensures forall a :: a in r ==> a.kind == OverboughtOversold && a.indicator == "WR"
    ensures |r| == 1 <==> wr.Some? && (wr.value <= -80.0 || wr.value >= -20.0)
    ensures |r| == 1 ==> (r[0].level == High <==> wr.value <= -80.0)
    ensures |r| == 1 ==> r[0].level != Low
  {
    if wr.None? then []
    else if wr.value <= -80.0 then [Alert(High, OverboughtOversold, "WR", WrSevereOverbought)]
    else if wr.value >= -20.0 then [Alert(Medium, OverboughtOversold, "WR", WrSevereOversold)]
    else []
  }

  /** No two alerts of the list come from the same indicator. */
  predicate DistinctIndicators(r: seq<Alert>) {
    forall i, j :: 0 <= i < j < |r| ==> r[i].indicator != r[j].indicator
  }

  lemma DistinctIndicatorsAppend(x: seq<Alert>, y: seq<Alert>)
    requires DistinctIndicators(x) && DistinctIndicators(y)
    requires forall a, b :: a in x && b in y ==> a.indicator != b.indicator
    ensures DistinctIndicators(x + y)
  {
    forall i, j | 0 <= i < j < |x + y| ensures (x + y)[i].indicator != (x + y)[j].indicator {
      if j < |x| {
      } else if i >= |x| {
        assert (x + y)[i] == y[i - |x|] && (x + y)[j] == y[j - |x|];
      } else {
        assert (x + y)[i] in x && (x + y)[j] in y;
      }
    }
  }

  /** _check_overbought_oversold: at most one alert per indicator, in the order RSI, KDJ, CCI, WR. */
  function CheckOverboughtOversold(latest: Row): (r: seq<Alert>)
    ensures |r| <= 4
    ensures forall a :: a in r ==> a.kind == OverboughtOversold
    ensures forall i, j :: 0 <= i < j < |r| ==> r[i].indicator != r[j].indicator
  {
    var rsi, kdj, cci, wr := RsiLadder(latest.rsi14), KdjLadder(latest.kdjJ), CciLadder(latest.cci14), WrLadder(latest.wr14);
    DistinctIndicatorsAppend(rsi, kdj);
    DistinctIndicatorsAppend(rsi + kdj, cci);
    DistinctIndicatorsAppend(rsi + kdj + cci, wr);
    rsi + kdj + cci + wr
  }

  // ---------------------------------------------------------------------------
  // _check_divergence
  // ---------------------------------------------------------------------------

  /** `dropna()`: the present values, in order (PresentCounts and PresentAppend say which and in what order). */
  function Present(xs: seq<Option<real>>): (r: seq<Option<real>>)
    ensures |r| <= |xs|
    ensures forall i :: 0 <= i < |r| ==> r[i].Some?
    ensures forall x :: x in r ==> x in xs
  {
    if |xs| == 0 then []
    else Present(xs[..|xs| - 1]) + (if xs[|xs| - 1].Some? then [xs[|xs| - 1]] else [])
  }

  /** Every present value is kept as often as it occurs, and no missing cell is. */
  lemma {:induction false} PresentCounts(xs: seq<Option<real>>)
    ensures forall x: Option<real> :: x.Some? ==> multiset(Present(xs))[x] == multiset(xs)[x]
    ensures multiset(Present(xs))[None] == 0
  {
    if |xs| > 0 {
      var init := xs[..|xs| - 1];
      assert xs == init + [xs[|xs| - 1]];
      PresentCounts(init);
    }
  }

  /** Dropping missing cells commutes with concatenation, so the kept cells keep their order. */
  lemma {:induction false} PresentAppend(xs: seq<Option<real>>, ys: seq<Option<real>>)
    ensures Present(xs + ys) == Present(xs) + Present(ys)
    decreases |ys|
  {
    if |ys| == 0 {
      assert xs + ys == xs;
    } else {
      var init := ys[..|ys| - 1];
      assert (xs + ys)[..|xs + ys| - 1] == xs + init;
      PresentAppend(xs, init);
    }
  }

  function RsiDivergence(rows: seq<Row>): (r: seq<Alert>)
    requires |rows| >= 10
    ensures |r| <= 1
    ensures forall a :: a in r ==> a.kind == Divergence && a.level != Low
    ensures forall a :: a in r ==> a == RsiTopAlert || a == RsiBottomAlert
    ensures r == [RsiTopAlert] <==> TopDivergence(Closes(Tail(rows, 10)), Rsis(Tail(rows, 10)))
    ensures r == [RsiBottomAlert] <==> BottomDivergence(Closes(Tail(rows, 10)), Rsis(Tail(rows, 10)))
  {
    DivergencePair(Closes(Tail(rows, 10)), Rsis(Tail(rows, 10)), RsiTopAlert, RsiBottomAlert)
  }

  /**
   * OBV divergence: the present OBV values among the last 10 rows against the
   * last k closes, k being how many OBV values are present (the closes are not
   * realigned to the rows the OBV values came from).
   */
  function ObvDivergence(rows: seq<Row>): (r: seq<Alert>)
    requires |rows| >= 10
    ensures |r| <= 1
    ensures forall a :: a in r ==> a.kind == Divergence && a.level != Low
    ensures forall a :: a in r ==> a == ObvTopAlert || a == ObvBottomAlert
    ensures |Present(Obvs(Tail(rows, 10)))| < 3 ==> r == []
    ensures var obv := Present(Obvs(Tail(rows, 10)));
            |obv| >= 3 ==>
              (r == [ObvTopAlert] <==> TopDivergence(Tail(Closes(rows), |obv|), obv)) &&
              (r == [ObvBottomAlert] <==> BottomDivergence(Tail(Closes(rows), |obv|), obv))
  {
    var obv := Present(Obvs(Tail(rows, 10)));
    var closes := Tail(Closes(rows), |obv|);
    if |closes| >= 3 && |obv| >= 3 then DivergencePair(closes, obv, ObvTopAlert, ObvBottomAlert)
    else []
  }

  /** _check_divergence: nothing below 10 rows; then RSI and OBV, at most one alert each. */
  function CheckDivergence(rows: seq<Row>): (r: seq<Alert>)
    ensures |rows| < 10 ==> r == []
    ensures |r| <= 2
    ensures forall a :: a in r ==> a.kind == Divergence && a.level != Low
  {
    if |rows| < 10 then [] else RsiDivergence(rows) + ObvDivergence(rows)
  }

  // ---------------------------------------------------------------------------
  // _check_breakout, _check_ma_alignment, _check_signal_conflict
  // ---------------------------------------------------------------------------

  const BollUpperAlert: Alert := Alert(Medium, Breakout, "BOLLINGER", BollUpperBreak)
  const BollLowerAlert: Alert := Alert(Medium, Breakout, "BOLLINGER", BollLowerBreak)
  const MacdZeroUpAlert: Alert := Alert(Low, Breakout, "MACD", MacdZeroUp)
  const MacdZeroDownAlert: Alert := Alert(Low, Breakout, "MACD", MacdZeroDown)

  /** Close, upper and lower band present and close outside the bands. */
  predicate BandBreakout(latest: Row) {
    latest.close.Some? && latest.bbu.Some? && latest.bbl.Some? &&
    (latest.close.value > latest.bbu.value || latest.close.value < latest.bbl.value)
  }

  /** Both MACD values present and MACD crossing zero from the previous row. */
  predicate ZeroAxisCross(latest: Row, prev: Row) {
    latest.macd.Some? && prev.macd.Some? &&
    ((latest.macd.value > 0.0 && prev.macd.value <= 0.0) || (latest.macd.value < 0.0 && prev.macd.value >= 0.0))
  }

  /** The Bollinger half of _check_breakout: at most one medium alert, upper break first. */
  function BandBreak(latest: Row): (r: seq<Alert>)
    ensures |r| == (if BandBreakout(latest) then 1 else 0)
    ensures forall a :: a in r ==> (a == BollUpperAlert || a == BollLowerAlert) && a.level == Medium && a.kind == Breakout
    ensures BollUpperAlert in r <==> Gt(latest.close, latest.bbu) && latest.bbl.Some?
    ensures BollLowerAlert in r <==>
              latest.bbu.Some? && !Gt(latest.close, latest.bbu) && Lt(latest.close, latest.bbl)
  {
    if latest.close.Some? && latest.bbu.Some? && latest.bbl.Some? then
      if latest.close.value > latest.bbu.value then [BollUpperAlert]
      else if latest.close.value < latest.bbl.value then [BollLowerAlert]
      else []
    else []
  }

  /** The MACD half of _check_breakout: at most one low alert, the upward cross first. */
  function ZeroBreak(latest: Row, prev: Row): (r: seq<Alert>)
    ensures |r| == (if ZeroAxisCross(latest, prev) then 1 else 0)
    ensures forall a :: a in r ==> (a == MacdZeroUpAlert || a == MacdZeroDownAlert) && a.level == Low && a.kind == Breakout
    ensures MacdZeroUpAlert in r <==> Gt(latest.macd, Some(0.0)) && Le(prev.macd, Some(0.0))
    ensures MacdZeroDownAlert in r <==> Lt(latest.macd, Some(0.0)) && Ge(prev.macd, Some(0.0))
  {
    if latest.macd.Some? && prev.macd.Some? then
      if latest.macd.value > 0.0 && prev.macd.value <= 0.0 then [MacdZeroUpAlert]
      else if latest.macd.value < 0.0 && prev.macd.value >= 0.0 then [MacdZeroDownAlert]
      else []
    else []
  }

  /** _check_breakout: the band alert, then the zero-axis alert. */
  function CheckBreakout(latest: Row, prev: Row): (r: seq<Alert>)
    ensures |r| <= 2
    ensures forall a :: a in r ==>
              (a == BollUpperAlert || a == BollLowerAlert || a == MacdZeroUpAlert || a == MacdZeroDownAlert) &&
              a.kind == Breakout && a.level != High
    ensures Count(r, Medium) == (if BandBreakout(latest) then 1 else 0)
    ensures Count(r, Low) == (if ZeroAxisCross(latest, prev) then 1 else 0)
    ensures BollUpperAlert in r <==> Gt(latest.close, latest.bbu) && latest.bbl.Some?
    ensures BollLowerAlert in r <==>
              latest.bbu.Some? && !Gt(latest.close, latest.bbu) && Lt(latest.close, latest.bbl)
    ensures MacdZeroUpAlert in r <==> Gt(latest.macd, Some(0.0)) && Le(prev.macd, Some(0.0))
    ensures MacdZeroDownAlert in r <==> Lt(latest.macd, Some(0.0)) && Ge(prev.macd, Some(0.0))
    ensures (exists a :: a in r && a.level == Medium) <==> BandBreakout(latest)
    ensures (exists a :: a in r && a.level == Low) <==> ZeroAxisCross(latest, prev)
  {
    BreakoutCounts(latest, prev);
    BreakoutMembers(latest, prev);
    BandBreak(latest) + ZeroBreak(latest, prev)
  }

  lemma BreakoutCounts(latest: Row, prev: Row)
    ensures var r := BandBreak(latest) + ZeroBreak(latest, prev);
            && Count(r, Medium) == (if BandBreakout(latest) then 1 else 0)
            && Count(r, Low) == (if ZeroAxisCross(latest, prev) then 1 else 0)
            && ((exists a :: a in r && a.level == Medium) <==> BandBreakout(latest))
            && ((exists a :: a in r && a.level == Low) <==> ZeroAxisCross(latest, prev))
  {
    LevelSplit(BandBreak(latest), ZeroBreak(latest, prev), Medium, Low);
  }

  lemma BreakoutMembers(latest: Row, prev: Row)
    ensures var r := BandBreak(latest) + ZeroBreak(latest, prev);
            && (forall a :: a in r ==>
                  (a == BollUpperAlert || a == BollLowerAlert || a == MacdZeroUpAlert || a == MacdZeroDownAlert) &&
                  a.kind == Breakout && a.level != High)
            && (BollUpperAlert in r <==> BollUpperAlert in BandBreak(latest))
            && (BollLowerAlert in r <==> BollLowerAlert in BandBreak(latest))
            && (MacdZeroUpAlert in r <==> MacdZeroUpAlert in ZeroBreak(latest, prev))
            && (MacdZeroDownAlert in r <==> MacdZeroDownAlert in ZeroBreak(latest, prev))
  {
    LevelSplit(BandBreak(latest), ZeroBreak(latest, prev), Medium, Low);
  }

  /** A strict chain close > SMA_5 > SMA_10 > SMA_20; a missing SMA_10 breaks it. */
  predicate BullChain(latest: Row) {
    Gt(latest.close, latest.sma5) && Gt(latest.sma5, latest.sma10) && Gt(latest.sma10, latest.sma20)
  }
  predicate BearChain(latest: Row) {
    Lt(latest.close, latest.sma5) && Lt(latest.sma5, latest.sma10) && Lt(latest.sma10, latest.sma20)
  }

  function CheckMaAlignment(latest: Row): (r: seq<Alert>)
    ensures |r| == 1 <==> latest.close.Some? && latest.sma5.Some? && latest.sma20.Some?
    ensures |r| <= 1
    ensures |r| == 1 ==> (r[0].level == Low <==> BullChain(latest) || BearChain(latest))
    ensures |r| == 1 ==> (r[0].level == Medium <==> !BullChain(latest) && !BearChain(latest))
  {
    if latest.close.Some? && latest.sma5.Some? && latest.sma20.Some? then
      if BullChain(latest) then [Alert(Low, MaAlignment, "MA", MaBullAlignment)]
      else if BearChain(latest) then [Alert(Low, MaAlignment, "MA", MaBearAlignment)]
      else [Alert(Medium, MaAlignment, "MA", MaMixed)]
    else []
  }

  function CheckSignalConflict(sig: SignalFusion.SignalData): (r: seq<Alert>)
    ensures |r| <= 2
    ensures (exists a :: a in r && a.level == Medium) <==>
              SignalFusion.CountSide(sig.forward, SignalFusion.Buy) >= 2 &&
              SignalFusion.CountSide(sig.forward, SignalFusion.Sell) >= 2
    ensures (exists a :: a in r && a.level == Low) <==> sig.confidence < 30.0
    ensures forall a :: a in r ==> a.level != High
    ensures forall a :: a in r ==> a.kind == SignalConflict
    ensures Count(r, Medium) ==
              (if SignalFusion.CountSide(sig.forward, SignalFusion.Buy) >= 2 &&
                  SignalFusion.CountSide(sig.forward, SignalFusion.Sell) >= 2 then 1 else 0)
    ensures Count(r, Low) == (if sig.confidence < 30.0 then 1 else 0)
  {
    var buys := SignalFusion.CountSide(sig.forward, SignalFusion.Buy);
    var sells := SignalFusion.CountSide(sig.forward, SignalFusion.Sell);
    var conflict :=
      if buys >= 2 && sells >= 2 then [Alert(Medium, SignalConflict, "Multiple", ConflictingSignals(buys, sells))]
      else [];
    var unsure :=
      if sig.confidence < 30.0 then [Alert(Low, SignalConflict, "Confidence", LowConfidence(sig.confidence))]
      else [];
    LevelSplit(conflict, unsure, Medium, Low);
    conflict + unsure
  }

  /** A signal produced by generate_signals never raises the low-confidence alert: its confidence is at least 50. */
  lemma GeneratedSignalNeverLowConfidence(latest: Row, prev: Row)
    ensures forall a :: a in CheckSignalConflict(SignalFusion.SignalOf(latest, prev)) ==> a.level == Medium
  {
    SignalFusion.SignalProperties(latest, prev);
  }

  // ---------------------------------------------------------------------------
  // Counting, overall risk, generate_alerts
  // ---------------------------------------------------------------------------

  function Count(alerts: seq<Alert>, level: Level): (n: nat)
    ensures n <= |alerts|
  {
    if |alerts| == 0 then 0
    else Count(alerts[..|alerts| - 1], level) + (if alerts[|alerts| - 1].level == level then 1 else 0)
  }

  /** Every alert is high, medium or low, so the three counts add up to the number of alerts. */
  lemma {:induction false} CountsPartition(alerts: seq<Alert>)
    ensures Count(alerts, High) + Count(alerts, Medium) + Count(alerts, Low) == |alerts|
  {
    if |alerts| > 0 {
      CountsPartition(alerts[..|alerts| - 1]);
    }
  }

  lemma {:induction false} CountAppend(a: seq<Alert>, b: seq<Alert>, level: Level)
    ensures Count(a + b, level) == Count(a, level) + Count(b, level)
    decreases |b|
  {
    if |b| > 0 {
      assert (a + b)[..|a + b| - 1] == a + b[..|b| - 1];
      CountAppend(a, b[..|b| - 1], level);
    } else {
      assert a + b == a;
    }
  }

  lemma {:induction false} CountPositive(alerts: seq<Alert>, level: Level)
    ensures Count(alerts, level) > 0 <==> exists a :: a in alerts && a.level == level
  {
    if |alerts| > 0 {
      var init := alerts[..|alerts| - 1];
      CountPositive(init, level);
      assert forall a :: a in alerts <==> a in init || a == alerts[|alerts| - 1];
    }
  }

  /** A list whose alerts all have one level counts its length there and nothing elsewhere. */
  lemma {:induction false} CountUniform(alerts: seq<Alert>, level: Level, other: Level)
    requires level != other
    requires forall a :: a in alerts ==> a.level == level
    ensures Count(alerts, level) == |alerts| && Count(alerts, other) == 0
  {
    if |alerts| > 0 {
      var init := alerts[..|alerts| - 1];
      assert forall a :: a in init ==> a in alerts;
      CountUniform(init, level, other);
    }
  }

  /** Concatenating alerts of one level with alerts of another: counts and membership split by level. */
  lemma LevelSplit(x: seq<Alert>, y: seq<Alert>, lx: Level, ly: Level)
    requires lx != ly
    requires forall a :: a in x ==> a.level == lx
    requires forall a :: a in y ==> a.level == ly
    ensures Count(x + y, lx) == |x| && Count(x + y, ly) == |y|
    ensures (exists a :: a in x + y && a.level == lx) <==> |x| > 0
    ensures (exists a :: a in x + y && a.level == ly) <==> |y| > 0
    ensures forall a :: a in x + y ==> (a in x <==> a.level == lx) && (a in y <==> a.level == ly)
  {
    CountUniform(x, lx, ly);
    CountUniform(y, ly, lx);
    CountAppend(x, y, lx);
    CountAppend(x, y, ly);
    CountPositive(x + y, lx);
    CountPositive(x + y, ly);
  }

  /** _determine_overall_risk: the low count plays no part. */
  function OverallRisk(high: nat, medium: nat): (r: Level)
    ensures r == High <==> high >= 1 || medium >= 3
    ensures r == Medium <==> high == 0 && 1 <= medium <= 2
    ensures r == Low <==> high == 0 && medium == 0
  {
    if high >= 2 then High
    else if high >= 1 || medium >= 3 then High
    else if medium >= 1 then Medium
    else Low
  }

  function RiskRank(l: Level): nat {
    match l
    case Low => 0
    case Medium => 1
    case High => 2
  }

  /** More high or medium alerts never lower the overall risk. */
  lemma OverallRiskMonotone(h1: nat, m1: nat, h2: nat, m2: nat)
    requires h1 <= h2 && m1 <= m2
    ensures RiskRank(OverallRisk(h1, m1)) <= RiskRank(OverallRisk(h2, m2))
  {
  }

  /** The six detectors in the order generate_alerts extends its list with them. */
  function AlertsOf(rows: seq<Row>, latest: Row, prev: Row, sig: Option<SignalFusion.SignalData>): seq<Alert> {
    CheckTrendReversal(rows, latest, prev) + CheckOverboughtOversold(latest) +
    CheckDivergence(rows) + CheckBreakout(latest, prev) + CheckMaAlignment(latest) +
    (if sig.Some? then CheckSignalConflict(sig.value) else [])
  }

  datatype AlertReport = AlertReport(alerts: seq<Alert>, high: nat, medium: nat, low: nat, overallRisk: Level)

  /** The detectors of generate_alerts, each list extending the last; signal conflicts only with signal data. */
  method CollectAlerts(rows: seq<Row>, latest: Row, prev: Row, sig: Option<SignalFusion.SignalData>)
    returns (alerts: seq<Alert>)
    ensures alerts == AlertsOf(rows, latest, prev, sig)
  {
    alerts := CheckTrendReversal(rows, latest, prev);
    alerts := alerts + CheckOverboughtOversold(latest);
    alerts := alerts + CheckDivergence(rows);
    alerts := alerts + CheckBreakout(latest, prev);
    alerts := alerts + CheckMaAlignment(latest);
    if sig.Some? {
      alerts := alerts + CheckSignalConflict(sig.value);
    }
  }

  /** generate_alerts: the collected alerts, their per-level counts and the overall risk. */
  method GenerateAlerts(rows: seq<Row>, latest: Row, prev: Row, sig: Option<SignalFusion.SignalData>)
    returns (report: AlertReport)
    ensures report.alerts == AlertsOf(rows, latest, prev, sig)
    ensures report.high == Count(report.alerts, High)
    ensures report.medium == Count(report.alerts, Medium)
    ensures report.low == Count(report.alerts, Low)
    ensures report.high + report.medium + report.low == |report.alerts|
    ensures report.overallRisk == OverallRisk(report.high, report.medium)
  {
    var alerts := CollectAlerts(rows, latest, prev, sig);
    var high, medium, low := Count(alerts, High), Count(alerts, Medium), Count(alerts, Low);
    CountsPartition(alerts);
    report := AlertReport(alerts, high, medium, low, OverallRisk(high, medium));
  }

  /**
   * Extreme readings on all four oscillators (RSI_14 >= 80, J >= 100, CCI >= 200,
   * WR_14 <= -80) give four high alerts, so the overall risk is high whatever
   * the other detectors say.
   */
  lemma OverboughtCascade(rows: seq<Row>, latest: Row, prev: Row, sig: Option<SignalFusion.SignalData>)
    requires latest.rsi14.Some? && latest.rsi14.value >= 80.0
    requires latest.kdjJ.Some? && latest.kdjJ.value >= 100.0
    requires latest.cci14.Some? && latest.cci14.value >= 200.0
    requires latest.wr14.Some? && latest.wr14.value <= -80.0
    ensures Count(CheckOverboughtOversold(latest), High) == 4
    ensures OverallRisk(Count(AlertsOf(rows, latest, prev, sig), High),
                        Count(AlertsOf(rows, latest, prev, sig), Medium)) == High
  {
    SevereOverboughtHighs(latest);
    OverboughtCounted(rows, latest, prev, sig);
  }

  /** At the four severe-overbought thresholds every ladder raises its high alert. */
  lemma SevereOverboughtHighs(latest: Row)
    requires latest.rsi14.Some? && latest.rsi14.value >= 80.0
    requires latest.kdjJ.Some? && latest.kdjJ.value >= 100.0
    requires latest.cci14.Some? && latest.cci14.value >= 200.0
    requires latest.wr14.Some? && latest.wr14.value <= -80.0
    ensures Count(CheckOverboughtOversold(latest), High) == 4
  {
    var r, k, c, w := RsiLadder(latest.rsi14), KdjLadder(latest.kdjJ), CciLadder(latest.cci14), WrLadder(latest.wr14);
    CountAppend(r, k, High);
    CountAppend(r + k, c, High);
    CountAppend(r + k + c, w, High);
  }

  /** Every high alert of the overbought/oversold check is among the high alerts of the report. */
  lemma OverboughtCounted(rows: seq<Row>, latest: Row, prev: Row, sig: Option<SignalFusion.SignalData>)
    ensures Count(AlertsOf(rows, latest, prev, sig), High) >= Count(CheckOverboughtOversold(latest), High)
  {
    var ob := CheckOverboughtOversold(latest);
    var a1 := CheckTrendReversal(rows, latest, prev) + ob;
    CountAppend(CheckTrendReversal(rows, latest, prev), ob, High);
    var a2 := a1 + CheckDivergence(rows);
    CountAppend(a1, CheckDivergence(rows), High);
    var a3 := a2 + CheckBreakout(latest, prev);
    CountAppend(a2, CheckBreakout(latest, prev), High);
    var a4 := a3 + CheckMaAlignment(latest);
    CountAppend(a3, CheckMaAlignment(latest), High);
    var sc := if sig.Some? then CheckSignalConflict(sig.value) else [];
    CountAppend(a4, sc, High);
    assert AlertsOf(rows, latest, prev, sig) == a4 + sc;
  }

  // ---------------------------------------------------------------------------
  // generate_alert_summary: the list-selection part
  // ---------------------------------------------------------------------------

  /** The alerts of one level, in report order (the order is OfLevelAppend's). */
  function OfLevel(alerts: seq<Alert>, level: Level): (r: seq<Alert>)
    ensures |r| == Count(alerts, level)
    ensures forall a :: a in r ==> a in alerts && a.level == level
    ensures forall a: Alert :: a.level == level ==> multiset(r)[a] == multiset(alerts)[a]
  {
    if |alerts| == 0 then []
    else
      var init := alerts[..|alerts| - 1];
      var a := alerts[|alerts| - 1];
      assert alerts == init + [a];
      OfLevel(init, level) + (if a.level == level then [a] else [])
  }

  lemma Reassociate(a: seq<Alert>, b: seq<Alert>, c: seq<Alert>)
    ensures (a + b) + c == a + (b + c)
  {
  }

  /** Selecting one level commutes with concatenation, so the selected alerts keep their order. */
  lemma {:induction false} OfLevelAppend(xs: seq<Alert>, ys: seq<Alert>, level: Level)
    ensures OfLevel(xs + ys, level) == OfLevel(xs, level) + OfLevel(ys, level)
    decreases |ys|
  {
    if |ys| == 0 {
      assert xs + ys == xs;
    } else {
      var init, y := ys[..|ys| - 1], ys[|ys| - 1];
      var tail := if y.level == level then [y] else [];
      assert (xs + ys)[..|xs + ys| - 1] == xs + init;
      assert (xs + ys)[|xs + ys| - 1] == y;
      assert OfLevel(xs + ys, level) == OfLevel(xs + init, level) + tail;
      assert OfLevel(ys, level) == OfLevel(init, level) + tail;
      OfLevelAppend(xs, init, level);
      Reassociate(OfLevel(xs, level), OfLevel(init, level), tail);
    }
  }

  /** The whole summary when there are no alerts. */
  const CalmText: string := "当前无预警信号，技术面相对平稳。"

  datatype AlertSummary =
    | Calm
    | Detailed(overallRisk: Level, high: nat, medium: nat, low: nat, keyAlerts: seq<Alert>)

  /** generate_alert_summary: the calm text, or the risk, the counts and the key alerts. */
  function SummaryOf(report: AlertReport): (s: AlertSummary)
    ensures s.Calm? <==> |report.alerts| == 0
    ensures s.Detailed? ==>
              && |s.keyAlerts| == Count(report.alerts, High) + Min(Count(report.alerts, Medium), 2)
              && (forall a :: a in s.keyAlerts ==> a in report.alerts && a.level != Low)
              && s.keyAlerts[..Count(report.alerts, High)] == OfLevel(report.alerts, High)
              && s.keyAlerts[Count(report.alerts, High)..] ==
                   OfLevel(report.alerts, Medium)[..Min(Count(report.alerts, Medium), 2)]
  {
    if |report.alerts| == 0 then Calm
    else
      var highs := OfLevel(report.alerts, High);
      var mediums := OfLevel(report.alerts, Medium);
      var key := highs + mediums[..Min(|mediums|, 2)];
      assert key[..|highs|] == highs;
      assert key[|highs|..] == mediums[..Min(|mediums|, 2)];
      Detailed(report.overallRisk, report.high, report.medium, report.low, key)
  }
}
