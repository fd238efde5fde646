/**
 * The rule layer of core/analysis.py: the indicator columns the daily analysis
 * adds to a price history, the gates that decide whether a history is analysed
 * at all, and the intraday classifier of the realtime snapshot.
 *
 * The exponential moving averages behind MACD and the rolling standard
 * deviation behind the Bollinger width are floating-point smoothers; they enter
 * as per-row inputs (Smoothing), the standard deviation with its sign fact.
 */
module Analysis {
  import opened Frames
  import Indicators

  // ---------------------------------------------------------------------------
  // Rolling means (pandas `rolling(window=n).mean()`)
  // ---------------------------------------------------------------------------

  predicate AllPresent(w: seq<Option<real>>) {
    forall k :: 0 <= k < |w| ==> w[k].Some?
  }

  /** The sum of the present values of a window. */
  function Total(w: seq<Option<real>>): real {
    if |w| == 0 then 0.0
    else Total(w[..|w| - 1]) + (if w[|w| - 1].Some? then w[|w| - 1].value else 0.0)
  }

  /** A window whose values all lie in [lo, hi] sums to between |w| lo and |w| hi. */
  lemma {:induction false} TotalBounds(w: seq<Option<real>>, lo: real, hi: real)
    requires AllPresent(w)
    requires forall k :: 0 <= k < |w| ==> lo <= w[k].value <= hi
    ensures |w| as real * lo <= Total(w) <= |w| as real * hi
  {
    if |w| > 0 {
      var p := w[..|w| - 1];
      assert forall k :: 0 <= k < |p| ==> p[k] == w[k];
      TotalBounds(p, lo, hi);
      assert |w| as real * lo == |p| as real * lo + lo;
      assert |w| as real * hi == |p| as real * hi + hi;
    }
  }

  lemma NonNegFactor(a: real, n: real)
    requires n > 0.0 && a * n >= 0.0
    ensures a >= 0.0
  {
  }

  lemma MeanBounds(t: real, n: real, lo: real, hi: real)
    requires n > 0.0 && n * lo <= t <= n * hi
    ensures lo <= t / n <= hi
  {
    var q := t / n;
    assert q * n == t;
    assert (q - lo) * n == t - n * lo;
    NonNegFactor(q - lo, n);
    assert (hi - q) * n == n * hi - t;
    NonNegFactor(hi - q, n);
  }

  /**
   * The n-row rolling mean at row i. pandas needs n observations (min_periods
   * defaults to the window), so the first n-1 rows and every window holding a
   * NaN give NaN.
   */
  function RollingMean(closes: seq<Option<real>>, n: nat, i: nat): (r: Option<real>)
    requires 1 <= n && i < |closes|
    ensures r.Some? <==> n <= i + 1 && AllPresent(closes[i + 1 - n..i + 1])
  {
    if i + 1 < n then None
    else
      var w := closes[i + 1 - n..i + 1];
      if AllPresent(w) then Some(Total(w) / n as real) else None
  }

  /** The mean of a complete window of values in [lo, hi] lies in [lo, hi]. */
  lemma WindowMeanBetween(w: seq<Option<real>>, lo: real, hi: real)
    requires |w| >= 1 && AllPresent(w)
    requires forall k :: 0 <= k < |w| ==> lo <= w[k].value <= hi
    ensures lo <= Total(w) / |w| as real <= hi
  {
    TotalBounds(w, lo, hi);
    MeanBounds(Total(w), |w| as real, lo, hi);
  }

  /** The mean of a complete window lies between its smallest and largest value. */
  lemma WindowMeanBounds(w: seq<Option<real>>)
    requires |w| >= 1 && AllPresent(w)
    ensures SeriesMin(w).Some? && SeriesMax(w).Some?
    ensures SeriesMin(w).value <= Total(w) / |w| as real <= SeriesMax(w).value
  {
    assert w[0].Some?;
    WindowMeanBetween(w, SeriesMin(w).value, SeriesMax(w).value);
  }

  /** A present rolling mean lies between the window's smallest and largest close. */
  lemma RollingMeanWithinWindow(closes: seq<Option<real>>, n: nat, i: nat)
    requires 1 <= n && i < |closes| && RollingMean(closes, n, i).Some?
    ensures n <= i + 1
    ensures var w := closes[i + 1 - n..i + 1];
            && SeriesMin(w).Some? && SeriesMax(w).Some?
            && SeriesMin(w).value <= RollingMean(closes, n, i).value <= SeriesMax(w).value
  {
    var w := closes[i + 1 - n..i + 1];
    assert |w| == n;
    WindowMeanBounds(w);
  }

  /** A window of equal closes has that close as its mean. */
  lemma RollingMeanOfFlatWindow(closes: seq<Option<real>>, n: nat, i: nat, c: real)
    requires 1 <= n <= i + 1 < |closes| + 1
    requires forall k :: i + 1 - n <= k <= i ==> closes[k] == Some(c)
    ensures RollingMean(closes, n, i) == Some(c)
  {
    var w := closes[i + 1 - n..i + 1];
    assert forall k :: 0 <= k < |w| ==> w[k] == closes[i + 1 - n + k];
    assert AllPresent(w);
    assert w[0] == Some(c);
    var r := RollingMean(closes, n, i);
    RollingMeanWithinWindow(closes, n, i);
    assert SeriesMin(w).value >= c by {
      assert SeriesMin(w) in w;
    }
    assert SeriesMax(w).value <= c by {
      assert SeriesMax(w) in w;
    }
    assert c <= r.value <= c;
  }

  // ---------------------------------------------------------------------------
  // The indicator columns of the daily history
  // ---------------------------------------------------------------------------

  /** One day of the fetched history, after numeric coercion (NaN = None). */
  datatype Bar = Bar(close: Option<real>, high: Option<real>, low: Option<real>)

  /**
   * The floating-point smoothers of one row: the 12- and 26-span EMAs of close,
   * the 9-span EMA of the MACD line, and the 20-row standard deviation of close.
   */
  datatype Smoothing = Smoothing(fast: Option<real>, slow: Option<real>, signal: Option<real>,
                                 std20: Option<real>)

  /** A standard deviation is never negative. */
  predicate ValidSmoothing(sm: seq<Smoothing>) {
    forall i :: 0 <= i < |sm| && sm[i].std20.Some? ==> sm[i].std20.value >= 0.0
  }

  function BarCloses(bars: seq<Bar>): (r: seq<Option<real>>)
    ensures |r| == |bars| && forall i :: 0 <= i < |bars| ==> r[i] == bars[i].close
  {
    seq(|bars|, i requires 0 <= i < |bars| => bars[i].close)
  }

  /** Row i with every column the daily analysis adds; columns it does not add stay missing. */
  function IndicatorRow(bars: seq<Bar>, sm: seq<Smoothing>, i: nat): Row
    requires |sm| == |bars| && i < |bars|
  {
    var closes := BarCloses(bars);
    var macd := Sub(sm[i].fast, sm[i].slow);
    var middle := RollingMean(closes, 20, i);
    var width := Scale(2.0, sm[i].std20);
    EmptyRow.(close := bars[i].close, high := bars[i].high, low := bars[i].low,
              sma5 := RollingMean(closes, 5, i), sma10 := RollingMean(closes, 10, i),
              sma20 := RollingMean(closes, 20, i), sma60 := RollingMean(closes, 60, i),
              macd := macd, macds := sm[i].signal, macdh := Sub(macd, sm[i].signal),
              bbm := middle, bbu := Add(middle, width), bbl := Sub(middle, width))
  }

  /** The history with its indicator columns. */
  function IndicatorFrame(bars: seq<Bar>, sm: seq<Smoothing>): (rows: seq<Row>)
    requires |sm| == |bars|
    ensures |rows| == |bars|
  {
    seq(|bars|, i requires 0 <= i < |bars| => IndicatorRow(bars, sm, i))
  }

  /**
   * What the added columns mean on each row: SMA_n is the rolling mean of
   * close, missing for the first n-1 rows; the middle band is SMA_20 and the
   * bands bracket it; the histogram is MACD minus its signal.
   */
  lemma IndicatorColumns(bars: seq<Bar>, sm: seq<Smoothing>, i: nat)
    requires |sm| == |bars| && i < |bars| && ValidSmoothing(sm)
    ensures var r := IndicatorFrame(bars, sm)[i];
            && (forall n :: n in Indicators.MaLengths && i + 1 < n ==> Indicators.SmaOf(r, n).None?)
            && (forall n :: n in Indicators.MaLengths ==> Indicators.SmaOf(r, n) == RollingMean(BarCloses(bars), n, i))
            && r.bbm == r.sma20
            && (r.bbu.Some? <==> r.sma20.Some? && sm[i].std20.Some?)
            && (r.bbl.Some? <==> r.sma20.Some? && sm[i].std20.Some?)
            && (r.bbu.Some? ==> r.bbl.value <= r.bbm.value <= r.bbu.value)
            && (r.macdh.Some? <==> r.macd.Some? && r.macds.Some?)
            && (r.macdh.Some? ==> r.macdh.value == r.macd.value - r.macds.value)
  {
    var r := IndicatorFrame(bars, sm)[i];
    assert r == IndicatorRow(bars, sm, i);
    assert Indicators.MaLengths == [5, 10, 20, 60];
  }

  // ---------------------------------------------------------------------------
  // The daily analysis of one history (_get_daily_trends_generic, lines 185-244)
  // ---------------------------------------------------------------------------

  /** The outcome for one pool item: a gate that stopped the analysis, or the analysis itself. */
  datatype DailyReport =
    | InsufficientHistory
    | CalculationFailed
    | TooFewRows
    | Analysed(status: Indicators.TrendStatus, signals: seq<Indicators.Narrative>, history: seq<Row>)
  {
    /** The report's status field. */
    function Status(): string {
      match this
      case InsufficientHistory => "🟡 数据不足 (少于61天)"
      case CalculationFailed => "🟡 数据计算失败"
      case TooFewRows => "🟡 数据不足 (少于2天)"
      case Analysed(status, _, _) => status.Label()
    }
  }

  /** The one explanatory line of a gate report. */
  function GateNote(r: DailyReport): string
    requires !r.Analysed?
  {
    match r
    case InsufficientHistory => "历史数据不足61天，无法判断60日均线趋势。"
    case CalculationFailed => "'close' 列数据全为空值，无法计算指标。"
    case TooFewRows => "历史数据不足2天，无法进行趋势分析。"
  }

  predicate SomeClose(bars: seq<Bar>) {
    exists i :: 0 <= i < |bars| && bars[i].close.Some?
  }

  /** Everything the three narrators append for the latest two rows of a history. */
  function Narration(rows: seq<Row>): seq<Indicators.Narrative>
    requires |rows| >= 2
  {
    var latest, prev := rows[|rows| - 1], rows[|rows| - 2];
    Indicators.MaLines(latest, prev) + Indicators.MacdLines(latest, prev) +
    Indicators.BollingerLines(rows, latest)
  }

  /**
   * The moving-average and MACD narrators always append; the Bollinger one may
   * append nothing (close on the middle band with fewer than two crossings).
   */
  lemma NarrationLength(rows: seq<Row>)
    requires |rows| >= 2
    ensures |Narration(rows)| >= 2
  {
    var latest, prev := rows[|rows| - 1], rows[|rows| - 2];
    assert |Indicators.MaLines(latest, prev)| >= 1;
    assert |Indicators.MacdLines(latest, prev)| >= 1;
  }

  /** The report of a history that passed every gate. */
  function AnalysedReport(rows: seq<Row>): DailyReport
    requires |rows| >= 2
  {
    Analysed(Indicators.JudgeTrendStatus(rows[|rows| - 1]), Narration(rows), rows)
  }

  /** The report for one history, gate by gate. */
  function DailyReportOf(bars: seq<Bar>, sm: seq<Smoothing>): DailyReport
    requires |sm| == |bars|
  {
    if |bars| < 61 then InsufficientHistory
    else if !SomeClose(bars) then CalculationFailed
    else
      var rows := IndicatorFrame(bars, sm);
      if |rows| < 2 then TooFewRows
      else AnalysedReport(rows)
  }

  /**
   * The gates: fewer than 61 rows is the only way to "insufficient history" and
   * carries no indicator columns; an all-NaN close column fails the calculation;
   * the two-row gate can never fire; an analysed history keeps all its rows, its
   * status is the classifier's label for the latest row, and its narration
   * holds at least the moving-average and MACD lines.
   */
  lemma DailyGates(bars: seq<Bar>, sm: seq<Smoothing>)
    requires |sm| == |bars|
    ensures var r := DailyReportOf(bars, sm);
            && (r == InsufficientHistory <==> |bars| < 61)
            && (r == CalculationFailed <==> |bars| >= 61 && forall i :: 0 <= i < |bars| ==> bars[i].close.None?)
            && r != TooFewRows
            && (r.Analysed? ==>
                  && |r.history| == |bars| >= 61
                  && r.status == Indicators.JudgeTrendStatus(r.history[|bars| - 1])
                  && r.status in {Indicators.DataAnomaly, Indicators.MaInsufficient, Indicators.StrongUptrend,
                                  Indicators.WeakDowntrend, Indicators.Oscillating}
                  && |r.signals| >= 2)
  {
    var r := DailyReportOf(bars, sm);
    if r.Analysed? {
      NarrationLength(IndicatorFrame(bars, sm));
    }
  }

  /**
   * The per-item body of the daily loop: gates, indicator columns, the three
   * narrators appending to one list, then the classifier.
   */
  method AnalyzeDaily(bars: seq<Bar>, sm: seq<Smoothing>) returns (report: DailyReport)
    requires |sm| == |bars|
    ensures report == DailyReportOf(bars, sm)
  {
    if |bars| < 61 {
      return InsufficientHistory;
    }
    if !SomeClose(bars) {
      return CalculationFailed;
    }
    var rows := IndicatorFrame(bars, sm);
    if |rows| < 2 {
      return TooFewRows;
    }
    report := NarrateAndJudge(rows);
  }

  /** The three narrators appending to one list, then the classifier, on the latest two rows. */
  method NarrateAndJudge(rows: seq<Row>) returns (report: DailyReport)
    requires |rows| >= 2
    ensures report == AnalysedReport(rows)
  {
    var latest, prev := rows[|rows| - 1], rows[|rows| - 2];
    var trendSignals := new Indicators.TrendSignals();
    trendSignals.AnalyzeMa(latest, prev);
    trendSignals.AnalyzeMacd(latest, prev);
    trendSignals.AnalyzeBollinger(rows, latest);
    var status := Indicators.JudgeTrendStatus(latest);
    report := Analysed(status, trendSignals.items, rows);
  }

  // ---------------------------------------------------------------------------
  // _IntradaySignalGenerator
  // ---------------------------------------------------------------------------

  datatype PoolItem = PoolItem(code: string, name: string)

  /** One row of the realtime snapshot: 代码, 最新价 and 涨跌幅 (already in percent). */
  datatype Quote = Quote(code: string, price: Option<real>, change: Option<real>)

  datatype IntradaySignal = IntradaySignal(code: string, name: string, price: Option<real>,
                                           change: Option<real>, points: seq<string>)

  const BigRise: string := "日内大幅上涨"
  const BigFall: string := "日内大幅下跌"
  const QuietSession: string := "盘中信号平稳"

  /**
   * The analysis points of a change: a rise above 2.5% or a fall below -2.5%,
   * never both, and the quiet-session line when neither (NaN included).
   */
  function IntradayPoints(change: Option<real>): (p: seq<string>)
    ensures |p| == 1
    ensures p == [BigRise] <==> Gt(change, Some(2.5))
    ensures p == [BigFall] <==> Lt(change, Some(-2.5))
    ensures p == [QuietSession] <==> !Gt(change, Some(2.5)) && !Lt(change, Some(-2.5))
    ensures !(BigRise in p && BigFall in p)
  {
    if Gt(change, Some(2.5)) then [BigRise]
    else if Lt(change, Some(-2.5)) then [BigFall]
    else [QuietSession]
  }

  /** The signal for a pool item and its snapshot row. */
  function SignalFor(q: Quote, item: PoolItem): IntradaySignal {
    IntradaySignal(q.code, item.name, q.price, q.change, IntradayPoints(q.change))
  }

  /** The first snapshot row with the given code (the filter's iloc[0]). */
  function FirstQuote(snapshot: seq<Quote>, code: string): (r: Option<Quote>)
    ensures r.Some? <==> exists j :: 0 <= j < |snapshot| && snapshot[j].code == code
    ensures r.Some? ==>
              exists j :: 0 <= j < |snapshot| && snapshot[j] == r.value && r.value.code == code &&
                          forall k :: 0 <= k < j ==> snapshot[k].code != code
  {
    if |snapshot| == 0 then None
    else if snapshot[0].code == code then Some(snapshot[0])
    else
      var r := FirstQuote(snapshot[1..], code);
      assert forall j :: 0 < j < |snapshot| ==> snapshot[j] == snapshot[1..][j - 1];
      r
  }

  /** The signals for the pool items in order, skipping items without a snapshot row. */
  function Signals(pool: seq<PoolItem>, snapshot: seq<Quote>): seq<IntradaySignal> {
    if |pool| == 0 then []
    else
      var item := pool[|pool| - 1];
      Signals(pool[..|pool| - 1], snapshot) +
      (match FirstQuote(snapshot, item.code)
       case None => []
       case Some(q) => [SignalFor(q, item)])
  }

  predicate Quoted(snapshot: seq<Quote>, item: PoolItem) {
    exists j :: 0 <= j < |snapshot| && snapshot[j].code == item.code
  }

  /** Every signal belongs to a pool item quoted in the snapshot; there are at most as many signals as items. */
  lemma {:induction false} SignalsFromPool(pool: seq<PoolItem>, snapshot: seq<Quote>)
    ensures var r := Signals(pool, snapshot);
            && |r| <= |pool|
            && forall s :: s in r ==>
                 exists i :: 0 <= i < |pool| && s.code == pool[i].code && s.name == pool[i].name &&
                             Quoted(snapshot, pool[i])
  {
    if |pool| > 0 {
      var init := pool[..|pool| - 1];
      SignalsFromPool(init, snapshot);
      assert forall i :: 0 <= i < |init| ==> init[i] == pool[i];
    }
  }

  /** When every item is quoted there is exactly one signal per item, in pool order. */
  lemma {:induction false} SignalsOfQuotedPool(pool: seq<PoolItem>, snapshot: seq<Quote>)
    requires forall i :: 0 <= i < |pool| ==> Quoted(snapshot, pool[i])
    ensures var r := Signals(pool, snapshot);
            && |r| == |pool|
            && forall i :: 0 <= i < |pool| ==> r[i].code == pool[i].code && r[i].name == pool[i].name
  {
    if |pool| > 0 {
      var init, item := pool[..|pool| - 1], pool[|pool| - 1];
      assert forall i :: 0 <= i < |init| ==> init[i] == pool[i];
      SignalsOfQuotedPool(init, snapshot);
      assert Quoted(snapshot, item);
      var q := FirstQuote(snapshot, item.code);
      assert Signals(pool, snapshot) == Signals(init, snapshot) + [SignalFor(q.value, item)];
    }
  }

  /** The pool items that have a snapshot row, in pool order: an independent statement of what generate_signals keeps. */
  function QuotedItems(pool: seq<PoolItem>, snapshot: seq<Quote>): (r: seq<PoolItem>)
    ensures |r| <= |pool|
    ensures forall k :: 0 <= k < |r| ==> Quoted(snapshot, r[k])
    ensures forall it :: it in r ==> it in pool
    ensures forall i :: 0 <= i < |pool| && Quoted(snapshot, pool[i]) ==> pool[i] in r
  {
    if |pool| == 0 then []
    else
      var rest := QuotedItems(pool[1..], snapshot);
      assert forall i :: 1 <= i < |pool| ==> pool[i] == pool[1..][i - 1];
      (if Quoted(snapshot, pool[0]) then [pool[0]] else []) + rest
  }

  /** Filtering an extended pool filters the old pool, then the new item. */
  lemma {:induction false} QuotedItemsSnoc(pool: seq<PoolItem>, item: PoolItem, snapshot: seq<Quote>)
    ensures QuotedItems(pool + [item], snapshot) ==
              QuotedItems(pool, snapshot) + (if Quoted(snapshot, item) then [item] else [])
    decreases |pool|
  {
    var last := if Quoted(snapshot, item) then [item] else [];
    if |pool| == 0 {
      assert pool + [item] == [item];
      assert [item][1..] == [];
    } else {
      var head := if Quoted(snapshot, pool[0]) then [pool[0]] else [];
      assert (pool + [item])[0] == pool[0];
      assert (pool + [item])[1..] == pool[1..] + [item];
      QuotedItemsSnoc(pool[1..], item, snapshot);
      assert QuotedItems(pool + [item], snapshot) == head + (QuotedItems(pool[1..], snapshot) + last);
      assert QuotedItems(pool, snapshot) == head + QuotedItems(pool[1..], snapshot);
    }
  }

  /**
   * generate_signals, item by item: the k-th signal is the one built from the
   * first snapshot row of the k-th quoted pool item.
   */
  lemma {:induction false} SignalsOfQuotedItems(pool: seq<PoolItem>, snapshot: seq<Quote>)
    ensures |Signals(pool, snapshot)| == |QuotedItems(pool, snapshot)|
    ensures forall k :: 0 <= k < |Signals(pool, snapshot)| ==>
              Signals(pool, snapshot)[k] ==
                SignalFor(FirstQuote(snapshot, QuotedItems(pool, snapshot)[k].code).value,
                          QuotedItems(pool, snapshot)[k])
  {
    if |pool| > 0 {
      var init, item := pool[..|pool| - 1], pool[|pool| - 1];
      assert pool == init + [item];
      QuotedItemsSnoc(init, item, snapshot);
      SignalsOfQuotedItems(init, snapshot);
      var q := QuotedItems(pool, snapshot);
      if Quoted(snapshot, item) {
        assert Signals(pool, snapshot) ==
                 Signals(init, snapshot) + [SignalFor(FirstQuote(snapshot, item.code).value, item)];
        assert q == QuotedItems(init, snapshot) + [item];
      } else {
        assert Signals(pool, snapshot) == Signals(init, snapshot);
        assert q == QuotedItems(init, snapshot);
      }
    }
  }

  /** No quoted item means no signals. */
  lemma {:induction false} SignalsOfUnquotedPool(pool: seq<PoolItem>, snapshot: seq<Quote>)
    requires forall i :: 0 <= i < |pool| ==> !Quoted(snapshot, pool[i])
    ensures Signals(pool, snapshot) == []
  {
    if |pool| > 0 {
      var init := pool[..|pool| - 1];
      assert forall i :: 0 <= i < |init| ==> init[i] == pool[i];
      SignalsOfUnquotedPool(init, snapshot);
      assert !Quoted(snapshot, pool[|pool| - 1]);
    }
  }

  /** The generator holds the pool and its type ("stock" or anything else, treated as ETF). */
  datatype IntradaySignalGenerator = IntradaySignalGenerator(itemList: seq<PoolItem>, itemType: string)
  {
    /**
     * _create_signal_dict. The stock and ETF branches take the change unchanged,
     * so the signal depends on the snapshot row and the item only.
     */
    method CreateSignalDict(q: Quote, item: PoolItem) returns (s: IntradaySignal)
      ensures s == SignalFor(q, item)
      ensures s.change == q.change && s.name == item.name
    {
      var points: seq<string> := [];
      var change;
      if itemType == "stock" {
        change := q.change;
      } else {
        change := q.change;
      }
      if Gt(change, Some(2.5)) {
        points := points + [BigRise];
      }
      if Lt(change, Some(-2.5)) {
        points := points + [BigFall];
      }
      s := IntradaySignal(q.code, item.name, q.price, change, if |points| > 0 then points else [QuietSession]);
    }

    /** generate_signals: one signal per pool item with a snapshot row, in pool order. */
    method GenerateSignals(snapshot: seq<Quote>) returns (results: seq<IntradaySignal>)
      ensures results == Signals(itemList, snapshot)
    {
      results := [];
      for i := 0 to |itemList|
        invariant results == Signals(itemList[..i], snapshot)
      {
        var item := itemList[i];
        assert itemList[..i + 1][..i] == itemList[..i];
        var row := FirstQuote(snapshot, item.code);
        if row.Some? {
          var s := CreateSignalDict(row.value, item);
          results := results + [s];
        }
      }
      assert itemList[..|itemList|] == itemList;
    }
  }
}
