/**
 * Signal fusion (core/signal_system.py): eight per-indicator judges with fixed
 * weights, fused into a score, a consensus confidence, a five-way signal type
 * and a strength flag.
 *
 * The judges are pure threshold functions. generate_signals is a loop over the
 * eight judges in the source's order that accumulates the weights and reasons;
 * SignalOf is the same computation stated as functions of the judged entries,
 * and the lemmas below prove what that computation guarantees.
 */
module SignalFusion {
  import opened Frames

  datatype Side = Buy | Sell | Neutral

  datatype Indicator = RSI | KDJ | MACD | MA | BOLLINGER | CCI | OBV | WILLIAMS

  /** The order in which generate_signals consults the judges. */
  const Indicators: seq<Indicator> := [RSI, KDJ, MACD, MA, BOLLINGER, CCI, OBV, WILLIAMS]

  /** SignalSystem.signal_weights. */
  function Weight(i: Indicator): (w: nat)
    ensures w > 0
  {
    match i
    case RSI => 25
    case KDJ => 20
    case MACD => 20
    case MA => 15
    case BOLLINGER => 10
    case CCI => 5
    case OBV => 3
    case WILLIAMS => 2
  }

  function WeightSum(inds: seq<Indicator>): nat {
    if |inds| == 0 then 0 else WeightSum(inds[..|inds| - 1]) + Weight(inds[|inds| - 1])
  }

  lemma WeightsSumTo100()
    ensures WeightSum(Indicators) == 100
  {
    var xs := Indicators;
    assert xs[..1][..0] == xs[..0] && xs[..2][..1] == xs[..1] && xs[..3][..2] == xs[..2];
    assert xs[..4][..3] == xs[..3] && xs[..5][..4] == xs[..4] && xs[..6][..5] == xs[..5];
    assert xs[..7][..6] == xs[..6] && xs[..8][..7] == xs[..7] && xs[..8] == xs;
    assert WeightSum(xs[..1]) == 25;
    assert WeightSum(xs[..2]) == 45;
    assert WeightSum(xs[..3]) == 65;
    assert WeightSum(xs[..4]) == 80;
    assert WeightSum(xs[..5]) == 90;
    assert WeightSum(xs[..6]) == 95;
    assert WeightSum(xs[..7]) == 98;
  }

  /** What a judge reports next to its status: one value, or K and J for KDJ. */
  datatype Reading = Value(v: real) | KdjValues(k: real, j: real)

  datatype Judgement = Judgement(reading: Reading, status: Side, weight: nat)

  // ---------------------------------------------------------------------------
  // The eight judges
  // ---------------------------------------------------------------------------

  /** _evaluate_rsi: RSI_12 below 40 buys, above 60 sells. */
  function EvaluateRsi(latest: Row): (r: Option<Judgement>)
    ensures r.None? <==> latest.rsi12.None?
    ensures r.Some? ==> r.value.weight == Weight(RSI) && r.value.reading == Value(latest.rsi12.value)
    ensures r.Some? ==> (r.value.status == Buy <==> latest.rsi12.value < 40.0)
    ensures r.Some? ==> (r.value.status == Sell <==> latest.rsi12.value > 60.0)
  {
    if latest.rsi12.None? then None
    else
      var rsi := latest.rsi12.value;
      var status :=
        if rsi < 30.0 then Buy
        else if rsi < 40.0 then Buy
        else if rsi > 70.0 then Sell
        else if rsi > 60.0 then Sell
        else Neutral;
      Some(Judgement(Value(rsi), status, Weight(RSI)))
  }

  /** K crossed the previous D upward / downward. */
  predicate KdjCrossUp(k: real, prevK: Option<real>, prevD: Option<real>) {
    prevK.Some? && prevD.Some? && k > prevD.value && prevK.value <= prevD.value
  }
  predicate KdjCrossDown(k: real, prevK: Option<real>, prevD: Option<real>) {
    prevK.Some? && prevD.Some? && k < prevD.value && prevK.value >= prevD.value
  }

  /** _evaluate_kdj: a cross of K against the previous D decides first; then J, then K thresholds. */
  function EvaluateKdj(latest: Row, prev: Row): (r: Option<Judgement>)
    ensures r.None? <==> latest.kdjK.None? || latest.kdjJ.None?
    ensures r.Some? ==> r.value.weight == Weight(KDJ) &&
                        r.value.reading == KdjValues(latest.kdjK.value, latest.kdjJ.value)
    ensures r.Some? && KdjCrossUp(latest.kdjK.value, prev.kdjK, prev.kdjD) ==> r.value.status == Buy
    ensures r.Some? && KdjCrossDown(latest.kdjK.value, prev.kdjK, prev.kdjD) ==> r.value.status == Sell
    ensures r.Some? && !KdjCrossUp(latest.kdjK.value, prev.kdjK, prev.kdjD)
                    && !KdjCrossDown(latest.kdjK.value, prev.kdjK, prev.kdjD) ==>
              var k, j := latest.kdjK.value, latest.kdjJ.value;
              (r.value.status == Buy <==> j < 0.0 || (j <= 100.0 && k < 20.0)) &&
              (r.value.status == Sell <==> j > 100.0 || (0.0 <= j && 20.0 <= k && k > 80.0))
  {
    if latest.kdjK.None? || latest.kdjJ.None? then None
    else
      var k, j := latest.kdjK.value, latest.kdjJ.value;
      var status :=
        if KdjCrossUp(k, prev.kdjK, prev.kdjD) then Buy
        else if KdjCrossDown(k, prev.kdjK, prev.kdjD) then Sell
        else if j < 0.0 then Buy
        else if j > 100.0 then Sell
        else if k < 20.0 then Buy
        else if k > 80.0 then Sell
        else Neutral;
      Some(Judgement(KdjValues(k, j), status, Weight(KDJ)))
  }

  /** _evaluate_macd: a signal-line cross decides first; then both lines on one side of zero. */
  function EvaluateMacd(latest: Row, prev: Row): (r: Option<Judgement>)
    ensures r.None? <==> latest.macd.None? || latest.macds.None?
    ensures r.Some? ==> r.value.weight == Weight(MACD) && r.value.reading == Value(latest.macd.value)
    ensures r.Some? ==>
              var m, s := latest.macd.value, latest.macds.value;
              var up := prev.macd.Some? && prev.macds.Some? && m > s && prev.macd.value <= prev.macds.value;
              var down := prev.macd.Some? && prev.macds.Some? && m < s && prev.macd.value >= prev.macds.value;
              (r.value.status == Buy <==> up || (!down && m > 0.0 && s > 0.0)) &&
              (r.value.status == Sell <==> down || (!up && m < 0.0 && s < 0.0))
  {
    if latest.macd.None? || latest.macds.None? then None
    else
      var m, s := latest.macd.value, latest.macds.value;
      var status :=
        if prev.macd.Some? && prev.macds.Some? && m > s && prev.macd.value <= prev.macds.value then Buy
        else if prev.macd.Some? && prev.macds.Some? && m < s && prev.macd.value >= prev.macds.value then Sell
        else if m > 0.0 && s > 0.0 then Buy
        else if m < 0.0 && s < 0.0 then Sell
        else Neutral;
      Some(Judgement(Value(m), status, Weight(MACD)))
  }

  /**
   * _evaluate_ma: a full short-term chain decides first, then close against SMA_20.
   * Since either chain already implies the SMA_20 comparison, the status is just
   * the side of close relative to SMA_20.
   */
  function EvaluateMa(latest: Row): (r: Option<Judgement>)
    ensures r.None? <==> latest.close.None? || latest.sma20.None?
    ensures r.Some? ==> r.value.weight == Weight(MA) && r.value.reading == Value(latest.close.value)
    ensures r.Some? ==> (r.value.status == Buy <==> latest.close.value > latest.sma20.value)
    ensures r.Some? ==> (r.value.status == Sell <==> latest.close.value < latest.sma20.value)
  {
    if latest.close.None? || latest.sma20.None? then None
    else
      var close, s20 := latest.close.value, latest.sma20.value;
      var status :=
        if latest.sma5.Some? && latest.sma10.Some? &&
           close > latest.sma5.value > latest.sma10.value > s20 then Buy
        else if latest.sma5.Some? && latest.sma10.Some? &&
                close < latest.sma5.value < latest.sma10.value < s20 then Sell
        else if close > s20 then Buy
        else if close < s20 then Sell
        else Neutral;
      Some(Judgement(Value(close), status, Weight(MA)))
  }

  /**
   * _evaluate_bollinger: only close and the lower band are required; a missing
   * upper or middle band makes its comparison false, and the final branch sells,
   * so this judge is never neutral.
   */
  function EvaluateBollinger(latest: Row): (r: Option<Judgement>)
    ensures r.None? <==> latest.close.None? || latest.bbl.None?
    ensures r.Some? ==> r.value.weight == Weight(BOLLINGER) && r.value.reading == Value(latest.close.value)
    ensures r.Some? ==> r.value.status != Neutral
    ensures r.Some? ==>
              (r.value.status == Buy <==>
                 latest.close.value < latest.bbl.value ||
                 (!Gt(latest.close, latest.bbu) && Gt(latest.close, latest.bbm)))
  {
    if latest.close.None? || latest.bbl.None? then None
    else
      var close := latest.close.value;
      var status :=
        if close < latest.bbl.value then Buy
        else if Gt(latest.close, latest.bbu) then Sell
        else if Gt(latest.close, latest.bbm) then Buy
        else Sell;
      Some(Judgement(Value(close), status, Weight(BOLLINGER)))
  }

  /** _evaluate_cci: below -100 buys, above 100 sells. */
  function EvaluateCci(latest: Row): (r: Option<Judgement>)
    ensures r.None? <==> latest.cci14.None?
    ensures r.Some? ==> r.value.weight == Weight(CCI) && r.value.reading == Value(latest.cci14.value)
    ensures r.Some? ==> (r.value.status == Buy <==> latest.cci14.value < -100.0)
    ensures r.Some? ==> (r.value.status == Sell <==> latest.cci14.value > 100.0)
  {
    if latest.cci14.None? then None
    else
      var cci := latest.cci14.value;
      Some(Judgement(Value(cci), if cci < -100.0 then Buy else if cci > 100.0 then Sell else Neutral, Weight(CCI)))
  }

  /** _evaluate_obv: OBV rising from the previous row buys, falling sells. */
  function EvaluateObv(latest: Row, prev: Row): (r: Option<Judgement>)
    ensures r.None? <==> latest.obv.None?
    ensures r.Some? ==> r.value.weight == Weight(OBV) && r.value.reading == Value(latest.obv.value)
    ensures r.Some? ==> (r.value.status == Buy <==> Gt(latest.obv, prev.obv))
    ensures r.Some? ==> (r.value.status == Sell <==> Lt(latest.obv, prev.obv))
  {
    if latest.obv.None? then None
    else
      var obv := latest.obv.value;
      var status :=
        if prev.obv.Some? && obv > prev.obv.value then Buy
        else if prev.obv.Some? && obv < prev.obv.value then Sell
        else Neutral;
      Some(Judgement(Value(obv), status, Weight(OBV)))
  }

  /** _evaluate_williams: WR_14 above -20 buys, below -80 sells. */
  function EvaluateWilliams(latest: Row): (r: Option<Judgement>)
    ensures r.None? <==> latest.wr14.None?
    ensures r.Some? ==> r.value.weight == Weight(WILLIAMS) && r.value.reading == Value(latest.wr14.value)
    ensures r.Some? ==> (r.value.status == Buy <==> latest.wr14.value > -20.0)
    ensures r.Some? ==> (r.value.status == Sell <==> latest.wr14.value < -80.0)
  {
    if latest.wr14.None? then None
    else
      var wr := latest.wr14.value;
      Some(Judgement(Value(wr), if wr > -20.0 then Buy else if wr < -80.0 then Sell else Neutral, Weight(WILLIAMS)))
  }

  /** The judge of one indicator; every judge it returns carries that indicator's weight. */
  function Judge(ind: Indicator, latest: Row, prev: Row): (r: Option<Judgement>)
    ensures r.Some? ==> r.value.weight == Weight(ind)
  {
    match ind
    case RSI => EvaluateRsi(latest)
    case KDJ => EvaluateKdj(latest, prev)
    case MACD => EvaluateMacd(latest, prev)
    case MA => EvaluateMa(latest)
    case BOLLINGER => EvaluateBollinger(latest)
    case CCI => EvaluateCci(latest)
    case OBV => EvaluateObv(latest, prev)
    case WILLIAMS => EvaluateWilliams(latest)
  }

  // ---------------------------------------------------------------------------
  // Fusion, stated over the judged entries
  // ---------------------------------------------------------------------------

  /** One item of forward_indicators, in insertion order. */
  datatype Entry = Entry(indicator: Indicator, judgement: Judgement)

  /**
   * One entry of signal_reasons: the indicator and side a non-neutral judge gave,
   * with its reading (the source embeds the reading, formatted, into the text),
   * or the single placeholder a Hold signal carries.
   */
  datatype Reason = Because(indicator: Indicator, side: Side, reading: Reading) | HoldAdvice

  datatype SignalType = StrongBuy | ModerateBuy | Hold | ModerateSell | StrongSell
  {
    function Name(): string {
      match this
      case StrongBuy => "Strong Buy"
      case ModerateBuy => "Buy"
      case Hold => "Hold"
      case ModerateSell => "Sell"
      case StrongSell => "Strong Sell"
    }
    /** Bullishness rank: 0 for Strong Sell up to 4 for Strong Buy. */
    function Rank(): nat {
      match this
      case StrongSell => 0
      case ModerateSell => 1
      case Hold => 2
      case ModerateBuy => 3
      case StrongBuy => 4
    }
  }

  datatype Strength = Weak | Strong

  datatype SignalData = SignalData(
    signalType: SignalType, score: real, confidence: real,
    reasons: seq<Reason>, strength: Strength, forward: seq<Entry>)

  /** forward_indicators: the present judgements, in the judges' order. */
  function ForwardOf(inds: seq<Indicator>, latest: Row, prev: Row): (es: seq<Entry>)
    ensures |es| <= |inds|
    ensures forall e :: e in es ==> e.judgement.weight == Weight(e.indicator)
  {
    if |inds| == 0 then []
    else
      var es := ForwardOf(inds[..|inds| - 1], latest, prev);
      var ind := inds[|inds| - 1];
      var r := Judge(ind, latest, prev);
      if r.Some? then es + [Entry(ind, r.value)] else es
  }

  function TotalWeight(es: seq<Entry>): nat {
    if |es| == 0 then 0 else TotalWeight(es[..|es| - 1]) + es[|es| - 1].judgement.weight
  }

  function SideWeight(es: seq<Entry>, side: Side): nat {
    if |es| == 0 then 0
    else SideWeight(es[..|es| - 1], side) +
         (if es[|es| - 1].judgement.status == side then es[|es| - 1].judgement.weight else 0)
  }

  function CountSide(es: seq<Entry>, side: Side): nat {
    if |es| == 0 then 0
    else CountSide(es[..|es| - 1], side) + (if es[|es| - 1].judgement.status == side then 1 else 0)
  }

  /** signal_reasons before the Hold replacement: one reason per non-neutral entry, in order. */
  function ReasonsOf(es: seq<Entry>): seq<Reason> {
    if |es| == 0 then []
    else
      var e := es[|es| - 1];
      ReasonsOf(es[..|es| - 1]) +
      (if e.judgement.status != Neutral then [Because(e.indicator, e.judgement.status, e.judgement.reading)] else [])
  }

  function Score(buyW: nat, sellW: nat, totalW: nat): real {
    if totalW > 0 then (buyW as real - sellW as real) / totalW as real * 50.0 + 50.0 else 50.0
  }

  function Confidence(buyC: nat, sellC: nat): real {
    if buyC + sellC > 0 then Max(buyC, sellC) as real / (buyC + sellC) as real * 100.0 else 50.0
  }

  function TypeOf(score: real): (t: SignalType)
    ensures t == StrongBuy <==> score >= 85.0
    ensures t == ModerateBuy <==> 65.0 <= score < 85.0
    ensures t == Hold <==> 45.0 <= score < 65.0
    ensures t == ModerateSell <==> 25.0 <= score < 45.0
    ensures t == StrongSell <==> score < 25.0
  {
    if score >= 85.0 then StrongBuy
    else if score >= 65.0 then ModerateBuy
    else if score >= 45.0 then Hold
    else if score >= 25.0 then ModerateSell
    else StrongSell
  }

  /** The strength set with the type, then overridden by the confidence bands. */
  function StrengthOf(t: SignalType, confidence: real): Strength {
    var byType := if t == StrongBuy || t == StrongSell then Strong else Weak;
    if confidence >= 70.0 then Strong
    else if confidence >= 40.0 then Weak
    else byType
  }

  /** What generate_signals returns for one (latest, previous) pair of rows. */
  function SignalOf(latest: Row, prev: Row): SignalData {
    var es := ForwardOf(Indicators, latest, prev);
    var score := Score(SideWeight(es, Buy), SideWeight(es, Sell), TotalWeight(es));
    var confidence := Confidence(CountSide(es, Buy), CountSide(es, Sell));
    var t := TypeOf(score);
    SignalData(t, score, confidence,
               if t == Hold then [HoldAdvice] else ReasonsOf(es),
               StrengthOf(t, confidence), es)
  }

  // ---------------------------------------------------------------------------
  // What the fusion guarantees
  // ---------------------------------------------------------------------------

  lemma {:induction false} SideWeightsWithinTotal(es: seq<Entry>)
    ensures SideWeight(es, Buy) + SideWeight(es, Sell) <= TotalWeight(es)
  {
    if |es| > 0 {
      SideWeightsWithinTotal(es[..|es| - 1]);
    }
  }

  lemma {:induction false} TotalWeightPositive(es: seq<Entry>)
    requires forall e :: e in es ==> e.judgement.weight == Weight(e.indicator)
    ensures TotalWeight(es) > 0 <==> |es| > 0
  {
    if |es| > 0 {
      assert es[|es| - 1] in es;
      var init := es[..|es| - 1];
      assert forall e :: e in init ==> e in es;
      TotalWeightPositive(init);
    }
  }

  /** signal_score lies in [0, 100]. */
  lemma ScoreInRange(buyW: nat, sellW: nat, totalW: nat)
    requires buyW + sellW <= totalW
    ensures 0.0 <= Score(buyW, sellW, totalW) <= 100.0
  {
    if totalW > 0 {
      var b, s, t := buyW as real, sellW as real, totalW as real;
      assert b + s <= t;
      RatioBetween(b - s, t, -1.0, 1.0);
    }
  }

  lemma NonNegFactor(a: real, t: real)
    requires t > 0.0 && a * t >= 0.0
    ensures a >= 0.0
  {
  }

  /** x / t lies in [lo, hi] whenever lo t <= x <= hi t and t is positive. */
  lemma RatioBetween(x: real, t: real, lo: real, hi: real)
    requires t > 0.0 && lo * t <= x <= hi * t
    ensures lo <= x / t <= hi
  {
    var q := x / t;
    assert q * t == x;
    assert (q - lo) * t == x - lo * t;
    NonNegFactor(q - lo, t);
    assert (hi - q) * t == hi * t - x;
    NonNegFactor(hi - q, t);
  }

  /** confidence lies in [50, 100]: the dominant side holds at least half of the non-neutral judges. */
  lemma ConfidenceInRange(buyC: nat, sellC: nat)
    ensures 50.0 <= Confidence(buyC, sellC) <= 100.0
  {
    if buyC + sellC > 0 {
      var n := buyC as real + sellC as real;
      var d := Max(buyC, sellC) as real;
      assert (buyC + sellC) as real == n;
      assert 0.5 * n <= d <= 1.0 * n;
      RatioBetween(d, n, 0.5, 1.0);
    }
  }

  /** A higher score never gives a more bearish signal type. */
  lemma TypeMonotone(s1: real, s2: real)
    requires s1 <= s2
    ensures TypeOf(s1).Rank() <= TypeOf(s2).Rank()
  {
  }

  /** With the confidence in [50, 100], the strength is Strong exactly when the confidence reaches 70, whatever the type. */
  lemma StrengthFollowsConfidence(t: SignalType, confidence: real)
    requires 50.0 <= confidence
    ensures StrengthOf(t, confidence) == Strong <==> confidence >= 70.0
  {
  }

  /** The properties of one generate_signals result. */
  lemma SignalProperties(latest: Row, prev: Row)
    ensures var sig := SignalOf(latest, prev);
            && 0.0 <= sig.score <= 100.0
            && 50.0 <= sig.confidence <= 100.0
            && (sig.strength == Strong <==> sig.confidence >= 70.0)
            && (sig.signalType == Hold ==> sig.reasons == [HoldAdvice])
            && (|sig.forward| == 0 ==> sig.score == 50.0 && sig.confidence == 50.0 && sig.signalType == Hold)
  {
    var es := ForwardOf(Indicators, latest, prev);
    SideWeightsWithinTotal(es);
    TotalWeightPositive(es);
    ScoreInRange(SideWeight(es, Buy), SideWeight(es, Sell), TotalWeight(es));
    ConfidenceInRange(CountSide(es, Buy), CountSide(es, Sell));
    var sig := SignalOf(latest, prev);
    StrengthFollowsConfidence(sig.signalType, sig.confidence);
    if |es| == 0 {
      assert CountSide(es, Buy) == 0 && CountSide(es, Sell) == 0;
    }
  }

  lemma {:induction false} Unanimous(es: seq<Entry>, side: Side)
    requires forall e :: e in es ==> e.judgement.status == side
    ensures SideWeight(es, side) == TotalWeight(es)
    ensures CountSide(es, side) == |es|
    ensures side != Buy ==> SideWeight(es, Buy) == 0 && CountSide(es, Buy) == 0
    ensures side != Sell ==> SideWeight(es, Sell) == 0 && CountSide(es, Sell) == 0
  {
    if |es| > 0 {
      var init := es[..|es| - 1];
      assert forall e :: e in init ==> e in es;
      assert es[|es| - 1] in es;
      Unanimous(init, side);
    }
  }

  /** A unanimous side gives score 100 (all Buy) or 0 (all Sell) and confidence 100. */
  lemma UnanimousScore(w: nat, c: nat)
    requires w > 0 && c > 0
    ensures Score(w, 0, w) == 100.0 && Score(0, w, w) == 0.0
    ensures Confidence(c, 0) == 100.0 && Confidence(0, c) == 100.0
  {
    var t := w as real;
    assert t / t == 1.0;
    assert (-t) / t == -1.0;
    assert (c as real) / (c as real) == 1.0;
  }

  /** Every present judge says Buy (and one is present): score 100, confidence 100, Strong Buy, Strong. */
  lemma AllBuy(latest: Row, prev: Row)
    requires |ForwardOf(Indicators, latest, prev)| > 0
    requires forall e :: e in ForwardOf(Indicators, latest, prev) ==> e.judgement.status == Buy
    ensures var sig := SignalOf(latest, prev);
            sig.score == 100.0 && sig.confidence == 100.0 &&
            sig.signalType == StrongBuy && sig.strength == Strong
  {
    var es := ForwardOf(Indicators, latest, prev);
    Unanimous(es, Buy);
    TotalWeightPositive(es);
    UnanimousScore(TotalWeight(es), |es|);
  }

  /** Every present judge says Sell (and one is present): score 0, confidence 100, Strong Sell, Strong. */
  lemma AllSell(latest: Row, prev: Row)
    requires |ForwardOf(Indicators, latest, prev)| > 0
    requires forall e :: e in ForwardOf(Indicators, latest, prev) ==> e.judgement.status == Sell
    ensures var sig := SignalOf(latest, prev);
            sig.score == 0.0 && sig.confidence == 100.0 &&
            sig.signalType == StrongSell && sig.strength == Strong
  {
    var es := ForwardOf(Indicators, latest, prev);
    Unanimous(es, Sell);
    TotalWeightPositive(es);
    UnanimousScore(TotalWeight(es), |es|);
  }

  /** Every present judge is neutral: score 50, confidence 50, Hold with the single placeholder reason. */
  lemma AllNeutral(latest: Row, prev: Row)
    requires forall e :: e in ForwardOf(Indicators, latest, prev) ==> e.judgement.status == Neutral
    ensures var sig := SignalOf(latest, prev);
            sig.score == 50.0 && sig.confidence == 50.0 &&
            sig.signalType == Hold && sig.reasons == [HoldAdvice] && sig.strength == Weak
  {
    var es := ForwardOf(Indicators, latest, prev);
    Unanimous(es, Neutral);
  }

  // ---------------------------------------------------------------------------
  // generate_signals
  // ---------------------------------------------------------------------------

  /** The eight judge blocks of generate_signals: collect entries, weights and reasons in order. */
  method JudgeAll(latest: Row, prev: Row)
    returns (forward: seq<Entry>, reasons: seq<Reason>, totalWeight: nat, buyWeight: nat, sellWeight: nat)
    ensures forward == ForwardOf(Indicators, latest, prev)
    ensures totalWeight == TotalWeight(forward)
    ensures buyWeight == SideWeight(forward, Buy)
    ensures sellWeight == SideWeight(forward, Sell)
    ensures reasons == ReasonsOf(forward)
  {
    forward, reasons := [], [];
    totalWeight, buyWeight, sellWeight := 0, 0, 0;
    for k := 0 to |Indicators|
      invariant forward == ForwardOf(Indicators[..k], latest, prev)
      invariant totalWeight == TotalWeight(forward)
      invariant buyWeight == SideWeight(forward, Buy)
      invariant sellWeight == SideWeight(forward, Sell)
      invariant reasons == ReasonsOf(forward)
    {
      var ind := Indicators[k];
      var result := Judge(ind, latest, prev);
      ForwardStep(Indicators, k, latest, prev);
      if result.Some? {
        var j := result.value;
        AggregatesStep(forward, Entry(ind, j));
        forward := forward + [Entry(ind, j)];
        totalWeight := totalWeight + j.weight;
        if j.status == Buy {
          buyWeight := buyWeight + j.weight;
          reasons := reasons + [Because(ind, Buy, j.reading)];
        } else if j.status == Sell {
          sellWeight := sellWeight + j.weight;
          reasons := reasons + [Because(ind, Sell, j.reading)];
        }
      }
    }
    assert Indicators[..|Indicators|] == Indicators;
  }

  /** One more judge either adds its entry at the end of forward_indicators or leaves it as it was. */
  lemma ForwardStep(inds: seq<Indicator>, k: nat, latest: Row, prev: Row)
    requires k < |inds|
    ensures var r := Judge(inds[k], latest, prev);
            ForwardOf(inds[..k + 1], latest, prev) ==
              ForwardOf(inds[..k], latest, prev) + (if r.Some? then [Entry(inds[k], r.value)] else [])
  {
    assert inds[..k + 1][..k] == inds[..k];
  }

  /** Appending an entry adds its weight to the total and to its side, and its reason when not neutral. */
  lemma AggregatesStep(es: seq<Entry>, e: Entry)
    ensures TotalWeight(es + [e]) == TotalWeight(es) + e.judgement.weight
    ensures SideWeight(es + [e], Buy) == SideWeight(es, Buy) + (if e.judgement.status == Buy then e.judgement.weight else 0)
    ensures SideWeight(es + [e], Sell) == SideWeight(es, Sell) + (if e.judgement.status == Sell then e.judgement.weight else 0)
    ensures ReasonsOf(es + [e]) ==
              ReasonsOf(es) + (if e.judgement.status != Neutral then [Because(e.indicator, e.judgement.status, e.judgement.reading)] else [])
  {
    assert (es + [e])[..|es|] == es;
  }

  /** generate_signals: fuse the judges into score, confidence, type, reasons and strength. */
  method GenerateSignals(latest: Row, prev: Row) returns (sig: SignalData)
    ensures sig == SignalOf(latest, prev)
    ensures 0.0 <= sig.score <= 100.0
    ensures 50.0 <= sig.confidence <= 100.0
    ensures sig.strength == Strong <==> sig.confidence >= 70.0
    ensures sig.signalType == Hold ==> sig.reasons == [HoldAdvice]
  {
    var forward, reasons, totalWeight, buyWeight, sellWeight := JudgeAll(latest, prev);
    var score := if totalWeight > 0 then
        (buyWeight as real - sellWeight as real) / totalWeight as real * 50.0 + 50.0
      else 50.0;
    var buyCount, sellCount := CountSide(forward, Buy), CountSide(forward, Sell);
    var signalCount := buyCount + sellCount;
    var confidence := if signalCount > 0 then
        Max(buyCount, sellCount) as real / signalCount as real * 100.0
      else 50.0;

    var signalType: SignalType;
    var strength: Strength;
    if score >= 85.0 {
      signalType, strength := StrongBuy, Strong;
    } else if score >= 65.0 {
      signalType, strength := ModerateBuy, Weak;
    } else if score >= 45.0 {
      signalType, strength := Hold, Weak;
    } else if score >= 25.0 {
      signalType, strength := ModerateSell, Weak;
    } else {
      signalType, strength := StrongSell, Strong;
    }
    if signalType == Hold {
      reasons := [HoldAdvice];
    }
    if confidence >= 70.0 {
      strength := Strong;
    } else if confidence >= 40.0 {
      strength := Weak;
    }
    sig := SignalData(signalType, score, confidence, reasons, strength, forward);
    SignalProperties(latest, prev);
  }
}
