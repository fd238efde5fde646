/**
 * Price predictor (core/predictor.py, class PricePredictor): support and
 * resistance levels, trend probabilities and 1-3 day price bands.
 *
 * Floating-point-only quantities enter as inputs: the 14-row ATR, the mean of
 * the last three close-to-close returns, and the daily volatility (the standard
 * deviation of the last 20 returns, scaled by sqrt(252) and back). Python's
 * round(v, n) is round-half-even to n decimals on the exact value.
 */
module Predictor {
  import opened Frames
  import SignalFusion

  // ---------------------------------------------------------------------------
  // Rounding and truncation
  // ---------------------------------------------------------------------------

  /** The integer nearest to x, ties to the even one. */
  function RoundHalfEven(x: real): (n: int)
    ensures x - 0.5 <= n as real <= x + 0.5
  {
    var f := x.Floor;
    var frac := x - f as real;
    if frac > 0.5 then f + 1
    else if frac < 0.5 then f
    else if f % 2 == 0 then f
    else f + 1
  }

  lemma RoundHalfEvenMonotone(x: real, y: real)
    requires x <= y
    ensures RoundHalfEven(x) <= RoundHalfEven(y)
  {
    var fx, fy := x.Floor, y.Floor;
    assert fx <= fy;
    if fx < fy {
      assert RoundHalfEven(x) <= fx + 1 <= fy <= RoundHalfEven(y);
    }
  }

  /** round(v, 2). */
  function Round2(v: real): (r: real)
    ensures v - 0.005 <= r <= v + 0.005
    ensures v >= 0.0 ==> r >= 0.0
  {
    RoundHalfEven(v * 100.0) as real / 100.0
  }

  /** round(v, 1), kept as a whole number of tenths. */
  function Tenths(v: real): (n: int)
    ensures v * 10.0 - 0.5 <= n as real <= v * 10.0 + 0.5
  {
    RoundHalfEven(v * 10.0)
  }

  function Round1(v: real): (r: real)
    ensures v - 0.05 <= r <= v + 0.05
    ensures v >= 0.0 ==> r >= 0.0
  {
    Tenths(v) as real / 10.0
  }

  lemma Round2Monotone(v: real, w: real)
    requires v <= w
    ensures Round2(v) <= Round2(w)
  {
    RoundHalfEvenMonotone(v * 100.0, w * 100.0);
  }

  /** Python's int() on a float: truncation toward zero. */
  function Trunc(x: real): (n: int)
    ensures x >= 0.0 ==> n == x.Floor
    ensures Abs(n as real) <= Abs(x)
  {
    if x >= 0.0 then x.Floor else -((-x).Floor)
  }

  // ---------------------------------------------------------------------------
  // Sorted, de-duplicated levels
  // ---------------------------------------------------------------------------

  predicate Ascending(xs: seq<real>) {
    forall i, j :: 0 <= i < j < |xs| ==> xs[i] < xs[j]
  }

  lemma ConsAscending(h: real, rest: seq<real>)
    requires Ascending(rest)
    requires forall v :: v in rest ==> h < v
    ensures Ascending([h] + rest)
  {
    forall i, j | 0 <= i < j < |[h] + rest|
      ensures ([h] + rest)[i] < ([h] + rest)[j]
    {
      assert ([h] + rest)[j] == rest[j - 1];
      assert rest[j - 1] in rest;
      if i > 0 {
        assert ([h] + rest)[i] == rest[i - 1];
      }
    }
  }

  lemma HeadBelowTail(xs: seq<real>)
    requires Ascending(xs) && |xs| > 0
    ensures forall v :: v in xs[1..] ==> xs[0] < v
  {
    forall v | v in xs[1..]
      ensures xs[0] < v
    {
      var k :| 0 <= k < |xs[1..]| && xs[1..][k] == v;
      assert xs[k + 1] == v;
    }
  }

  function Insert(ys: seq<real>, x: real): (r: seq<real>)
    requires Ascending(ys)
    ensures Ascending(r)
    ensures forall v :: v in r <==> v in ys || v == x
  {
    if |ys| == 0 then [x]
    else if x < ys[0] then
      HeadBelowTail(ys);
      assert forall v :: v in ys ==> v == ys[0] || v in ys[1..];
      ConsAscending(x, ys);
      [x] + ys
    else if x == ys[0] then ys
    else
      var rest := Insert(ys[1..], x);
      HeadBelowTail(ys);
      ConsAscending(ys[0], rest);
      assert forall v :: v in ys <==> v == ys[0] || v in ys[1..];
      [ys[0]] + rest
  }

  /** sorted(list(set(xs))): the distinct values of xs in strictly ascending order. */
  function SortedSet(xs: seq<real>): (r: seq<real>)
    ensures Ascending(r)
    ensures forall v :: v in r <==> v in xs
  {
    if |xs| == 0 then []
    else Insert(SortedSet(xs[..|xs| - 1]), xs[|xs| - 1])
  }

  /** [round(v, 2) for v in levels if v > 0]; a NaN level fails `v > 0`. */
  function RoundPositive(levels: seq<Option<real>>): (r: seq<real>)
    ensures forall v :: v in r ==> v >= 0.0
    ensures forall v :: v in r <==> exists i :: 0 <= i < |levels| && levels[i].Some? &&
                                                levels[i].value > 0.0 && v == Round2(levels[i].value)
  {
    if |levels| == 0 then []
    else
      var init := levels[..|levels| - 1];
      var l := levels[|levels| - 1];
      var r := RoundPositive(init) + (if l.Some? && l.value > 0.0 then [Round2(l.value)] else []);
      assert forall i :: 0 <= i < |init| ==> init[i] == levels[i];
      r
  }

  function Below(xs: seq<real>, price: real): (r: seq<real>)
    requires Ascending(xs)
    ensures Ascending(r)
    ensures forall v :: v in r <==> v in xs && v < price
  {
    if |xs| == 0 then []
    else
      var rest := Below(xs[1..], price);
      HeadBelowTail(xs);
      assert forall v :: v in xs <==> v == xs[0] || v in xs[1..];
      if xs[0] < price then
        ConsAscending(xs[0], rest);
        [xs[0]] + rest
      else rest
  }

  function Above(xs: seq<real>, price: real): (r: seq<real>)
    requires Ascending(xs)
    ensures Ascending(r)
    ensures forall v :: v in r <==> v in xs && v > price
  {
    if |xs| == 0 then []
    else
      var rest := Above(xs[1..], price);
      HeadBelowTail(xs);
      assert forall v :: v in xs <==> v == xs[0] || v in xs[1..];
      if xs[0] > price then
        ConsAscending(xs[0], rest);
        [xs[0]] + rest
      else rest
  }

  /** levels[-3:] when longer than 3: the three largest of an ascending list. */
  function LastThree(xs: seq<real>): (r: seq<real>)
    requires Ascending(xs)
    ensures Ascending(r) && |r| == Min(|xs|, 3)
    ensures forall v :: v in r ==> v in xs
    ensures forall v :: v in xs && v !in r ==> forall w :: w in r ==> v < w
  {
    if |xs| > 3 then
      var r := xs[|xs| - 3..];
      assert forall v :: v in xs && v !in r ==> exists i :: 0 <= i < |xs| - 3 && xs[i] == v;
      r
    else xs
  }

  /** levels[:3] when longer than 3: the three smallest of an ascending list. */
  function FirstThree(xs: seq<real>): (r: seq<real>)
    requires Ascending(xs)
    ensures Ascending(r) && |r| == Min(|xs|, 3)
    ensures forall v :: v in r ==> v in xs
    ensures forall v :: v in xs && v !in r ==> forall w :: w in r ==> w < v
  {
    if |xs| > 3 then
      var r := xs[..3];
      assert forall v :: v in xs && v !in r ==> exists i :: 3 <= i < |xs| && xs[i] == v;
      r
    else xs
  }

  // ---------------------------------------------------------------------------
  // _calculate_support_resistance
  // ---------------------------------------------------------------------------

  datatype SupportResistance = SupportResistance(support: seq<real>, resistance: seq<real>, atr: Option<real>)

  /** The high series: the high column, or close when the frame has none. */
  function Highs(f: Frame): (r: seq<Option<real>>)
    ensures |r| == |f.rows|
    ensures f.hasHigh ==> forall i :: 0 <= i < |f.rows| ==> r[i] == f.rows[i].high
    ensures !f.hasHigh ==> r == Closes(f.rows)
  {
    seq(|f.rows|, i requires 0 <= i < |f.rows| => if f.hasHigh then f.rows[i].high else f.rows[i].close)
  }

  /** The low series: the low column, or close when the frame has none. */
  function Lows(f: Frame): (r: seq<Option<real>>)
    ensures |r| == |f.rows|
    ensures f.hasLow ==> forall i :: 0 <= i < |f.rows| ==> r[i] == f.rows[i].low
    ensures !f.hasLow ==> r == Closes(f.rows)
  {
    seq(|f.rows|, i requires 0 <= i < |f.rows| => if f.hasLow then f.rows[i].low else f.rows[i].close)
  }

  /** Support candidates in the order the source appends them. */
  function SupportCandidates(low: Option<real>, last: Row, price: real, atr: Option<real>): seq<Option<real>> {
    var c0 := [low];
    var c1 := if last.bbl.Some? then c0 + [last.bbl] else c0;
    var c2 := if Lt(last.sma20, Some(price)) then c1 + [last.sma20] else c1;
    var c3 := if Lt(last.sma60, Some(price)) then c2 + [last.sma60] else c2;
    c3 + [Sub(Some(price), Scale(1.5, atr))] + [Sub(Some(price), Scale(3.0, atr))]
  }

  /** Resistance candidates in the order the source appends them. */
  function ResistanceCandidates(high: Option<real>, last: Row, price: real, atr: Option<real>): seq<Option<real>> {
    var c0 := [high];
    var c1 := if last.bbu.Some? then c0 + [last.bbu] else c0;
    var c2 := if Gt(last.sma5, Some(price)) then c1 + [last.sma5] else c1;
    var c3 := if Gt(last.sma10, Some(price)) then c2 + [last.sma10] else c2;
    var c4 := if Gt(last.sma20, Some(price)) then c3 + [last.sma20] else c3;
    c4 + [Add(Some(price), Scale(1.5, atr))] + [Add(Some(price), Scale(3.0, atr))]
  }

  /** All rounded, positive, distinct support levels below the price, ascending. */
  function SupportPool(f: Frame, price: real, atr: Option<real>): (r: seq<real>)
    requires |f.rows| >= 20
    ensures Ascending(r)
    ensures forall v :: v in r ==> 0.0 <= v < price
  {
    var low := SeriesMin(Tail(Lows(f), 20));
    Below(SortedSet(RoundPositive(SupportCandidates(low, f.rows[|f.rows| - 1], price, atr))), price)
  }

  /** All rounded, positive, distinct resistance levels above the price, ascending. */
  function ResistancePool(f: Frame, price: real, atr: Option<real>): (r: seq<real>)
    requires |f.rows| >= 20
    ensures Ascending(r)
    ensures forall v :: v in r ==> v > price && v >= 0.0
  {
    var high := SeriesMax(Tail(Highs(f), 20));
    Above(SortedSet(RoundPositive(ResistanceCandidates(high, f.rows[|f.rows| - 1], price, atr))), price)
  }

  /**
   * _calculate_support_resistance. With at least 20 rows the source always takes
   * the 14-row ATR branch; `atr` is that rolling mean.
   */
  function SupportResistanceOf(f: Frame, price: real, atr: Option<real>): (sr: SupportResistance)
    requires price > 0.0
    ensures |f.rows| < 20 ==> sr.support == [] && sr.resistance == []
    ensures Ascending(sr.support) && Ascending(sr.resistance)
    ensures |sr.support| <= 3 && |sr.resistance| <= 3
    ensures forall v :: v in sr.support ==> 0.0 <= v < price
    ensures forall v :: v in sr.resistance ==> v > price && v > 0.0
  {
    if |f.rows| < 20 then SupportResistance([], [], None)
    else
      var s := LastThree(SupportPool(f, price, atr));
      var r := FirstThree(ResistancePool(f, price, atr));
      SupportResistance(s, r, atr)
  }

  /** Support keeps the three nearest (largest) levels below the price, resistance the three nearest above. */
  lemma NearestLevelsKept(f: Frame, price: real, atr: Option<real>)
    requires |f.rows| >= 20 && price > 0.0
    ensures var sr := SupportResistanceOf(f, price, atr);
            && |sr.support| == Min(|SupportPool(f, price, atr)|, 3)
            && (forall v :: v in SupportPool(f, price, atr) && v !in sr.support ==>
                  forall w :: w in sr.support ==> v < w)
            && |sr.resistance| == Min(|ResistancePool(f, price, atr)|, 3)
            && (forall v :: v in ResistancePool(f, price, atr) && v !in sr.resistance ==>
                  forall w :: w in sr.resistance ==> w < v)
  {
  }

  /** The support half of the source's method: append the candidates, then round, de-duplicate, sort and filter. */
  method SupportLevels(low: Option<real>, last: Row, price: real, atr: Option<real>) returns (support: seq<real>)
    ensures support == Below(SortedSet(RoundPositive(SupportCandidates(low, last, price, atr))), price)
  {
    var supportLevels := [low];
    if last.bbl.Some? {
      supportLevels := supportLevels + [last.bbl];
    }
    if Lt(last.sma20, Some(price)) {
      supportLevels := supportLevels + [last.sma20];
    }
    if Lt(last.sma60, Some(price)) {
      supportLevels := supportLevels + [last.sma60];
    }
    supportLevels := supportLevels + [Sub(Some(price), Scale(1.5, atr))];
    supportLevels := supportLevels + [Sub(Some(price), Scale(3.0, atr))];
    assert supportLevels == SupportCandidates(low, last, price, atr);
    support := Below(SortedSet(RoundPositive(supportLevels)), price);
  }

  /** The resistance half of the source's method, the mirror image of SupportLevels. */
  method ResistanceLevels(high: Option<real>, last: Row, price: real, atr: Option<real>) returns (resistance: seq<real>)
    ensures resistance == Above(SortedSet(RoundPositive(ResistanceCandidates(high, last, price, atr))), price)
  {
    var resistanceLevels := [high];
    if last.bbu.Some? {
      resistanceLevels := resistanceLevels + [last.bbu];
    }
    if Gt(last.sma5, Some(price)) {
      resistanceLevels := resistanceLevels + [last.sma5];
    }
    if Gt(last.sma10, Some(price)) {
      resistanceLevels := resistanceLevels + [last.sma10];
    }
    if Gt(last.sma20, Some(price)) {
      resistanceLevels := resistanceLevels + [last.sma20];
    }
    resistanceLevels := resistanceLevels + [Add(Some(price), Scale(1.5, atr))];
    resistanceLevels := resistanceLevels + [Add(Some(price), Scale(3.0, atr))];
    assert resistanceLevels == ResistanceCandidates(high, last, price, atr);
    resistance := Above(SortedSet(RoundPositive(resistanceLevels)), price);
  }

  /** The source's method: the two level lists from the last 20 rows, support keeping its last three, resistance its first three. */
  method CalculateSupportResistance(f: Frame, price: real, atr: Option<real>) returns (sr: SupportResistance)
    requires price > 0.0
    ensures sr == SupportResistanceOf(f, price, atr)
  {
    if |f.rows| < 20 {
      return SupportResistance([], [], None);
    }
    var high := SeriesMax(Tail(Highs(f), 20));
    var low := SeriesMin(Tail(Lows(f), 20));
    var last := f.rows[|f.rows| - 1];
    var support := SupportLevels(low, last, price, atr);
    var resistance := ResistanceLevels(high, last, price, atr);
    sr := SupportResistance(LastThree(support), FirstThree(resistance), atr);
    assert sr == SupportResistance(LastThree(SupportPool(f, price, atr)), FirstThree(ResistancePool(f, price, atr)), atr);
  }

  // ---------------------------------------------------------------------------
  // _predict_trend_probability
  // ---------------------------------------------------------------------------

  datatype Scores = Scores(up: real, down: real, sideways: real)

  datatype TrendProbability = TrendProbability(up: real, down: real, sideways: real)

  /** Each factor adds a non-negative amount to exactly one of the three scores. */
  predicate AddsToOne(before: Scores, after: Scores) {
    && after.up >= before.up && after.down >= before.down && after.sideways >= before.sideways
    && ((after.up == before.up && after.down == before.down) ||
        (after.up == before.up && after.sideways == before.sideways) ||
        (after.down == before.down && after.sideways == before.sideways))
  }

  /** Factor 1: the fused signal score, (score - 50) / 2 to the side it leans to, 0.5 to sideways at exactly 50. */
  function SignalFactor(s: Scores, sig: Option<SignalFusion.SignalData>): (r: Scores)
    ensures AddsToOne(s, r)
  {
    if sig.Some? then
      var score := sig.value.score;
      if score > 50.0 then s.(up := s.up + (score - 50.0) * 0.5)
      else if score < 50.0 then s.(down := s.down + (50.0 - score) * 0.5)
      else s.(sideways := s.sideways + 0.5)
    else s
  }

  /** Factor 2: close > SMA_5 > SMA_20 adds 20 up, the reverse 20 down, anything else 20 sideways. */
  function MaFactor(s: Scores, latest: Row): (r: Scores)
    ensures AddsToOne(s, r)
  {
    if latest.sma5.Some? && latest.sma20.Some? && latest.close.Some? then
      var c, m5, m20 := latest.close.value, latest.sma5.value, latest.sma20.value;
      if c > m5 > m20 then s.(up := s.up + 20.0)
      else if c < m5 < m20 then s.(down := s.down + 20.0)
      else s.(sideways := s.sideways + 20.0)
    else s
  }

  /** Factor 3: the mean of the last three returns beyond +-0.5% adds 15 to that side; otherwise (NaN included) 15 sideways. */
  function MomentumFactor(s: Scores, rowCount: nat, avgChange: Option<real>): (r: Scores)
    ensures AddsToOne(s, r)
  {
    if rowCount >= 3 then
      if Gt(avgChange, Some(0.005)) then s.(up := s.up + 15.0)
      else if Lt(avgChange, Some(-0.005)) then s.(down := s.down + 15.0)
      else s.(sideways := s.sideways + 15.0)
    else s
  }

  /** Factor 4: RSI_14 below 40 adds 10 up, above 60 adds 10 down, otherwise 10 sideways. */
  function RsiFactor(s: Scores, rsi: Option<real>): (r: Scores)
    ensures AddsToOne(s, r)
  {
    if rsi.Some? then
      if rsi.value < 40.0 then s.(up := s.up + 10.0)
      else if rsi.value > 60.0 then s.(down := s.down + 10.0)
      else s.(sideways := s.sideways + 10.0)
    else s
  }

  /** Factor 5: with K and D present, K below 20 adds 5 up, above 80 adds 5 down, otherwise 5 sideways. */
  function KdjFactor(s: Scores, k: Option<real>, d: Option<real>): (r: Scores)
    ensures AddsToOne(s, r)
  {
    if k.Some? && d.Some? then
      if k.value < 20.0 then s.(up := s.up + 5.0)
      else if k.value > 80.0 then s.(down := s.down + 5.0)
      else s.(sideways := s.sideways + 5.0)
    else s
  }

  /** The five factors accumulated from up = 0, down = 0, sideways = 10. */
  function TrendScores(rowCount: nat, latest: Row, sig: Option<SignalFusion.SignalData>,
                       avgChange: Option<real>): (s: Scores)
    ensures s.up >= 0.0 && s.down >= 0.0 && s.sideways >= 10.0
  {
    var s1 := SignalFactor(Scores(0.0, 0.0, 10.0), sig);
    var s2 := MaFactor(s1, latest);
    var s3 := MomentumFactor(s2, rowCount, avgChange);
    var s4 := RsiFactor(s3, latest.rsi14);
    KdjFactor(s4, latest.kdjK, latest.kdjD)
  }

  /** The unrounded probabilities: each score over the total. */
  function Fractions(s: Scores): (p: Scores)
    requires s.up >= 0.0 && s.down >= 0.0 && s.sideways > 0.0
    ensures p.up + p.down + p.sideways == 1.0
    ensures 0.0 <= p.up <= 1.0 && 0.0 <= p.down <= 1.0 && 0.0 < p.sideways <= 1.0
  {
    var total := s.up + s.down + s.sideways;
    FractionFacts(s.up, s.down, s.sideways);
    Scores(s.up / total, s.down / total, s.sideways / total)
  }

  lemma FractionFacts(u: real, d: real, w: real)
    requires u >= 0.0 && d >= 0.0 && w > 0.0
    ensures var t := u + d + w;
            && u / t + d / t + w / t == 1.0
            && 0.0 <= u / t <= 1.0 && 0.0 <= d / t <= 1.0 && 0.0 < w / t <= 1.0
  {
    var t := u + d + w;
    assert u / t + d / t + w / t == (u + d + w) / t;
    assert (u / t) * t == u && (d / t) * t == d && (w / t) * t == w;
  }

  /** Percentages rounded to one decimal. */
  function Normalise(s: Scores): (p: TrendProbability)
    requires s.up >= 0.0 && s.down >= 0.0 && s.sideways > 0.0
    ensures 0.0 <= p.up <= 100.05 && 0.0 <= p.down <= 100.05 && 0.0 <= p.sideways <= 100.05
  {
    var f := Fractions(s);
    TrendProbability(Round1(f.up * 100.0), Round1(f.down * 100.0), Round1(f.sideways * 100.0))
  }

  /** Three one-decimal roundings of percentages summing to 100 sum to 99.9, 100 or 100.1. */
  lemma RoundedPercentSum(s: Scores)
    requires s.up >= 0.0 && s.down >= 0.0 && s.sideways > 0.0
    ensures var p := Normalise(s);
            99.9 <= p.up + p.down + p.sideways <= 100.1
  {
    var f := Fractions(s);
    var a, b, c := f.up * 100.0, f.down * 100.0, f.sideways * 100.0;
    assert a + b + c == 100.0;
    var k := Tenths(a) + Tenths(b) + Tenths(c);
    assert 1000.0 - 1.5 <= k as real <= 1000.0 + 1.5;
    assert 999 <= k <= 1001;
    assert Round1(a) + Round1(b) + Round1(c) == k as real / 10.0;
  }

  /** _predict_trend_probability. */
  function TrendProbabilityOf(rowCount: nat, latest: Row, sig: Option<SignalFusion.SignalData>,
                              avgChange: Option<real>): TrendProbability
  {
    Normalise(TrendScores(rowCount, latest, sig, avgChange))
  }

  /** Every percentage is non-negative and the three add up to 100 within one rounding step. */
  lemma TrendProbabilityBounds(rowCount: nat, latest: Row, sig: Option<SignalFusion.SignalData>,
                               avgChange: Option<real>)
    ensures var tp := TrendProbabilityOf(rowCount, latest, sig, avgChange);
            && 0.0 <= tp.up <= 100.05 && 0.0 <= tp.down <= 100.05 && 0.0 <= tp.sideways <= 100.05
            && 99.9 <= tp.up + tp.down + tp.sideways <= 100.1
  {
    RoundedPercentSum(TrendScores(rowCount, latest, sig, avgChange));
  }

  /** Factors 4 and 5 of the source's method, RSI then KDJ, on the running scores. */
  method AddOscillatorFactors(up0: real, down0: real, sideways0: real, latest: Row)
    returns (up: real, down: real, sideways: real)
    ensures Scores(up, down, sideways) ==
              KdjFactor(RsiFactor(Scores(up0, down0, sideways0), latest.rsi14), latest.kdjK, latest.kdjD)
  {
    up, down, sideways := up0, down0, sideways0;
    if latest.rsi14.Some? {
      if latest.rsi14.value < 40.0 {
        up := up + 10.0;
      } else if latest.rsi14.value > 60.0 {
        down := down + 10.0;
      } else {
        sideways := sideways + 10.0;
      }
    }
    if latest.kdjK.Some? && latest.kdjD.Some? {
      if latest.kdjK.value < 20.0 {
        up := up + 5.0;
      } else if latest.kdjK.value > 80.0 {
        down := down + 5.0;
      } else {
        sideways := sideways + 5.0;
      }
    }
  }

  /** Factors 1 to 3 of the source's method, signal score, moving averages and momentum, on the running scores. */
  method AddTrendFactors(up0: real, down0: real, sideways0: real, rowCount: nat, latest: Row,
                         sig: Option<SignalFusion.SignalData>, avgChange: Option<real>)
    returns (up: real, down: real, sideways: real)
    ensures Scores(up, down, sideways) ==
              MomentumFactor(MaFactor(SignalFactor(Scores(up0, down0, sideways0), sig), latest), rowCount, avgChange)
  {
    up, down, sideways := up0, down0, sideways0;
    if sig.Some? {
      var score := sig.value.score;
      if score > 50.0 {
        up := up + (score - 50.0) * 0.5;
      } else if score < 50.0 {
        down := down + (50.0 - score) * 0.5;
      } else {
        sideways := sideways + 0.5;
      }
    }
    ghost var s1 := Scores(up, down, sideways);
    assert s1 == SignalFactor(Scores(up0, down0, sideways0), sig);
    if latest.sma5.Some? && latest.sma20.Some? && latest.close.Some? {
      var c, m5, m20 := latest.close.value, latest.sma5.value, latest.sma20.value;
      if c > m5 > m20 {
        up := up + 20.0;
      } else if c < m5 < m20 {
        down := down + 20.0;
      } else {
        sideways := sideways + 20.0;
      }
    }
    ghost var s2 := Scores(up, down, sideways);
    assert s2 == MaFactor(s1, latest);
    if rowCount >= 3 {
      if Gt(avgChange, Some(0.005)) {
        up := up + 15.0;
      } else if Lt(avgChange, Some(-0.005)) {
        down := down + 15.0;
      } else {
        sideways := sideways + 15.0;
      }
    }
  }

  /** The source's method: accumulate the three scores factor by factor from 0 / 0 / 10, then normalise. */
  method PredictTrendProbability(rowCount: nat, latest: Row, sig: Option<SignalFusion.SignalData>,
                                 avgChange: Option<real>) returns (tp: TrendProbability)
    ensures tp == TrendProbabilityOf(rowCount, latest, sig, avgChange)
  {
    var up, down, sideways := 0.0, 0.0, 10.0;
    up, down, sideways := AddTrendFactors(up, down, sideways, rowCount, latest, sig, avgChange);
    up, down, sideways := AddOscillatorFactors(up, down, sideways, latest);
    tp := Normalise(Scores(up, down, sideways));
  }

  // ---------------------------------------------------------------------------
  // _predict_single_day
  // ---------------------------------------------------------------------------

  datatype Trend = Rising | Falling | Sideways
  {
    function Label(): string {
      match this
      case Rising => "上涨"
      case Falling => "下跌"
      case Sideways => "横盘"
    }
  }

  datatype ConfidenceLevel = LowConfidence | MediumConfidence | HighConfidence
  {
    function Label(): string {
      match this
      case LowConfidence => "low"
      case MediumConfidence => "medium"
      case HighConfidence => "high"
    }
  }

  /** np.sqrt(day) for the three horizons, as the float64 values numpy returns. */
  function SqrtDay(day: nat): (r: real)
    requires 1 <= day <= 3
    ensures r >= 1.0
  {
    if day == 1 then 1.0 else if day == 2 then 1.4142135623730951 else 1.7320508075688772
  }

  /** The band before clamping: target from the expected change, high/low 1.5 sqrt(day) volatilities away. */
  datatype Band = Band(target: real, high: real, low: real)

  function RawBand(price: real, upProb: real, downProb: real, dv: real, day: nat): Band
    requires 1 <= day <= 3
  {
    var expectedChange := (upProb - downProb) * dv * day as real;
    var target := price * (1.0 + expectedChange);
    var k := 1.5 * dv * SqrtDay(day);
    Band(target, target * (1.0 + k), target * (1.0 - k))
  }

  /** With a non-negative volatility and target, the raw band brackets the target. */
  lemma RawBandBrackets(price: real, upProb: real, downProb: real, dv: real, day: nat)
    requires 1 <= day <= 3 && dv >= 0.0
    requires RawBand(price, upProb, downProb, dv, day).target >= 0.0
    ensures var b := RawBand(price, upProb, downProb, dv, day);
            b.low <= b.target <= b.high
  {
    var b := RawBand(price, upProb, downProb, dv, day);
    var k := 1.5 * dv * SqrtDay(day);
    assert k >= 0.0;
    assert b.target * k >= 0.0;
    assert b.high == b.target + b.target * k;
    assert b.low == b.target - b.target * k;
  }

  /** The target moves away from the price in the direction of up - down when volatility is positive. */
  lemma TargetFollowsProbabilities(price: real, upProb: real, downProb: real, dv: real, day: nat)
    requires 1 <= day <= 3 && dv > 0.0 && price > 0.0
    ensures var t := RawBand(price, upProb, downProb, dv, day).target;
            (t > price <==> upProb > downProb) && (t < price <==> upProb < downProb)
  {
    var e := (upProb - downProb) * dv * day as real;
    var t := RawBand(price, upProb, downProb, dv, day).target;
    assert t - price == price * e;
    var pd := dv * day as real;
    assert pd > 0.0;
    assert e == (upProb - downProb) * pd;
    if upProb > downProb {
      assert e > 0.0;
      assert price * e > 0.0;
    } else if upProb < downProb {
      assert e < 0.0;
      assert price * e < 0.0;
    } else {
      assert e == 0.0;
    }
  }

  /** The clamps: high capped at 1.01 x the nearest resistance, low floored at 0.99 x the nearest support. */
  function Clamp(b: Band, support: seq<real>, resistance: seq<real>): (c: Band)
    ensures c.target == b.target
    ensures |resistance| > 0 && b.high > resistance[0] ==> c.high <= resistance[0] * 1.01
    ensures !(|resistance| > 0 && b.high > resistance[0]) ==> c.high == b.high
    ensures |support| > 0 && b.low < support[|support| - 1] ==> c.low >= support[|support| - 1] * 0.99
    ensures !(|support| > 0 && b.low < support[|support| - 1]) ==> c.low == b.low
    ensures c.high <= b.high && c.low >= b.low
  {
    var high :=
      if |resistance| > 0 && b.high > resistance[0] then
        (if b.high <= resistance[0] * 1.01 then b.high else resistance[0] * 1.01)
      else b.high;
    var low :=
      if |support| > 0 && b.low < support[|support| - 1] then
        (if b.low >= support[|support| - 1] * 0.99 then b.low else support[|support| - 1] * 0.99)
      else b.low;
    Band(b.target, high, low)
  }

  datatype DayPrediction = DayPrediction(
    high: Option<real>, low: Option<real>, target: Option<real>,
    trend: Trend, confidence: ConfidenceLevel, confidenceScore: int,
    trendProbability: TrendProbability, volatility: Option<real>)

  /**
   * _predict_single_day. `returnsVolatility` is the daily volatility the source
   * computes from the last 20 returns; below 20 rows it uses 0.02. A NaN
   * volatility makes every price NaN.
   */
  function PredictSingleDay(rowCount: nat, price: real, day: nat, sr: SupportResistance,
                            tp: TrendProbability, returnsVolatility: Option<real>): (d: DayPrediction)
    requires 1 <= day <= 3
    requires returnsVolatility.Some? ==> returnsVolatility.value >= 0.0
    ensures d.trend == Rising <==> tp.up / 100.0 > 50.0
    ensures d.trend == Falling <==> tp.up / 100.0 <= 50.0 && tp.down / 100.0 > 50.0
    ensures d.trend == Sideways ==> d.confidenceScore == Trunc(tp.sideways / 100.0)
    ensures d.confidence == HighConfidence <==> d.confidenceScore >= 60
    ensures d.confidence == LowConfidence <==> d.confidenceScore < 45
    ensures d.target.Some? <==> rowCount < 20 || returnsVolatility.Some?
  {
    var dv := if rowCount >= 20 then returnsVolatility else Some(0.02);
    var upProb, downProb, sidewaysProb := tp.up / 100.0, tp.down / 100.0, tp.sideways / 100.0;
    var trend := if upProb > 50.0 then Rising else if downProb > 50.0 then Falling else Sideways;
    var score := Trunc(if trend == Rising then upProb else if trend == Falling then downProb else sidewaysProb);
    var confidence :=
      if score >= 60 then HighConfidence else if score >= 45 then MediumConfidence else LowConfidence;
    if dv.Some? then
      var b := Clamp(RawBand(price, upProb, downProb, dv.value, day), sr.support, sr.resistance);
      DayPrediction(Some(Round2(b.high)), Some(Round2(b.low)), Some(Round2(b.target)),
                    trend, confidence, score, tp, Some(Round2(dv.value * 100.0)))
    else
      DayPrediction(None, None, None, trend, confidence, score, tp, None)
  }

  /**
   * Because the percentages are divided by 100 before being compared with 50,
   * a trend probability in the normal range always yields 横盘 with confidence
   * score 0 or 1, hence confidence "low".
   */
  lemma AlwaysSidewaysLow(rowCount: nat, price: real, day: nat, sr: SupportResistance,
                          tp: TrendProbability, returnsVolatility: Option<real>)
    requires 1 <= day <= 3
    requires returnsVolatility.Some? ==> returnsVolatility.value >= 0.0
    requires 0.0 <= tp.up <= 5000.0 && 0.0 <= tp.down <= 5000.0 && 0.0 <= tp.sideways <= 199.0
    ensures var d := PredictSingleDay(rowCount, price, day, sr, tp, returnsVolatility);
            d.trend == Sideways && 0 <= d.confidenceScore <= 1 && d.confidence == LowConfidence
  {
    var d := PredictSingleDay(rowCount, price, day, sr, tp, returnsVolatility);
    assert d.trend == Sideways;
    assert 0.0 <= tp.sideways / 100.0 < 2.0;
  }

  // ---------------------------------------------------------------------------
  // predict_price and _empty_prediction
  // ---------------------------------------------------------------------------

  datatype PricePrediction = PricePrediction(
    predictions: map<string, DayPrediction>, supportResistance: SupportResistance,
    trendProbability: TrendProbability, currentPrice: Option<real>)

  /** _empty_prediction. */
  const EmptyPrediction: PricePrediction :=
    PricePrediction(map[], SupportResistance([], [], None), TrendProbability(33.0, 33.0, 34.0), None)

  /** The dictionary key of one horizon. */
  function HorizonKey(day: nat): string
    requires 1 <= day <= 3
  {
    if day == 1 then "prediction_1d" else if day == 2 then "prediction_2d" else "prediction_3d"
  }

  /** The floating-point inputs the predictor takes from the frame. */
  datatype Numerics = Numerics(atr: Option<real>, avgChange: Option<real>, returnsVolatility: Option<real>)

  /** The predictions for horizons 1..n, keyed prediction_<day>d. */
  function Horizons(rowCount: nat, price: real, sr: SupportResistance, tp: TrendProbability,
                    returnsVolatility: Option<real>, n: nat): map<string, DayPrediction>
    requires n <= 3
    requires returnsVolatility.Some? ==> returnsVolatility.value >= 0.0
  {
    if n == 0 then map[]
    else Horizons(rowCount, price, sr, tp, returnsVolatility, n - 1)[HorizonKey(n) :=
           PredictSingleDay(rowCount, price, n, sr, tp, returnsVolatility)]
  }

  /** The three horizon keys are distinct. */
  lemma HorizonKeysDistinct()
    ensures HorizonKey(1) != HorizonKey(2) && HorizonKey(1) != HorizonKey(3) && HorizonKey(2) != HorizonKey(3)
  {
    assert HorizonKey(1)[11] == '1' && HorizonKey(2)[11] == '2' && HorizonKey(3)[11] == '3';
  }

  /** The map for horizons 1..3, entry by entry. */
  lemma HorizonsShape(rowCount: nat, price: real, sr: SupportResistance, tp: TrendProbability,
                      returnsVolatility: Option<real>)
    requires returnsVolatility.Some? ==> returnsVolatility.value >= 0.0
    ensures var m := Horizons(rowCount, price, sr, tp, returnsVolatility, 3);
            && m.Keys == {HorizonKey(1), HorizonKey(2), HorizonKey(3)}
            && m[HorizonKey(1)] == PredictSingleDay(rowCount, price, 1, sr, tp, returnsVolatility)
            && m[HorizonKey(2)] == PredictSingleDay(rowCount, price, 2, sr, tp, returnsVolatility)
            && m[HorizonKey(3)] == PredictSingleDay(rowCount, price, 3, sr, tp, returnsVolatility)
  {
    HorizonKeysDistinct();
    var m1 := Horizons(rowCount, price, sr, tp, returnsVolatility, 1);
    var m2 := Horizons(rowCount, price, sr, tp, returnsVolatility, 2);
    assert Horizons(rowCount, price, sr, tp, returnsVolatility, 0) == map[];
    assert m1.Keys == {HorizonKey(1)};
    assert m2 == m1[HorizonKey(2) := PredictSingleDay(rowCount, price, 2, sr, tp, returnsVolatility)];
  }

  /**
   * The three horizons are all present, each is the single-day prediction for
   * its day, and with percentages in the normal range every one is 横盘 / low.
   */
  lemma HorizonsFacts(rowCount: nat, price: real, sr: SupportResistance, tp: TrendProbability,
                      returnsVolatility: Option<real>)
    requires returnsVolatility.Some? ==> returnsVolatility.value >= 0.0
    requires 0.0 <= tp.up <= 100.1 && 0.0 <= tp.down <= 100.1 && 0.0 <= tp.sideways <= 100.1
    ensures var m := Horizons(rowCount, price, sr, tp, returnsVolatility, 3);
            && m.Keys == {"prediction_1d", "prediction_2d", "prediction_3d"}
            && (forall day :: 1 <= day <= 3 ==>
                  m[HorizonKey(day)] == PredictSingleDay(rowCount, price, day, sr, tp, returnsVolatility))
            && (forall k :: k in m ==> m[k].trend == Sideways && m[k].confidence == LowConfidence)
  {
    var d1 := PredictSingleDay(rowCount, price, 1, sr, tp, returnsVolatility);
    var d2 := PredictSingleDay(rowCount, price, 2, sr, tp, returnsVolatility);
    var d3 := PredictSingleDay(rowCount, price, 3, sr, tp, returnsVolatility);
    HorizonsShape(rowCount, price, sr, tp, returnsVolatility);
    assert HorizonKey(1) == "prediction_1d" && HorizonKey(2) == "prediction_2d" && HorizonKey(3) == "prediction_3d";
    AlwaysSidewaysLow(rowCount, price, 1, sr, tp, returnsVolatility);
    AlwaysSidewaysLow(rowCount, price, 2, sr, tp, returnsVolatility);
    AlwaysSidewaysLow(rowCount, price, 3, sr, tp, returnsVolatility);
  }

  /** The horizon loop of predict_price: one prediction per day in [1, 2, 3]. */
  method PredictHorizons(rowCount: nat, price: real, sr: SupportResistance, tp: TrendProbability,
                         returnsVolatility: Option<real>)
    returns (predictions: map<string, DayPrediction>)
    requires returnsVolatility.Some? ==> returnsVolatility.value >= 0.0
    ensures predictions == Horizons(rowCount, price, sr, tp, returnsVolatility, 3)
  {
    predictions := map[];
    for day := 1 to 4
      invariant predictions == Horizons(rowCount, price, sr, tp, returnsVolatility, day - 1)
    {
      var prediction := PredictSingleDay(rowCount, price, day, sr, tp, returnsVolatility);
      predictions := predictions[HorizonKey(day) := prediction];
    }
  }

  /** predict_price: the empty bundle for a missing or non-positive close, otherwise the three horizons. */
  method PredictPrice(f: Frame, latest: Row, sig: Option<SignalFusion.SignalData>, num: Numerics)
    returns (p: PricePrediction)
    requires num.returnsVolatility.Some? ==> num.returnsVolatility.value >= 0.0
    ensures latest.close.None? || latest.close.value <= 0.0 ==> p == EmptyPrediction
    ensures latest.close.Some? && latest.close.value > 0.0 ==>
              var price := latest.close.value;
              && p.currentPrice == latest.close
              && p.supportResistance == SupportResistanceOf(f, price, num.atr)
              && p.trendProbability == TrendProbabilityOf(|f.rows|, latest, sig, num.avgChange)
              && p.predictions.Keys == {"prediction_1d", "prediction_2d", "prediction_3d"}
              && (forall day :: 1 <= day <= 3 ==>
                    p.predictions[HorizonKey(day)] ==
                      PredictSingleDay(|f.rows|, price, day, p.supportResistance, p.trendProbability,
                                       num.returnsVolatility))
              && (forall k :: k in p.predictions ==>
                    p.predictions[k].trend == Sideways && p.predictions[k].confidence == LowConfidence)
  {
    if latest.close.None? || latest.close.value <= 0.0 {
      return EmptyPrediction;
    }
    var price := latest.close.value;
    var sr := CalculateSupportResistance(f, price, num.atr);
    var tp := PredictTrendProbability(|f.rows|, latest, sig, num.avgChange);
    TrendProbabilityBounds(|f.rows|, latest, sig, num.avgChange);
    var predictions := PredictHorizons(|f.rows|, price, sr, tp, num.returnsVolatility);
    HorizonsFacts(|f.rows|, price, sr, tp, num.returnsVolatility);
    p := PricePrediction(predictions, sr, tp, latest.close);
  }
}
