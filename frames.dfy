/**
 * Shared vocabulary of the analysis core: one row of the indicator frame, whose
 * cells may be missing (pandas NaN), the frame itself, and the rules Python and
 * pandas apply when such cells are compared, combined or reduced.
 *
 * A missing cell is `None`. Python compares NaN as unordered: every `<`, `<=`,
 * `>` and `>=` with a NaN operand is false, which is what Gt, Lt, Ge and Le say.
 */
module Frames {

  datatype Option<+T> = None | Some(value: T)

  /** One row of the frame: the price columns and every indicator column the core reads. */
  datatype Row = Row(
    close: Option<real>, high: Option<real>, low: Option<real>,
    sma5: Option<real>, sma10: Option<real>, sma20: Option<real>, sma60: Option<real>,
    macd: Option<real>, macds: Option<real>, macdh: Option<real>,
    bbu: Option<real>, bbm: Option<real>, bbl: Option<real>,
    rsi12: Option<real>, rsi14: Option<real>,
    kdjK: Option<real>, kdjD: Option<real>, kdjJ: Option<real>,
    cci14: Option<real>, obv: Option<real>, wr14: Option<real>)

  /** A history in ascending time order; hasHigh/hasLow say whether those columns exist at all. */
  datatype Frame = Frame(rows: seq<Row>, hasHigh: bool, hasLow: bool)

  /** A row in which every cell is missing. */
  const EmptyRow: Row := Row(None, None, None, None, None, None, None, None, None, None,
                             None, None, None, None, None, None, None, None, None, None, None)

  predicate Gt(a: Option<real>, b: Option<real>) { a.Some? && b.Some? && a.value > b.value }
  predicate Lt(a: Option<real>, b: Option<real>) { a.Some? && b.Some? && a.value < b.value }
  predicate Ge(a: Option<real>, b: Option<real>) { a.Some? && b.Some? && a.value >= b.value }
  predicate Le(a: Option<real>, b: Option<real>) { a.Some? && b.Some? && a.value <= b.value }

  /** NaN-propagating arithmetic on cells. */
  function Add(a: Option<real>, b: Option<real>): Option<real> {
    if a.Some? && b.Some? then Some(a.value + b.value) else None
  }
  function Sub(a: Option<real>, b: Option<real>): Option<real> {
    if a.Some? && b.Some? then Some(a.value - b.value) else None
  }
  function Scale(k: real, a: Option<real>): Option<real> {
    if a.Some? then Some(k * a.value) else None
  }

  function Min(a: int, b: int): int { if a <= b then a else b }
  function Max(a: int, b: int): int { if a >= b then a else b }
  function Abs(x: real): real { if x < 0.0 then -x else x }

  /** Column views of a row sequence. */
  function Closes(rows: seq<Row>): (r: seq<Option<real>>)
    ensures |r| == |rows| && forall i :: 0 <= i < |rows| ==> r[i] == rows[i].close
  {
    seq(|rows|, i requires 0 <= i < |rows| => rows[i].close)
  }

  /**
   * pandas `iloc[-n:]`: the last n elements, where n = 0 (`-0`) or n beyond the
   * length selects the whole sequence.
   */
  function Tail<T>(xs: seq<T>, n: nat): (r: seq<T>)
    ensures 0 < n <= |xs| ==> |r| == n && r == xs[|xs| - n..]
    ensures (n == 0 || n >= |xs|) ==> r == xs
  {
    if n == 0 || n >= |xs| then xs else xs[|xs| - n..]
  }

  /**
   * Python's builtin max over a non-empty list: the running maximum starts at the
   * first item and is replaced only by an item that compares greater, so a NaN
   * first item wins and later NaNs are passed over.
   */
  function PyMax(xs: seq<Option<real>>): (m: Option<real>)
    requires |xs| > 0
    ensures m.Some? <==> xs[0].Some?
    ensures m.Some? ==> m in xs
    ensures m.Some? ==> forall i :: 0 <= i < |xs| && xs[i].Some? ==> xs[i].value <= m.value
  {
    if |xs| == 1 then xs[0]
    else
      var m := PyMax(xs[..|xs| - 1]);
      if Gt(xs[|xs| - 1], m) then xs[|xs| - 1] else m
  }

  /** Python's builtin min, the mirror image of PyMax. */
  function PyMin(xs: seq<Option<real>>): (m: Option<real>)
    requires |xs| > 0
    ensures m.Some? <==> xs[0].Some?
    ensures m.Some? ==> m in xs
    ensures m.Some? ==> forall i :: 0 <= i < |xs| && xs[i].Some? ==> m.value <= xs[i].value
  {
    if |xs| == 1 then xs[0]
    else
      var m := PyMin(xs[..|xs| - 1]);
      if Lt(xs[|xs| - 1], m) then xs[|xs| - 1] else m
  }

  /** pandas `Series.max()`: the largest present value, NaN when no value is present. */
  function SeriesMax(xs: seq<Option<real>>): (m: Option<real>)
    ensures m.Some? <==> exists i :: 0 <= i < |xs| && xs[i].Some?
    ensures m.Some? ==> m in xs
    ensures m.Some? ==> forall i :: 0 <= i < |xs| && xs[i].Some? ==> xs[i].value <= m.value
  {
    if |xs| == 0 then None
    else
      var m := SeriesMax(xs[..|xs| - 1]);
      var x := xs[|xs| - 1];
      if x.None? then m
      else if m.None? || x.value > m.value then x
      else m
  }

  /** pandas `Series.min()`: the smallest present value, NaN when no value is present. */
  function SeriesMin(xs: seq<Option<real>>): (m: Option<real>)
    ensures m.Some? <==> exists i :: 0 <= i < |xs| && xs[i].Some?
    ensures m.Some? ==> m in xs
    ensures m.Some? ==> forall i :: 0 <= i < |xs| && xs[i].Some? ==> m.value <= xs[i].value
  {
    if |xs| == 0 then None
    else
      var m := SeriesMin(xs[..|xs| - 1]);
      var x := xs[|xs| - 1];
      if x.None? then m
      else if m.None? || x.value < m.value then x
      else m
  }

  /** Whenever Python's max is a number, so is its min, and it is no larger. */
  lemma {:induction false} PyMinBelowPyMax(xs: seq<Option<real>>)
    requires |xs| > 0 && PyMax(xs).Some?
    ensures PyMin(xs).Some? && PyMin(xs).value <= PyMax(xs).value
  {
    assert xs[0].Some?;
    assert PyMin(xs).value <= xs[0].value <= PyMax(xs).value;
  }
}
