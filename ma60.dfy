/**
 The MA60 deviation engine, `calculate_ma60_and_deviation`.

 The engine orders the fetched table by date, then adds two columns: `ma60`,
 the mean of `close` over the 60 rows ending at each row (rows, not calendar
 days; no value until 60 rows of history exist), and `deviation`, the ratio
 (close - ma60) / ma60.

 `Augment` states the two columns of a table that is already in order;
 `CalculateMa60AndDeviation` computes them with a running window sum, and the
 lemmas below say what the columns mean.
 */
module Ma60 {
  import opened Frames
  import opened Ordering

  /** The number of rows the moving average spans, and the fewest it needs. */
  const Window: nat := 60

  /** `close.rolling(window=60, min_periods=60).mean()` at sorted position `i`. */
  function RollingMean(rows: seq<Row>, i: nat): (m: Cell)
    requires i < |rows|
    ensures m == NaN <==> i + 1 < Window
    ensures m != NaN ==> m.Num? && m.value * Window as real == CloseSum(rows[i + 1 - Window..i + 1])
  {
    if i + 1 < Window then NaN
    else Num(CloseSum(rows[i + 1 - Window..i + 1]) / Window as real)
  }

  /**
   (close - ma60) / ma60 as a float64 division: a missing average gives a
   missing deviation, and a zero average gives an infinity, or NaN when the
   close is zero too.
   */
  function DeviationOf(close: real, ma: Cell): (d: Cell)
    ensures ma == NaN ==> d == NaN
    ensures ma.Num? && ma.value != 0.0 ==> d.Num? && ma.value * (1.0 + d.value) == close
    ensures ma.Num? && ma.value > 0.0 ==>
      d.Num? && (d.value > 0.0 <==> close > ma.value)
             && (d.value == 0.0 <==> close == ma.value)
             && (d.value < 0.0 <==> close < ma.value)
    ensures ma.Num? && ma.value < 0.0 ==>
      d.Num? && (d.value > 0.0 <==> close < ma.value)
             && (d.value < 0.0 <==> close > ma.value)
    ensures ma == Num(0.0) ==>
      (d == PosInf <==> close > 0.0) && (d == NegInf <==> close < 0.0) && (d == NaN <==> close == 0.0)
  {
    match ma
    case NaN => NaN
    case PosInf => NaN  // (close - inf) / inf
    case NegInf => NaN  // (close + inf) / -inf
    case Num(m) =>
      if m != 0.0 then Num((close - m) / m)
      else if close > 0.0 then PosInf
      else if close < 0.0 then NegInf
      else NaN
  }

  /** The table `rows`, taken in the order given, with its `ma60` and `deviation` columns. */
  function Augment(rows: seq<Row>): (recs: seq<Record>)
    ensures Rows(recs) == rows
    ensures forall i :: 0 <= i < |recs| && i < Window - 1 ==> recs[i].ma60 == NaN && recs[i].deviation == NaN
    ensures forall i :: Window - 1 <= i < |recs| ==> recs[i].ma60.Num?
    ensures forall i :: 0 <= i < |recs| ==>
      (recs[i].deviation == NaN <==> recs[i].ma60 == NaN || (recs[i].ma60 == Num(0.0) && recs[i].close == 0.0))
  {
    seq(|rows|, i requires 0 <= i < |rows| => RecordAt(rows, i))
  }

  /** Row `i` of the table with its two new cells. */
  function RecordAt(rows: seq<Row>, i: nat): Record
    requires i < |rows|
  {
    var m := RollingMean(rows, i);
    Record(rows[i].date, rows[i].close, m, DeviationOf(rows[i].close, m))
  }

  /**
   What `calculate_ma60_and_deviation` may return for `table`: the same rows,
   reordered by ascending date, with the columns `Augment` gives them in that
   order. Rows sharing a date may come in either order.
   */
  predicate EngineOutput(table: seq<Row>, frame: seq<Record>)
  {
    && |frame| == |table|
    && SortedByDate(Rows(frame))
    && multiset(Rows(frame)) == multiset(table)
    && frame == Augment(Rows(frame))
  }

  /** The first row of the table the running sum still covers after `i` rows. */
  function WindowStart(i: nat): nat
  {
    if i <= Window then 0 else i - Window
  }

  /** Sorts the table by date (line 44), then adds `ma60` and `deviation` (lines 46 and 48). */
  method CalculateMa60AndDeviation(table: seq<Row>) returns (frame: seq<Record>)
    ensures EngineOutput(table, frame)
  {
    var sorted := SortByDate(table);
    frame := AddColumns(sorted);
  }

  /** Adds `ma60` and `deviation` to a table in the order given, keeping the sum of the last 60 closes. */
  method AddColumns(rows: seq<Row>) returns (frame: seq<Record>)
    ensures frame == Augment(rows)
  {
    frame := [];
    var i, total := 0, 0.0;
    while i < |rows|
      invariant i <= |rows|
      invariant total == CloseSum(rows[WindowStart(i)..i])
      invariant |frame| == i
      invariant forall k :: 0 <= k < i ==> frame[k] == RecordAt(rows, k)
    {
      WindowSumStep(rows, i);
      total := total + rows[i].close;
      if i >= Window {
        total := total - rows[i - Window].close;
      }
      var ma := if i + 1 < Window then NaN else Num(total / Window as real);
      assert ma == RollingMean(rows, i);
      frame := frame + [Record(rows[i].date, rows[i].close, ma, DeviationOf(rows[i].close, ma))];
      i := i + 1;
    }
  }

  /** How the sum over the current window changes when row `i` is taken in. */
  lemma WindowSumStep(rows: seq<Row>, i: nat)
    requires i < |rows|
    ensures CloseSum(rows[WindowStart(i + 1)..i + 1])
         == CloseSum(rows[WindowStart(i)..i]) + rows[i].close - (if i >= Window then rows[i - Window].close else 0.0)
  {
    CloseSumSnoc(rows, WindowStart(i), i);
    if i >= Window {
      CloseSumCons(rows[i - Window..i + 1]);
      assert rows[i - Window..i + 1][1..] == rows[i + 1 - Window..i + 1];
    }
  }

  /**
   The engine as a function, for use in lemmas: it shows that `EngineOutput`
   can be met for every table, taking the order `SortByDate` gives to rows
   that share a date.
   */
  function Compute(table: seq<Row>): (frame: seq<Record>)
    ensures EngineOutput(table, frame)
  {
    Augment(SortByDate(table))
  }

  /** Rows with no 59 predecessors have no average and no deviation; a table under 60 rows has none anywhere. */
  lemma NoAverageWithoutHistory(table: seq<Row>, frame: seq<Record>)
    requires EngineOutput(table, frame)
    requires |table| < Window
    ensures forall i :: 0 <= i < |frame| ==> frame[i].ma60 == NaN && frame[i].deviation == NaN
  {
  }

  /** The average lies between the smallest and the largest close of its 60-row window. */
  lemma Ma60WithinWindow(rows: seq<Row>, i: nat, lo: real, hi: real)
    requires Window - 1 <= i < |rows|
    requires forall k :: i + 1 - Window <= k <= i ==> lo <= rows[k].close <= hi
    ensures Augment(rows)[i].ma60.Num?
    ensures lo <= Augment(rows)[i].ma60.value <= hi
  {
    var w := rows[i + 1 - Window..i + 1];
    CloseSumBounds(w, lo, hi);
  }

  /** Moving one row on adds the entering close and drops the leaving one, each weighted 1/60. */
  lemma Ma60Slides(rows: seq<Row>, i: nat)
    requires Window - 1 <= i && i + 1 < |rows|
    ensures Augment(rows)[i + 1].ma60.value
         == Augment(rows)[i].ma60.value + (rows[i + 1].close - rows[i + 1 - Window].close) / Window as real
  {
    var lo := i + 1 - Window;
    CloseSumSnoc(rows, lo, i + 1);
    CloseSumCons(rows[lo..i + 2]);
    assert rows[lo..i + 2][1..] == rows[lo + 1..i + 2];
  }

  /** On a flat series the average equals the level and the deviation is zero (for a nonzero level). */
  lemma FlatSeries(rows: seq<Row>, c: real, i: nat)
    requires forall k :: 0 <= k < |rows| ==> rows[k].close == c
    requires Window - 1 <= i < |rows|
    ensures Augment(rows)[i].ma60 == Num(c)
    ensures c != 0.0 ==> Augment(rows)[i].deviation == Num(0.0)
  {
    Ma60WithinWindow(rows, i, c, c);
  }

  /**
   With distinct dates the engine's result depends only on the set of rows:
   any two inputs holding the same rows, in any order, give the same table.
   */
  lemma EngineOutputUnique(table1: seq<Row>, frame1: seq<Record>, table2: seq<Row>, frame2: seq<Record>)
    requires multiset(table1) == multiset(table2)
    requires DistinctDates(table1)
    requires EngineOutput(table1, frame1) && EngineOutput(table2, frame2)
    ensures frame1 == frame2
  {
    DistinctDatesOfPermutation(table1, Rows(frame1));
    SortedPermutationUnique(Rows(frame1), Rows(frame2));
  }

  /** A table already in strictly ascending date order keeps its order. */
  lemma SortedTableKeepsOrder(table: seq<Row>, frame: seq<Record>)
    requires SortedByDate(table) && DistinctDates(table)
    requires EngineOutput(table, frame)
    ensures frame == Augment(table)
  {
    SortedPermutationUnique(table, Rows(frame));
  }
}
