/**
 The tables the MA60 deviation script works on, as values.

 A daily price table has one row per trading day: a date (already parsed to a
 day number) and a closing level. The engine adds two float columns, `ma60`
 and `deviation`; a float cell is modelled by `Cell`, whose arithmetic is exact
 over `real` and which keeps the two non-finite outcomes that pandas can
 produce here: NaN (pandas' marker for a missing value) and the infinities of a
 division by zero.
 */
module Frames {

  /** One row of the fetched daily table: columns `date` and `close`. */
  datatype Row = Row(date: int, close: real)

  /** A cell of a float64 column. */
  datatype Cell = NaN | Num(value: real) | PosInf | NegInf

  /** One row of the table the engine returns: the input columns plus `ma60` and `deviation`. */
  datatype Record = Record(date: int, close: real, ma60: Cell, deviation: Cell)

  /** The `date` and `close` columns of a record. */
  function Base(r: Record): Row
  {
    Row(r.date, r.close)
  }

  /** The `date` and `close` columns of a whole output table, row by row. */
  function Rows(recs: seq<Record>): (rows: seq<Row>)
    ensures |rows| == |recs|
    ensures forall i :: 0 <= i < |recs| ==> rows[i] == Base(recs[i])
  {
    seq(|recs|, i requires 0 <= i < |recs| => Base(recs[i]))
  }

  /** Rows in ascending date order (ties allowed). */
  predicate SortedByDate(rows: seq<Row>)
  {
    forall i, j :: 0 <= i < j < |rows| ==> rows[i].date <= rows[j].date
  }

  /** The dates of a table whose `date` and `close` columns are in date order. */
  lemma SortedRecordDates(recs: seq<Record>)
    requires SortedByDate(Rows(recs))
    ensures forall i, j :: 0 <= i < j < |recs| ==> recs[i].date <= recs[j].date
  {
    forall i, j | 0 <= i < j < |recs| ensures recs[i].date <= recs[j].date {
      assert Rows(recs)[i].date <= Rows(recs)[j].date;
    }
  }

  /** No two rows share a date. */
  predicate DistinctDates(rows: seq<Row>)
  {
    forall i, j :: 0 <= i < j < |rows| ==> rows[i].date != rows[j].date
  }

  /** The sum of the `close` column, added from the first row to the last. */
  function CloseSum(rows: seq<Row>): real
  {
    if rows == [] then 0.0 else CloseSum(rows[..|rows| - 1]) + rows[|rows| - 1].close
  }

  /** Appending a row adds its close to the sum. */
  lemma CloseSumSnoc(rows: seq<Row>, lo: nat, hi: nat)
    requires lo <= hi < |rows|
    ensures CloseSum(rows[lo..hi + 1]) == CloseSum(rows[lo..hi]) + rows[hi].close
  {
    assert rows[lo..hi + 1][..hi - lo] == rows[lo..hi];
  }

  /** Dropping the first row takes its close off the sum. */
  lemma {:induction false} CloseSumCons(rows: seq<Row>)
    requires rows != []
    ensures CloseSum(rows) == rows[0].close + CloseSum(rows[1..])
  {
    if |rows| > 1 {
      var init := rows[..|rows| - 1];
      CloseSumCons(init);
      assert init[1..] == rows[1..][..|rows| - 2];
    }
  }

  /** A sum of closes that all lie in [lo, hi] lies between |rows| * lo and |rows| * hi. */
  lemma {:induction false} CloseSumBounds(rows: seq<Row>, lo: real, hi: real)
    requires forall k :: 0 <= k < |rows| ==> lo <= rows[k].close <= hi
    ensures |rows| as real * lo <= CloseSum(rows) <= |rows| as real * hi
  {
    if rows != [] {
      var init := rows[..|rows| - 1];
      CloseSumBounds(init, lo, hi);
    }
  }
}
