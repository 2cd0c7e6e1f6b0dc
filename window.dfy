/**
 The rows `plot_and_save_deviation` draws: those dated from the configured
 start date up to the latest date of the table, both ends included. Only this
 selection is modelled; the drawing itself is not.
 */
module ChartWindow {
  import opened Frames

  /** `df[date_column].max()` on a non-empty table. */
  function LatestDate(recs: seq<Record>): (m: int)
    requires recs != []
    ensures exists k :: 0 <= k < |recs| && recs[k].date == m
    ensures forall k :: 0 <= k < |recs| ==> recs[k].date <= m
  {
    if |recs| == 1 then recs[0].date
    else
      var rest := LatestDate(recs[1..]);
      if recs[0].date >= rest then recs[0].date else rest
  }

  /** The rows dated in [lo, hi], in table order: the boolean-mask selection. */
  function KeepBetween(recs: seq<Record>, lo: int, hi: int): (w: seq<Record>)
    ensures |w| <= |recs|
    ensures forall k :: 0 <= k < |w| ==> lo <= w[k].date <= hi
  {
    if recs == [] then []
    else (if lo <= recs[0].date <= hi then [recs[0]] else []) + KeepBetween(recs[1..], lo, hi)
  }

  /** A row is selected exactly when the table holds it and it is dated in [lo, hi]. */
  lemma {:induction false} KeepBetweenMembers(recs: seq<Record>, lo: int, hi: int, r: Record)
    ensures r in KeepBetween(recs, lo, hi) <==> r in recs && lo <= r.date <= hi
  {
    if recs != [] {
      KeepBetweenMembers(recs[1..], lo, hi, r);
      assert recs == [recs[0]] + recs[1..];
    }
  }

  /**
   The selection keeps every row dated in [lo, hi] as often as the table holds
   it, and no other row.
   */
  lemma {:induction false} KeepBetweenCounts(recs: seq<Record>, lo: int, hi: int, r: Record)
    ensures multiset(KeepBetween(recs, lo, hi))[r] == if lo <= r.date <= hi then multiset(recs)[r] else 0
  {
    if recs != [] {
      KeepBetweenCounts(recs[1..], lo, hi, r);
      assert recs == [recs[0]] + recs[1..];
    }
  }

  /**
   Lines 64-68: the rows between `start` and the table's latest date. An empty
   table has no latest date (pandas gives NaT, which no comparison accepts), so
   nothing is kept.
   */
  function ChartRows(recs: seq<Record>, start: int): (w: seq<Record>)
    ensures |w| <= |recs|
    ensures recs == [] ==> w == []
    ensures forall k :: 0 <= k < |w| ==> start <= w[k].date <= LatestDate(recs)
  {
    if recs == [] then [] else KeepBetween(recs, start, LatestDate(recs))
  }

  /** The upper bound never removes a row: the window holds exactly the rows dated on or after `start`. */
  lemma WindowMembers(recs: seq<Record>, start: int, r: Record)
    ensures r in ChartRows(recs, start) <==> r in recs && start <= r.date
  {
    if recs != [] {
      KeepBetweenMembers(recs, start, LatestDate(recs), r);
      if r in recs {
        var k :| 0 <= k < |recs| && recs[k] == r;
      }
    }
  }

  /** When every row is dated in [lo, hi] the selection keeps the whole table. */
  lemma {:induction false} KeepAll(recs: seq<Record>, lo: int, hi: int)
    requires forall k :: 0 <= k < |recs| ==> lo <= recs[k].date <= hi
    ensures KeepBetween(recs, lo, hi) == recs
  {
    if recs != [] {
      KeepAll(recs[1..], lo, hi);
    }
  }

  /** The position of the first row dated on or after `lo`, or the table's length if there is none. */
  function FirstFrom(recs: seq<Record>, lo: int): (k: nat)
    ensures k <= |recs|
    ensures forall j :: 0 <= j < k ==> recs[j].date < lo
    ensures k < |recs| ==> lo <= recs[k].date
  {
    if recs == [] || lo <= recs[0].date then 0 else 1 + FirstFrom(recs[1..], lo)
  }

  /** On a date-sorted table whose rows are all dated up to `hi`, the selection is the suffix from `FirstFrom`. */
  lemma {:induction false} SortedSelectionIsSuffix(recs: seq<Record>, lo: int, hi: int)
    requires forall i, j :: 0 <= i < j < |recs| ==> recs[i].date <= recs[j].date
    requires forall k :: 0 <= k < |recs| ==> recs[k].date <= hi
    ensures KeepBetween(recs, lo, hi) == recs[FirstFrom(recs, lo)..]
  {
    if recs != [] {
      if lo <= recs[0].date {
        forall k | 0 <= k < |recs| ensures lo <= recs[k].date {
          if k > 0 { assert recs[0].date <= recs[k].date; }
        }
        KeepAll(recs, lo, hi);
      } else {
        var tail := recs[1..];
        assert KeepBetween(recs, lo, hi) == KeepBetween(tail, lo, hi);
        SortedSelectionIsSuffix(tail, lo, hi);
      }
    }
  }

  /** In a date-sorted table the last row carries the latest date. */
  lemma LastIsLatest(recs: seq<Record>)
    requires forall i, j :: 0 <= i < j < |recs| ==> recs[i].date <= recs[j].date
    requires recs != []
    ensures recs[|recs| - 1].date == LatestDate(recs)
  {
    var j :| 0 <= j < |recs| && recs[j].date == LatestDate(recs);
    if j < |recs| - 1 {
      assert recs[j].date <= recs[|recs| - 1].date;
    }
  }

  /**
   On a date-sorted table whose latest date is not before `start`, the window
   is a non-empty suffix of the table, so its last row is the table's last
   row, the one carrying the latest date.
   */
  lemma WindowEndsAtLatest(recs: seq<Record>, start: int)
    requires SortedByDate(Rows(recs))
    requires recs != [] && start <= LatestDate(recs)
    ensures ChartRows(recs, start) == recs[FirstFrom(recs, start)..]
    ensures ChartRows(recs, start) != []
    ensures ChartRows(recs, start)[|ChartRows(recs, start)| - 1] == recs[|recs| - 1]
    ensures recs[|recs| - 1].date == LatestDate(recs)
  {
    SortedRecordDates(recs);
    LastIsLatest(recs);
    SortedSelectionIsSuffix(recs, start, LatestDate(recs));
  }
}
