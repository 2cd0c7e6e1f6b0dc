/**
 The script's main loop: for each configured index, pick the data branch,
 and when one applies, run the engine on the fetched table and hand the
 result and its chart window to the plotting step.

 The network is not modelled: for each entry the caller supplies the answer
 of the Hong Kong listing test on that pass, and the daily table the branch
 would fetch (already renamed to the `date` and `close` columns). The answer
 is consulted only for "港股" names and the table is ignored for an index that
 takes no branch. Module Listing gives the answer the script computes and the
 one evidently intended; `HangSengNeverChartedAsWritten` and
 `HangSengChartedWhenIntended` run the loop's per-entry result on each.
 */
module Batch {
  import opened Frames
  import opened Ma60
  import opened ChartWindow
  import opened Dispatch
  import opened Listing

  /** What the plotting step receives for one index: its name, the engine's table and the rows drawn. */
  datatype Chart = Chart(name: string, frame: seq<Record>, window: seq<Record>)

  /**
   What the loop leaves for one entry: no chart exactly when the entry
   selects no branch; otherwise a chart with the entry's name, a valid engine
   result for its fetched table, and the rows of that result the chart draws.
   */
  predicate Handled(entry: IndexEntry, hkListed: bool, table: seq<Row>, start: int, chart: Option<Chart>)
  {
    && (chart == None <==> SelectBranch(entry.name, hkListed) == None)
    && (chart.Some? ==>
          && chart.value.name == entry.name
          && EngineOutput(table, chart.value.frame)
          && chart.value.window == ChartRows(chart.value.frame, start))
  }

  /** Runs every entry in order; an entry that takes no branch yields `None` and the loop goes on. */
  method RunBatch(entries: seq<IndexEntry>, hkListed: seq<bool>, fetched: seq<seq<Row>>, start: int)
    returns (charts: seq<Option<Chart>>)
    requires |hkListed| == |entries| && |fetched| == |entries|
    ensures |charts| == |entries|
    ensures forall k :: 0 <= k < |entries| ==> Handled(entries[k], hkListed[k], fetched[k], start, charts[k])
  {
    charts := [];
    var k := 0;
    while k < |entries|
      invariant k <= |entries|
      invariant |charts| == k
      invariant forall j :: 0 <= j < k ==> Handled(entries[j], hkListed[j], fetched[j], start, charts[j])
    {
      var entry := entries[k];
      var chart: Option<Chart> := None;
      if SelectBranch(entry.name, hkListed[k]).Some? {
        var frame := CalculateMa60AndDeviation(fetched[k]);
        chart := Some(Chart(entry.name, frame, ChartRows(frame, start)));
      }
      assert Handled(entry, hkListed[k], fetched[k], start, chart);
      charts := charts + [chart];
      k := k + 1;
    }
  }

  /**
   The chart of an index whose table reaches the start date ends on the
   table's last row, which carries the latest date (used in the title and
   the file name).
   */
  lemma ChartEndsAtLatest(table: seq<Row>, frame: seq<Record>, start: int)
    requires EngineOutput(table, frame)
    requires table != [] && start <= LatestDate(frame)
    ensures ChartRows(frame, start) != []
    ensures ChartRows(frame, start)[|ChartRows(frame, start)| - 1].date == LatestDate(frame)
  {
    WindowEndsAtLatest(frame, start);
  }

  /**
   With the listing test as the script writes it (index labels, line 104),
   the Hang Seng entry never gets a chart, even when the listing holds "HSI".
   */
  lemma HangSengNeverChartedAsWritten(codes: seq<string>, table: seq<Row>, start: int, chart: Option<Chart>)
    requires Handled(IndexTable[0], InIndex(IndexTable[0].code, ListingColumn(codes)), table, start, chart)
    ensures chart == None
  {
    NeverInDefaultIndex(IndexTable[0].code, codes);
    ConfiguredIndicesAreDispatched(0, false);
  }

  /** With the intended value test, the Hang Seng entry is charted exactly when "HSI" is listed. */
  lemma HangSengChartedWhenIntended(codes: seq<string>, table: seq<Row>, start: int, chart: Option<Chart>)
    requires Handled(IndexTable[0], InValues(IndexTable[0].code, ListingColumn(codes)), table, start, chart)
    ensures chart.Some? <==> "HSI" in codes
  {
    ConfiguredIndicesAreDispatched(0, "HSI" in codes);
  }
}
