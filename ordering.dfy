/**
 Ordering the fetched table by date (`df.sort_values(by=date_column)`).

 pandas does not promise a stable order for rows that share a date, so what
 the engine relies on is stated as "sorted and a permutation"; `SortByDate` is
 one function with that property, and `SortedPermutationUnique` shows that
 once dates are distinct there is only one such result, whatever the input
 order.
 */
module Ordering {
  import opened Frames

  /** Places `x` into the date-sorted `s`, before the first row dated at or after it. */
  function Insert(x: Row, s: seq<Row>): (r: seq<Row>)
    requires SortedByDate(s)
    ensures SortedByDate(r)
    ensures multiset(r) == multiset(s) + multiset{x}
    ensures |r| == |s| + 1
    ensures forall k :: 0 <= k < |r| ==> r[k] == x || r[k] in s
  {
    if s == [] || x.date <= s[0].date then
      [x] + s
    else
      var t := Insert(x, s[1..]);
      PrependKeepsSorted(s, x, t);
      assert s == [s[0]] + s[1..];
      [s[0]] + t
  }

  /** `s[0]` may go in front of a sorted `t` made of `x` (dated after it) and rows of `s[1..]`. */
  lemma PrependKeepsSorted(s: seq<Row>, x: Row, t: seq<Row>)
    requires SortedByDate(s) && s != [] && s[0].date < x.date
    requires SortedByDate(t)
    requires forall k :: 0 <= k < |t| ==> t[k] == x || t[k] in s[1..]
    ensures SortedByDate([s[0]] + t)
  {
    forall k | 0 <= k < |t|
      ensures s[0].date <= t[k].date
    {
      if t[k] != x {
        var m :| 0 <= m < |s[1..]| && s[1..][m] == t[k];
        assert s[m + 1] == t[k];
      }
    }
  }

  /** The rows of the table in ascending date order. */
  function SortByDate(rows: seq<Row>): (r: seq<Row>)
    ensures SortedByDate(r)
    ensures multiset(r) == multiset(rows)
    ensures |r| == |rows|
  {
    if rows == [] then []
    else
      assert rows == [rows[0]] + rows[1..];
      Insert(rows[0], SortByDate(rows[1..]))
  }

  /** With distinct dates no row occurs twice. */
  lemma {:induction false} AtMostOnce(a: seq<Row>, x: Row)
    requires DistinctDates(a)
    ensures multiset(a)[x] <= 1
  {
    if a != [] {
      var init, last := a[..|a| - 1], a[|a| - 1];
      assert a == init + [last];
      AtMostOnce(init, x);
      if last == x {
        forall k | 0 <= k < |init| ensures init[k] != x {
          assert a[k].date != a[|a| - 1].date;
        }
        assert x !in init;
      }
    }
  }

  /** A row found at two positions is counted at least twice. */
  lemma TwiceCounted(b: seq<Row>, i: nat, j: nat)
    requires i < j < |b| && b[i] == b[j]
    ensures multiset(b)[b[i]] >= 2
  {
    assert b == b[..i] + [b[i]] + (b[i + 1..j] + [b[j]] + b[j + 1..]);
  }

  /** Permutations keep dates distinct. */
  lemma DistinctDatesOfPermutation(a: seq<Row>, b: seq<Row>)
    requires multiset(a) == multiset(b)
    requires DistinctDates(a)
    ensures DistinctDates(b)
  {
    forall i, j | 0 <= i < j < |b|
      ensures b[i].date != b[j].date
    {
      if b[i].date == b[j].date {
        assert b[i] in multiset(a) && b[j] in multiset(a);
        var p :| 0 <= p < |a| && a[p] == b[i];
        var q :| 0 <= q < |a| && a[q] == b[j];
        if p == q {
          TwiceCounted(b, i, j);
          AtMostOnce(a, b[i]);
        }
      }
    }
  }

  /** Two date-sorted permutations of a table with distinct dates start with the same row. */
  lemma SameFirstRow(a: seq<Row>, b: seq<Row>)
    requires SortedByDate(a) && SortedByDate(b)
    requires multiset(a) == multiset(b)
    requires DistinctDates(a)
    requires a != [] && b != []
    ensures a[0] == b[0]
  {
    assert a[0] in multiset(b);
    var j :| 0 <= j < |b| && b[j] == a[0];
    assert b[0] in multiset(a);
    var k :| 0 <= k < |a| && a[k] == b[0];
    assert a[0].date <= a[k].date == b[0].date <= b[j].date == a[0].date;
  }

  /** Two date-sorted permutations of one table with distinct dates are the same sequence. */
  lemma {:induction false} SortedPermutationUnique(a: seq<Row>, b: seq<Row>)
    requires SortedByDate(a) && SortedByDate(b)
    requires multiset(a) == multiset(b)
    requires DistinctDates(a)
    ensures a == b
  {
    assert |a| == |multiset(a)| == |multiset(b)| == |b|;
    if a != [] {
      SameFirstRow(a, b);
      var x := a[0];
      assert a == [x] + a[1..];
      assert b == [x] + b[1..];
      assert multiset(a[1..]) == multiset(a) - multiset{x};
      assert multiset(b[1..]) == multiset(b) - multiset{x};
      SortedPermutationUnique(a[1..], b[1..]);
    }
  }

  /** Sorting does not depend on the input order when dates are distinct. */
  lemma SortOrderIndependent(rows1: seq<Row>, rows2: seq<Row>)
    requires multiset(rows1) == multiset(rows2)
    requires DistinctDates(rows1)
    ensures SortByDate(rows1) == SortByDate(rows2)
  {
    var s1, s2 := SortByDate(rows1), SortByDate(rows2);
    DistinctDatesOfPermutation(rows1, s1);
    SortedPermutationUnique(s1, s2);
  }
}
