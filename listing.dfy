/**
 The Hong Kong listing test of the main loop, `code in listing["代码"]`.

 The listing's `代码` (code) column is a pandas Series of strings. Python's
 `in` on a Series tests its index labels, not its values, so with the
 listing's default integer index no code string is ever found and the Hong
 Kong branch is never taken. `InIndex` models the test as written;
 `InValues` is the evidently intended test. The batch model takes the
 test's answer as a flag, so either can be given to it.
 */
module Listing {
  import opened Dispatch

  /** An index label: a position of the default integer index, or a string label. */
  datatype Label = Position(n: int) | Name(s: string)

  /** A Series of strings: its index labels and its values, row by row. */
  datatype Column = Column(index: seq<Label>, values: seq<string>)

  /** The default integer index 0, 1, ..., n - 1 that a freshly built table carries. */
  function DefaultIndex(n: nat): (labels: seq<Label>)
    ensures |labels| == n
    ensures forall i :: 0 <= i < n ==> labels[i] == Position(i)
  {
    seq(n, i requires 0 <= i < n => Position(i))
  }

  /** A listing column as built from a response: the codes with the default index. */
  function ListingColumn(codes: seq<string>): (col: Column)
    ensures |col.index| == |col.values| == |codes|
    ensures col.values == codes
  {
    Column(DefaultIndex(|codes|), codes)
  }

  /** `code in col` as pandas evaluates it: a test on the index labels. */
  function InIndex(code: string, col: Column): (b: bool)
    ensures b <==> exists k :: 0 <= k < |col.index| && col.index[k] == Name(code)
  {
    Name(code) in col.index
  }

  /** The intended test: `code` is one of the column's values. */
  function InValues(code: string, col: Column): (b: bool)
    ensures b <==> exists k :: 0 <= k < |col.values| && col.values[k] == code
  {
    code in col.values
  }

  /** As written, no code is ever found in a listing with the default index. */
  lemma NeverInDefaultIndex(code: string, codes: seq<string>)
    ensures !InIndex(code, ListingColumn(codes))
  {
  }

  /** As written, the Hong Kong branch is skipped even for a code the listing holds. */
  lemma HongKongSkippedAsWritten(name: string, code: string, codes: seq<string>)
    ensures SelectBranch(name, InIndex(code, ListingColumn(codes))) != Some(HongKong)
  {
    NeverInDefaultIndex(code, codes);
  }

  /** The concrete case: "港股-恒生指数" with code "HSI" listed is never fetched as written. */
  lemma HangSengSkippedAsWritten()
    ensures SelectBranch(IndexTable[0].name, InIndex("HSI", ListingColumn(["HSI"]))) == None
    ensures SelectBranch(IndexTable[0].name, InValues("HSI", ListingColumn(["HSI"]))) == Some(HongKong)
  {
    NeverInDefaultIndex("HSI", ["HSI"]);
    ConfiguredIndicesAreDispatched(0, false);
    ConfiguredIndicesAreDispatched(0, true);
  }

  /** With the intended test, a "港股" index whose code is listed takes the Hong Kong branch, and only then. */
  lemma HongKongSelectedWhenListed(name: string, code: string, col: Column)
    requires FirstField(name, Separator) == HongKongPrefix
    ensures SelectBranch(name, InValues(code, col)) == Some(HongKong) <==> code in col.values
  {
  }
}
