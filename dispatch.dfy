/**
 The choice of data branch in the script's main loop. The text of an index's
 display name before its first '-' names its market: "港股" (Hong Kong) or
 "A股" (A-shares). A Hong Kong index is fetched only when its code is found in
 the Hong Kong index listing; that lookup is a network call, so its answer is
 a parameter here. Any other prefix leaves the index without a series.
 */
module Dispatch {

  datatype Option<T> = None | Some(value: T)

  /** The two fetch branches. */
  datatype Branch = HongKong | AShare

  const Separator: char := '-'
  const HongKongPrefix: string := "港股"
  const ASharePrefix: string := "A股"

  /** `s.split(sep)[0]`: the text before the first `sep`, or all of `s` when there is none. */
  function FirstField(s: string, sep: char): (r: string)
    ensures r <= s
    ensures sep !in r
    ensures |r| < |s| ==> s[|r|] == sep
  {
    if s == [] || s[0] == sep then [] else [s[0]] + FirstField(s[1..], sep)
  }

  /** The three properties of `FirstField` pin its result down. */
  lemma {:induction false} FirstFieldUnique(s: string, sep: char, r: string)
    requires r <= s && sep !in r
    requires |r| < |s| ==> s[|r|] == sep
    ensures r == FirstField(s, sep)
  {
    if r != [] {
      assert r[0] == s[0];
      assert r[1..] <= s[1..];
      FirstFieldUnique(s[1..], sep, r[1..]);
    }
  }

  /** A name written as prefix, '-', rest has that prefix as its first field. */
  lemma PrefixOfJoinedName(prefix: string, rest: string)
    requires Separator !in prefix
    ensures FirstField(prefix + [Separator] + rest, Separator) == prefix
  {
    FirstFieldUnique(prefix + [Separator] + rest, Separator, prefix);
  }

  /**
   The branch the main loop takes for an index named `name`, given whether
   its code is in the Hong Kong listing (consulted only for "港股" names).
   */
  function SelectBranch(name: string, hkListed: bool): (b: Option<Branch>)
    ensures b == Some(AShare) <==> FirstField(name, Separator) == ASharePrefix
    ensures b == Some(HongKong) <==> FirstField(name, Separator) == HongKongPrefix && hkListed
    ensures b == None <==>
      (FirstField(name, Separator) != ASharePrefix
       && (FirstField(name, Separator) != HongKongPrefix || !hkListed))
  {
    var category := FirstField(name, Separator);
    if category == HongKongPrefix && hkListed then Some(HongKong)
    else if category == ASharePrefix then Some(AShare)
    else None
  }

  /** One entry of the configured index table: display name and provider code. */
  datatype IndexEntry = IndexEntry(name: string, code: string)

  /** The configured indices, in the order the main loop visits them. */
  const IndexTable: seq<IndexEntry> := [
    IndexEntry("港股-恒生指数", "HSI"),
    IndexEntry("A股-上证指数", "sh000001"),
    IndexEntry("A股-创业板指", "sz399006"),
    IndexEntry("A股-全指信息", "sh000993"),
    IndexEntry("A股-中证500", "sh000905"),
    IndexEntry("A股-全指医药", "sh000991"),
    IndexEntry("A股-全指消费", "sh000990"),
    IndexEntry("A股-中证红利", "sh000922"),
    IndexEntry("A股-沪深300", "sh000300")
  ]

  /**
   Every configured A-share index is always fetched; the one Hong Kong index
   is fetched exactly when its code is listed.
   */
  lemma ConfiguredIndicesAreDispatched(k: nat, hkListed: bool)
    requires k < |IndexTable|
    ensures SelectBranch(IndexTable[k].name, hkListed)
         == if k == 0 then (if hkListed then Some(HongKong) else None) else Some(AShare)
  {
    var name := IndexTable[k].name;
    if k == 0 {
      assert name == HongKongPrefix + [Separator] + "恒生指数";
      PrefixOfJoinedName(HongKongPrefix, "恒生指数");
    } else {
      var rest := name[|ASharePrefix| + 1..];
      assert name == ASharePrefix + [Separator] + rest;
      PrefixOfJoinedName(ASharePrefix, rest);
    }
  }
}
