/** The range-equity table and get_ranges_equity: the table is keyed by the
    four ranges in ascending order, so a lookup sorts its arguments, reads the
    entry and maps every argument back to the slot of the sorted key where its
    value first occurs. */
module Equity {
  import opened Failures

  /** Sorted four-range key to the four equities, in percent. */
  type EquityTable = map<seq<int>, seq<real>>

  /** EQUITY_ERROR: how far the four equities may add up from 100. */
  const EquityError: real := 0.15

  predicate Sorted(s: seq<int>)
  {
    forall i, j :: 0 <= i < j < |s| ==> s[i] <= s[j]
  }

  function Insert(x: int, s: seq<int>): (r: seq<int>)
    requires Sorted(s)
    ensures Sorted(r) && |r| == |s| + 1
    ensures r[0] == (if s == [] || x <= s[0] then x else s[0])
    ensures forall v :: v in r <==> v == x || v in s
  {
    if s == [] || x <= s[0] then [x] + s
    else
      assert s == [s[0]] + s[1..];
      [s[0]] + Insert(x, s[1..])
  }

  /** std::sort on the four ranges. */
  function SortRanges(s: seq<int>): (r: seq<int>)
    ensures Sorted(r) && |r| == |s|
    ensures forall v :: v in r <==> v in s
  {
    if s == [] then []
    else
      assert s == [s[0]] + s[1..];
      Insert(s[0], SortRanges(s[1..]))
  }

  /** std::find followed by std::distance: the first slot holding `v`. */
  function FirstIndex(s: seq<int>, v: int): (i: nat)
    requires v in s
    ensures i < |s| && s[i] == v && v !in s[..i]
  {
    if s[0] == v then 0
    else
      assert s == [s[0]] + s[1..];
      1 + FirstIndex(s[1..], v)
  }

  function Sum4(e: seq<real>): real
    requires |e| >= 4
  {
    e[0] + e[1] + e[2] + e[3]
  }

  /** Insertion adds exactly one copy of the inserted value. */
  lemma {:induction false} InsertPermutes(x: int, s: seq<int>)
    requires Sorted(s)
    ensures multiset(Insert(x, s)) == multiset(s) + multiset{x}
  {
    if s != [] && x > s[0] {
      InsertPermutes(x, s[1..]);
      assert s == [s[0]] + s[1..];
    }
  }

  /** The sorted key is a permutation of the ranges. */
  lemma {:induction false} SortRangesPermutes(s: seq<int>)
    ensures multiset(SortRanges(s)) == multiset(s)
  {
    if s != [] {
      SortRangesPermutes(s[1..]);
      InsertPermutes(s[0], SortRanges(s[1..]));
      MultisetOfCons(s);
    }
  }

  lemma MultisetOfCons(s: seq<int>)
    requires s != []
    ensures multiset(s) == multiset(s[1..]) + multiset{s[0]}
  {
    assert s == [s[0]] + s[1..];
  }

  /** Every input range is present in its sorted copy. */
  lemma InputsInSortedKey(input: seq<int>)
    ensures forall i :: 0 <= i < |input| ==> input[i] in SortRanges(input)
  {
  }

  /** The equity each seat reads from an entry: the slot of the sorted key
      where the seat's range first occurs. */
  function Pick(entry: seq<real>, key: seq<int>, x: seq<int>): (res: seq<real>)
    requires |x| == 4 && |entry| >= |key| && forall k :: 0 <= k < 4 ==> x[k] in key
    ensures |res| == 4 && forall k :: 0 <= k < 4 ==> res[k] == entry[FirstIndex(key, x[k])]
  {
    [entry[FirstIndex(key, x[0])], entry[FirstIndex(key, x[1])],
     entry[FirstIndex(key, x[2])], entry[FirstIndex(key, x[3])]]
  }

  /** The EQUITY_ERROR check on the assembled equities. */
  function CheckSum(res: seq<real>): (r: Result<seq<real>>)
    requires |res| == 4
    ensures r.Ok? <==> Abs(Sum4(res) - 100.0) <= EquityError
    ensures r.Ok? ==> r.value == res
    ensures r.Err? ==> r.error == EquityDivergent
  {
    if Abs(Sum4(res) - 100.0) > EquityError then Err(EquityDivergent) else Ok(res)
  }

  /** The lookup on the four ranges in seat order. When the third-smallest of
      the four ranges is 0 (for non-negative ranges: at most one is non-zero)
      the table is not consulted and every equity is 0. A key the table lacks
      is an error: the program would read past the end of the empty entry
      operator[] inserts. */
  function RangesEquity(table: EquityTable, x: seq<int>): (r: Result<seq<real>>)
    requires |x| == 4
    ensures r.Ok? ==> |r.value| == 4
    ensures r.Err? ==> r.error == EquityMissing || r.error == EquityDivergent
    ensures SortRanges(x)[2] == 0 ==> r == Ok([0.0, 0.0, 0.0, 0.0])
    ensures SortRanges(x)[2] != 0 && (SortRanges(x) !in table || |table[SortRanges(x)]| < 4) ==>
      r == Err(EquityMissing)
    ensures SortRanges(x)[2] != 0 && SortRanges(x) in table && |table[SortRanges(x)]| >= 4 ==>
      (forall k :: 0 <= k < 4 ==> x[k] in SortRanges(x)) &&
      r == CheckSum(Pick(table[SortRanges(x)], SortRanges(x), x))
  {
    var ranges := SortRanges(x);
    if ranges[2] == 0 then Ok([0.0, 0.0, 0.0, 0.0])
    else if ranges !in table || |table[ranges]| < 4 then Err(EquityMissing)
    else
      InputsInSortedKey(x);
      CheckSum(Pick(table[ranges], ranges, x))
  }

  /** get_ranges_equity: seat i receives the equity stored at the first slot
      of the sorted key holding seat i's range; the four equities must add up
      to 100 within EquityError. */
  function GetRangesEquity(table: EquityTable, co: int, de: int, sb: int, bb: int): (r: Result<seq<real>>)
    ensures r.Ok? ==>
      |r.value| == 4 && (Abs(Sum4(r.value) - 100.0) <= EquityError || r.value == [0.0, 0.0, 0.0, 0.0])
    ensures r.Err? ==> r.error == EquityMissing || r.error == EquityDivergent
    ensures r.Err? && r.error == EquityMissing ==>
      var key := SortRanges([co, de, sb, bb]); key[2] != 0 && (key !in table || |table[key]| < 4)
    ensures r.Ok? && SortRanges([co, de, sb, bb])[2] != 0 ==>
      var key := SortRanges([co, de, sb, bb]);
      key in table && |table[key]| >= 4 &&
      forall k :: 0 <= k < 4 ==>
        ([co, de, sb, bb][k] in key && r.value[k] == table[key][FirstIndex(key, [co, de, sb, bb][k])])
  {
    RangesEquity(table, [co, de, sb, bb])
  }

  /** Exchanges positions i and i + 1. */
  function SwapAt<T>(s: seq<T>, i: nat): (r: seq<T>)
    requires i + 1 < |s|
    ensures |r| == |s| && r[i] == s[i + 1] && r[i + 1] == s[i]
    ensures forall k :: 0 <= k < |s| && k != i && k != i + 1 ==> r[k] == s[k]
  {
    s[i := s[i + 1]][i + 1 := s[i]]
  }

  function SwapResult(r: Result<seq<real>>, i: nat): Result<seq<real>>
    requires i < 3 && (r.Ok? ==> |r.value| == 4)
  {
    if r.Err? then r else Ok(SwapAt(r.value, i))
  }

  /** Inserting two values into a sorted sequence gives the same result in
      either order. */
  lemma {:induction false} InsertCommutes(a: int, b: int, s: seq<int>)
    requires Sorted(s)
    ensures Insert(a, Insert(b, s)) == Insert(b, Insert(a, s))
  {
    if s != [] && a > s[0] && b > s[0] {
      InsertCommutes(a, b, s[1..]);
    }
  }

  /** Sorting ignores the exchange of two neighbouring elements. */
  lemma {:induction false} SortIgnoresSwap(s: seq<int>, i: nat)
    requires i + 1 < |s|
    ensures SortRanges(SwapAt(s, i)) == SortRanges(s)
  {
    var t := SwapAt(s, i);
    if i == 0 {
      assert t[1..] == [s[0]] + s[2..] && s[1..] == [s[1]] + s[2..];
      assert t[1..][1..] == s[1..][1..];
      InsertCommutes(s[0], s[1], SortRanges(s[2..]));
    } else {
      assert t[1..] == SwapAt(s[1..], i - 1);
      SortIgnoresSwap(s[1..], i - 1);
    }
  }

  lemma PickFollowsSwap(entry: seq<real>, key: seq<int>, x: seq<int>, i: nat)
    requires |x| == 4 && i < 3 && |entry| >= |key| && forall k :: 0 <= k < 4 ==> x[k] in key
    ensures forall k :: 0 <= k < 4 ==> SwapAt(x, i)[k] in key
    ensures Pick(entry, key, SwapAt(x, i)) == SwapAt(Pick(entry, key, x), i)
  {
  }

  lemma CheckSumFollowsSwap(res: seq<real>, i: nat)
    requires |res| == 4 && i < 3
    ensures CheckSum(SwapAt(res, i)) == SwapResult(CheckSum(res), i)
  {
    assert Sum4(SwapAt(res, i)) == Sum4(res);
  }

  /** Exchanging two neighbouring seats' ranges exchanges their equities and
      changes nothing else. */
  lemma EquityFollowsSwap(table: EquityTable, x: seq<int>, i: nat)
    requires |x| == 4 && i < 3
    ensures RangesEquity(table, SwapAt(x, i)) == SwapResult(RangesEquity(table, x), i)
  {
    SortIgnoresSwap(x, i);
    var key := SortRanges(x);
    if key[2] != 0 && key in table && |table[key]| >= 4 {
      InputsInSortedKey(x);
      PickFollowsSwap(table[key], key, x, i);
      CheckSumFollowsSwap(Pick(table[key], key, x), i);
    } else if key[2] == 0 {
      assert SwapAt([0.0, 0.0, 0.0, 0.0], i) == [0.0, 0.0, 0.0, 0.0];
    }
  }

  /** A rearrangement of the four seats: p[i] is the seat whose range goes to
      position i. */
  predicate IsPermutation4(p: seq<nat>)
  {
    |p| == 4 && (forall i :: 0 <= i < 4 ==> p[i] < 4) &&
    (forall i, j :: 0 <= i < j < 4 ==> p[i] != p[j])
  }

  function Rearrange<T>(x: seq<T>, p: seq<nat>): (r: seq<T>)
    requires |x| == 4 && IsPermutation4(p)
  {
    [x[p[0]], x[p[1]], x[p[2]], x[p[3]]]
  }

  function RearrangeResult(r: Result<seq<real>>, p: seq<nat>): Result<seq<real>>
    requires IsPermutation4(p) && (r.Ok? ==> |r.value| == 4)
  {
    if r.Err? then r else Ok(Rearrange(r.value, p))
  }

  /** Number of out-of-order pairs in a rearrangement. */
  function Inversions(p: seq<nat>): nat
    requires |p| == 4
  {
    (if p[0] > p[1] then 1 else 0) + (if p[0] > p[2] then 1 else 0) + (if p[0] > p[3] then 1 else 0) +
    (if p[1] > p[2] then 1 else 0) + (if p[1] > p[3] then 1 else 0) + (if p[2] > p[3] then 1 else 0)
  }

  /** Undoing a descent of a rearrangement: exchanging positions i and i + 1
      of the rearrangement removes one out-of-order pair, and rearranging by
      the result then exchanging i and i + 1 rearranges by the original. */
  lemma UndoDescent(x: seq<int>, r: Result<seq<real>>, p: seq<nat>, i: nat)
    requires |x| == 4 && IsPermutation4(p) && i < 3 && p[i] > p[i + 1]
    requires r.Ok? ==> |r.value| == 4
    ensures IsPermutation4(SwapAt(p, i)) && Inversions(SwapAt(p, i)) < Inversions(p)
    ensures Rearrange(x, p) == SwapAt(Rearrange(x, SwapAt(p, i)), i)
    ensures RearrangeResult(r, p) == SwapResult(RearrangeResult(r, SwapAt(p, i)), i)
  {
    var q := SwapAt(p, i);
    assert q == [q[0], q[1], q[2], q[3]];
    if r.Ok? {
      assert Rearrange(r.value, p) == SwapAt(Rearrange(r.value, q), i);
    }
  }

  /** Lookups are consistent under any rearrangement of the seats: permuting
      the four ranges permutes the four equities in the same way, duplicates
      included, and a failure stays the same failure. The proof sorts the
      rearrangement by exchanges of neighbours. */
  lemma {:induction false} EquityFollowsPermutation(table: EquityTable, x: seq<int>, p: seq<nat>)
    requires |x| == 4 && IsPermutation4(p)
    ensures RangesEquity(table, Rearrange(x, p)) == RearrangeResult(RangesEquity(table, x), p)
    decreases Inversions(p)
  {
    var i: nat;
    if p[0] > p[1] {
      i := 0;
    } else if p[1] > p[2] {
      i := 1;
    } else if p[2] > p[3] {
      i := 2;
    } else {
      assert p == [0, 1, 2, 3];
      assert Rearrange(x, p) == x;
      var r := RangesEquity(table, x);
      assert r.Ok? ==> Rearrange(r.value, p) == r.value;
      return;
    }
    var q := SwapAt(p, i);
    UndoDescent(x, RangesEquity(table, x), p, i);
    EquityFollowsPermutation(table, x, q);
    EquityFollowsSwap(table, Rearrange(x, q), i);
  }
}
