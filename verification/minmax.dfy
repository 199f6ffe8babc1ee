/** The maximin search (calc_min_max with find_maximal_strategy). Every seat
    keeps, for each of its private keys, the least value it gets over all
    joint strategies containing that key, starting from 100; each seat then
    picks the private key whose least value is largest. The evaluator is a
    parameter: the program passes calc_iteration_value with its tables and
    blinds (Evaluator.Evaluate). */
module MinMax {
  import opened Failures
  import opened Strategies

  /** The value every running minimum starts from. */
  const Ceiling: real := 100.0

  /** The value find_maximal_strategy starts from; only larger values count. */
  const Floor: real := -100.0

  /** `r` is what find_maximal_strategy returns when the map's keys are
      restricted to `keys`: the key with the largest value, the first in key
      order among equal values; or the empty key when no value exceeds
      Floor. */
  predicate FirstMaximalAmong(m: map<seq<int>, real>, keys: set<seq<int>>, r: seq<int>)
    requires keys <= m.Keys
  {
    if exists k :: k in keys && m[k] > Floor then
      r in keys && m[r] > Floor && (forall k :: k in keys ==> m[k] <= m[r]) &&
      (forall k :: k in keys && m[k] == m[r] && k != r ==> LexLess(r, k))
    else
      r == []
  }

  predicate IsFirstMaximal(m: map<seq<int>, real>, r: seq<int>)
  {
    FirstMaximalAmong(m, m.Keys, r)
  }

  /** The choice is determined: at most one key is first among the maximal. */
  lemma FirstMaximalUnique(m: map<seq<int>, real>, r1: seq<int>, r2: seq<int>)
    requires IsFirstMaximal(m, r1) && IsFirstMaximal(m, r2)
    ensures r1 == r2
  {
    if r1 != r2 && exists k :: k in m && m[k] > Floor {
      LexLessTotal(r1, r2);
      if LexLess(r1, r2) {
        assert LexLess(r2, r1);
        LexLessTransitive(r1, r2, r1);
      } else {
        LexLessTransitive(r2, r1, r2);
      }
      LexLessIrreflexive(r1);
      LexLessIrreflexive(r2);
    }
  }

  /** find_maximal_strategy: walks the map in key order, keeping the first
      key whose value beats everything seen so far (strictly, from Floor). */
  method FindMaximalStrategy(m: map<seq<int>, real>) returns (r: seq<int>)
    ensures IsFirstMaximal(m, r)
  {
    var max := Floor;
    r := [];
    var remaining := m.Keys;
    while remaining != {}
      invariant remaining <= m.Keys
      invariant forall v, w :: v in m.Keys - remaining && w in remaining ==> LexLess(v, w)
      invariant FirstMaximalAmong(m, m.Keys - remaining, r)
      invariant if exists k :: k in m.Keys - remaining && m[k] > Floor then max == m[r] else max == Floor
      decreases |remaining|
    {
      LexFirstExists(remaining);
      var k :| IsLexFirst(k, remaining);
      ghost var visited := m.Keys - remaining;
      if m[k] > max {
        r := k;
        max := m[k];
      }
      remaining := remaining - {k};
      assert m.Keys - remaining == visited + {k};
    }
  }

  /** Every joint strategy has fourteen positions and the first `n` evaluate. */
  predicate Evaluated(eval: Strategy -> Result<Expectancy>, points: seq<seq<int>>, n: nat)
  {
    n <= |points| && (forall i :: 0 <= i < |points| ==> |points[i]| == KeyLength) &&
    forall i :: 0 <= i < n ==> eval(points[i]).Ok?
  }

  /** The running minimum a seat keeps for `key` after evaluating the first
      `n` joint strategies of `points`, in order. */
  function RunningMin(eval: Strategy -> Result<Expectancy>, points: seq<seq<int>>, n: nat, seat: Seat, key: seq<int>): real
    requires Evaluated(eval, points, n)
  {
    if n == 0 then Ceiling
    else
      var prev := RunningMin(eval, points, n - 1, seat, key);
      var p := points[n - 1];
      var v := eval(p).value[SeatIndex(seat)];
      if Project(p, seat) == key && v < prev then v else prev
  }

  /** The running minimum is min(100, the least value the seat gets over the
      joint strategies with that private key): it is at most 100, at most
      every such value, and either 100 or one of them. */
  lemma {:induction false} RunningMinMeaning(eval: Strategy -> Result<Expectancy>, points: seq<seq<int>>, n: nat,
                                             seat: Seat, key: seq<int>)
    requires Evaluated(eval, points, n)
    ensures RunningMin(eval, points, n, seat, key) <= Ceiling
    ensures forall i :: 0 <= i < n && Project(points[i], seat) == key ==>
      RunningMin(eval, points, n, seat, key) <= eval(points[i]).value[SeatIndex(seat)]
    ensures RunningMin(eval, points, n, seat, key) == Ceiling ||
      exists i :: 0 <= i < n && Project(points[i], seat) == key &&
        RunningMin(eval, points, n, seat, key) == eval(points[i]).value[SeatIndex(seat)]
  {
    if n > 0 {
      RunningMinMeaning(eval, points, n - 1, seat, key);
    }
  }

  /** A seat's table after evaluating the first `k` joint strategies: one
      entry per private key in `keys`, holding its running minimum. */
  function MinsAfter(eval: Strategy -> Result<Expectancy>, points: seq<seq<int>>, keys: seq<seq<int>>,
                     k: nat, seat: Seat): map<seq<int>, real>
    requires Evaluated(eval, points, k)
  {
    map key | key in keys :: RunningMin(eval, points, k, seat, key)
  }

  /** A seat's table after evaluating all of `points`. */
  function SeatMins(eval: Strategy -> Result<Expectancy>, points: seq<seq<int>>, keys: seq<seq<int>>, seat: Seat): map<seq<int>, real>
    requires Evaluated(eval, points, |points|)
  {
    MinsAfter(eval, points, keys, |points|, seat)
  }

  /** The seeding loops: every private key of the seat starts at 100. */
  method SeedMins(keys: seq<seq<int>>) returns (mins: map<seq<int>, real>)
    ensures forall key :: key in mins <==> key in keys
    ensures forall key :: key in mins ==> mins[key] == Ceiling
  {
    mins := map[];
    var i := 0;
    while i < |keys|
      invariant 0 <= i <= |keys|
      invariant forall key :: key in mins <==> key in keys[..i]
      invariant forall key :: key in mins ==> mins[key] == Ceiling
    {
      assert keys[..i + 1] == keys[..i] + [keys[i]];
      mins := mins[keys[i] := Ceiling];
      i := i + 1;
    }
    assert keys[..i] == keys;
  }

  /** A freshly seeded table is the table after no evaluation. */
  lemma SeededIsInitial(mins: map<seq<int>, real>, eval: Strategy -> Result<Expectancy>, points: seq<seq<int>>,
                        keys: seq<seq<int>>, seat: Seat)
    requires Evaluated(eval, points, 0)
    requires forall key :: key in mins <==> key in keys
    requires forall key :: key in mins ==> mins[key] == Ceiling
    ensures mins == MinsAfter(eval, points, keys, 0, seat)
  {
  }

  /** One evaluation's effect on a running minimum. */
  lemma RunningMinStep(eval: Strategy -> Result<Expectancy>, points: seq<seq<int>>, k: nat, seat: Seat, key: seq<int>)
    requires Evaluated(eval, points, k + 1)
    ensures RunningMin(eval, points, k + 1, seat, key) ==
      if Project(points[k], seat) == key && eval(points[k]).value[SeatIndex(seat)] < RunningMin(eval, points, k, seat, key)
      then eval(points[k]).value[SeatIndex(seat)] else RunningMin(eval, points, k, seat, key)
  {
  }

  /** The in-place lowering one evaluation does to one seat's table. */
  method Lower(mins: map<seq<int>, real>, eval: Strategy -> Result<Expectancy>, points: seq<seq<int>>,
               keys: seq<seq<int>>, k: nat, seat: Seat, e: Expectancy) returns (mins': map<seq<int>, real>)
    requires k < |points| && Evaluated(eval, points, k + 1) && e == eval(points[k]).value
    requires Covers(points, keys, seat) && mins == MinsAfter(eval, points, keys, k, seat)
    ensures mins' == MinsAfter(eval, points, keys, k + 1, seat)
  {
    var key := Project(points[k], seat);
    var v := e[SeatIndex(seat)];
    mins' := mins;
    if v < mins[key] {
      mins' := mins[key := v];
    }
    forall other | other in keys
      ensures mins'[other] == RunningMin(eval, points, k + 1, seat, other)
    {
      RunningMinStep(eval, points, k, seat, other);
    }
  }

  /** The four seats' tables, in seat order, after the first `k` joint
      strategies. */
  function FourMins(eval: Strategy -> Result<Expectancy>, points: seq<seq<int>>, coKeys: seq<seq<int>>,
                    deKeys: seq<seq<int>>, sbKeys: seq<seq<int>>, bbKeys: seq<seq<int>>, k: nat): seq<map<seq<int>, real>>
    requires Evaluated(eval, points, k)
  {
    [MinsAfter(eval, points, coKeys, k, CO), MinsAfter(eval, points, deKeys, k, DE),
     MinsAfter(eval, points, sbKeys, k, SB), MinsAfter(eval, points, bbKeys, k, BB)]
  }

  /** One turn of the lowering loop: the evaluation of joint strategy `k`
      lowers each seat's table in turn. */
  method LowerEach(tables: seq<map<seq<int>, real>>, eval: Strategy -> Result<Expectancy>, points: seq<seq<int>>,
                   coKeys: seq<seq<int>>, deKeys: seq<seq<int>>, sbKeys: seq<seq<int>>, bbKeys: seq<seq<int>>,
                   k: nat, e: Expectancy) returns (tables': seq<map<seq<int>, real>>)
    requires k < |points| && Evaluated(eval, points, k + 1) && e == eval(points[k]).value
    requires Covers(points, coKeys, CO) && Covers(points, deKeys, DE)
    requires Covers(points, sbKeys, SB) && Covers(points, bbKeys, BB)
    requires tables == FourMins(eval, points, coKeys, deKeys, sbKeys, bbKeys, k)
    ensures tables' == FourMins(eval, points, coKeys, deKeys, sbKeys, bbKeys, k + 1)
  {
    var co := Lower(tables[0], eval, points, coKeys, k, CO, e);
    var de := Lower(tables[1], eval, points, deKeys, k, DE, e);
    var sb := Lower(tables[2], eval, points, sbKeys, k, SB, e);
    var bb := Lower(tables[3], eval, points, bbKeys, k, BB, e);
    tables' := [co, de, sb, bb];
  }

  lemma EvaluatedNone(eval: Strategy -> Result<Expectancy>, points: seq<seq<int>>, keys: seq<seq<int>>)
    requires Covers(points, keys, CO)
    ensures Evaluated(eval, points, 0)
  {
  }

  lemma EvaluatedStep(eval: Strategy -> Result<Expectancy>, points: seq<seq<int>>, k: nat)
    requires k < |points| && Evaluated(eval, points, k) && eval(points[k]).Ok?
    ensures Evaluated(eval, points, k + 1)
  {
  }

  /** The lowering loop over the joint strategies `points`, in order, with
      the private keys each seat's table is seeded with: the first failing
      evaluation's error, or the four final tables. */
  method LowerAll(eval: Strategy -> Result<Expectancy>, points: seq<seq<int>>,
                  coKeys: seq<seq<int>>, deKeys: seq<seq<int>>, sbKeys: seq<seq<int>>, bbKeys: seq<seq<int>>)
    returns (r: Result<seq<map<seq<int>, real>>>)
    requires Covers(points, coKeys, CO) && Covers(points, deKeys, DE)
    requires Covers(points, sbKeys, SB) && Covers(points, bbKeys, BB)
    ensures r.Ok? <==> Evaluated(eval, points, |points|)
    ensures r.Err? ==> exists i :: 0 <= i < |points| && Evaluated(eval, points, i) && eval(points[i]) == Err(r.error)
    ensures r.Ok? ==> r.value == [SeatMins(eval, points, coKeys, CO), SeatMins(eval, points, deKeys, DE),
                                  SeatMins(eval, points, sbKeys, SB), SeatMins(eval, points, bbKeys, BB)]
  {
    var coMins := SeedMins(coKeys);
    var deMins := SeedMins(deKeys);
    var sbMins := SeedMins(sbKeys);
    var bbMins := SeedMins(bbKeys);
    EvaluatedNone(eval, points, coKeys);
    SeededIsInitial(coMins, eval, points, coKeys, CO);
    SeededIsInitial(deMins, eval, points, deKeys, DE);
    SeededIsInitial(sbMins, eval, points, sbKeys, SB);
    SeededIsInitial(bbMins, eval, points, bbKeys, BB);
    var tables := [coMins, deMins, sbMins, bbMins];
    var k := 0;
    while k < |points|
      invariant Evaluated(eval, points, k)
      invariant tables == FourMins(eval, points, coKeys, deKeys, sbKeys, bbKeys, k)
    {
      var e := eval(points[k]);
      if e.Err? {
        assert Evaluated(eval, points, k) && eval(points[k]) == Err(e.error);
        return Err(e.error);
      }
      EvaluatedStep(eval, points, k);
      tables := LowerEach(tables, eval, points, coKeys, deKeys, sbKeys, bbKeys, k, e.value);
      k := k + 1;
    }
    r := Ok(tables);
  }

  /** The maximin search over the joint strategies `points`: the first
      failing evaluation's error, or each seat's maximin key. */
  method Maximin(eval: Strategy -> Result<Expectancy>, points: seq<seq<int>>,
                 coKeys: seq<seq<int>>, deKeys: seq<seq<int>>, sbKeys: seq<seq<int>>, bbKeys: seq<seq<int>>)
    returns (r: Result<seq<seq<int>>>)
    requires Covers(points, coKeys, CO) && Covers(points, deKeys, DE)
    requires Covers(points, sbKeys, SB) && Covers(points, bbKeys, BB)
    ensures r.Ok? <==> Evaluated(eval, points, |points|)
    ensures r.Err? ==> exists i :: 0 <= i < |points| && Evaluated(eval, points, i) && eval(points[i]) == Err(r.error)
    ensures r.Ok? ==> |r.value| == 4
    ensures r.Ok? ==> IsFirstMaximal(SeatMins(eval, points, coKeys, CO), r.value[0])
    ensures r.Ok? ==> IsFirstMaximal(SeatMins(eval, points, deKeys, DE), r.value[1])
    ensures r.Ok? ==> IsFirstMaximal(SeatMins(eval, points, sbKeys, SB), r.value[2])
    ensures r.Ok? ==> IsFirstMaximal(SeatMins(eval, points, bbKeys, BB), r.value[3])
  {
    var tables :- LowerAll(eval, points, coKeys, deKeys, sbKeys, bbKeys);
    var maxCo := FindMaximalStrategy(tables[0]);
    var maxDe := FindMaximalStrategy(tables[1]);
    var maxSb := FindMaximalStrategy(tables[2]);
    var maxBb := FindMaximalStrategy(tables[3]);
    r := Ok([maxCo, maxDe, maxSb, maxBb]);
  }

  /** A seat's table in calc_min_max, over the given candidate lists. */
  function MinTable(eval: Strategy -> Result<Expectancy>, lists: seq<seq<int>>, seat: Seat): map<seq<int>, real>
    requires |lists| == KeyLength && Evaluated(eval, Product(lists), |Product(lists)|)
  {
    SeatMins(eval, Product(lists), SeatKeys(lists, seat), seat)
  }

  /** calc_min_max: seeds the four tables, lowers them over every joint
      strategy in nested-loop order, and picks each seat's maximin key. A
      failing evaluation aborts the search with its failure. */
  method CalcMinMax(eval: Strategy -> Result<Expectancy>, lists: seq<seq<int>>) returns (r: Result<seq<seq<int>>>)
    requires |lists| == KeyLength
    ensures r.Ok? <==> Evaluated(eval, Product(lists), |Product(lists)|)
    ensures r.Err? ==> exists i :: 0 <= i < |Product(lists)| && Evaluated(eval, Product(lists), i) &&
                                   eval(Product(lists)[i]) == Err(r.error)
    ensures r.Ok? ==> |r.value| == 4
    ensures r.Ok? ==> IsFirstMaximal(MinTable(eval, lists, CO), r.value[0])
    ensures r.Ok? ==> IsFirstMaximal(MinTable(eval, lists, DE), r.value[1])
    ensures r.Ok? ==> IsFirstMaximal(MinTable(eval, lists, SB), r.value[2])
    ensures r.Ok? ==> IsFirstMaximal(MinTable(eval, lists, BB), r.value[3])
  {
    ProductCovers(lists, CO);
    ProductCovers(lists, DE);
    ProductCovers(lists, SB);
    ProductCovers(lists, BB);
    r := Maximin(eval, Product(lists), SeatKeys(lists, CO), SeatKeys(lists, DE), SeatKeys(lists, SB), SeatKeys(lists, BB));
  }
}
