/** The approximate-Nash search (calc_nash_definition). A pass walks every
    joint strategy in nested-loop order, evaluates it, and then tries every
    unilateral deviation seat by seat (CO, DE, SB, BB); a deviation rejects the
    joint strategy when it pays the deviating seat more than its value plus
    margin times the value's magnitude. The strategies no deviation rejects are
    recorded with their values. Passes repeat with the margin raised by delta
    until one records something. The evaluator is a parameter: the program
    passes calc_iteration_value with its tables and blinds
    (Evaluator.Evaluate). */
module Nash {
  import opened Failures
  import opened Strategies

  /** The alternatives each seat's deviation loops visit, in their order. */
  datatype Deviations = Deviations(co: seq<seq<int>>, de: seq<seq<int>>, sb: seq<seq<int>>, bb: seq<seq<int>>)
  {
    function Of(seat: Seat): seq<seq<int>>
    {
      match seat
      case CO => co
      case DE => de
      case SB => sb
      case BB => bb
    }

    predicate Valid()
    {
      Fits(co, CO) && Fits(de, DE) && Fits(sb, SB) && Fits(bb, BB)
    }
  }

  /** The deviation loops of calc_nash_definition: every seat may switch to
      any choice from its own candidate lists. */
  function DeviationsOf(lists: seq<seq<int>>): (d: Deviations)
    requires |lists| == KeyLength
    ensures d.Valid()
  {
    SeatKeysFit(lists, CO);
    SeatKeysFit(lists, DE);
    SeatKeysFit(lists, SB);
    SeatKeysFit(lists, BB);
    Deviations(SeatKeys(lists, CO), SeatKeys(lists, DE), SeatKeys(lists, SB), SeatKeys(lists, BB))
  }

  /** The deviation payoff `t` beats the seat's value in `e` by more than the
      margin allows. */
  predicate Rejects(t: Expectancy, e: Expectancy, seat: Seat, margin: real)
  {
    t[SeatIndex(seat)] > e[SeatIndex(seat)] + margin * Abs(e[SeatIndex(seat)])
  }

  /** A seat never rejects its own payoff when the margin is not negative. */
  lemma SelfNeverRejects(e: Expectancy, seat: Seat, margin: real)
    requires margin >= 0.0
    ensures !Rejects(e, e, seat, margin)
  {
    var a := Abs(e[SeatIndex(seat)]);
    assert margin * a >= 0.0;
  }

  /** A deviation that rejects under a margin also rejects under every
      smaller one. */
  lemma RejectsUnderSmallerMargin(t: Expectancy, e: Expectancy, seat: Seat, small: real, large: real)
    requires small <= large && Rejects(t, e, seat, large)
    ensures Rejects(t, e, seat, small)
  {
    var a := Abs(e[SeatIndex(seat)]);
    assert (large - small) * a >= 0.0;
  }

  /** Two alternatives of one length agree on every position but the last:
      consecutive such alternatives form one run of the innermost deviation
      loop. */
  predicate SameRun(a: seq<int>, b: seq<int>)
  {
    |a| == |b| && forall j :: 0 <= j < |a| - 1 ==> a[j] == b[j]
  }

  /** One seat's deviation loops, from the alternatives `alts` on. `skip`
      holds the deviation that already rejected: the `break` leaves
      only the innermost loop, so the rest of that run is not evaluated, the
      outer loops go on with the flag cleared to false, and a run that starts
      afterwards is evaluated again. The result is the flag, or the first
      failing evaluation. */
  function Scan(eval: Strategy -> Result<Expectancy>, p: Strategy, e: Expectancy, seat: Seat,
                alts: seq<seq<int>>, margin: real, skip: Option<seq<int>>): Result<bool>
    requires Fits(alts, seat)
    decreases |alts|
  {
    if alts == [] then Ok(skip.None?)
    else if skip.Some? && SameRun(skip.value, alts[0]) then Scan(eval, p, e, seat, alts[1..], margin, skip)
    else
      var t :- eval(Deviate(p, seat, alts[0]));
      var skip' := if Rejects(t, e, seat, margin) then Some(alts[0]) else skip;
      Scan(eval, p, e, seat, alts[1..], margin, skip')
  }

  /** Every alternative evaluates and none rejects. */
  predicate Withstands(eval: Strategy -> Result<Expectancy>, p: Strategy, e: Expectancy, seat: Seat,
                       alts: seq<seq<int>>, margin: real)
  {
    Fits(alts, seat) &&
    forall i :: 0 <= i < |alts| ==>
      eval(Deviate(p, seat, alts[i])).Ok? && !Rejects(eval(Deviate(p, seat, alts[i])).value, e, seat, margin)
  }

  lemma WithstandsCons(eval: Strategy -> Result<Expectancy>, p: Strategy, e: Expectancy, seat: Seat,
                       alts: seq<seq<int>>, margin: real)
    requires Fits(alts, seat) && alts != []
    ensures Withstands(eval, p, e, seat, alts, margin) <==>
      eval(Deviate(p, seat, alts[0])).Ok? && !Rejects(eval(Deviate(p, seat, alts[0])).value, e, seat, margin) &&
      Withstands(eval, p, e, seat, alts[1..], margin)
  {
    var rest := alts[1..];
    assert forall i :: 0 <= i < |rest| ==> rest[i] == alts[i + 1];
    if eval(Deviate(p, seat, alts[0])).Ok? && !Rejects(eval(Deviate(p, seat, alts[0])).value, e, seat, margin) &&
       Withstands(eval, p, e, seat, rest, margin) {
      forall i | 0 <= i < |alts|
        ensures eval(Deviate(p, seat, alts[i])).Ok? && !Rejects(eval(Deviate(p, seat, alts[i])).value, e, seat, margin)
      {
        if i > 0 { assert alts[i] == rest[i - 1]; }
      }
    }
  }

  /** The seat's loops leave the flag set exactly when no alternative was
      pending and every alternative evaluates and none rejects. */
  lemma {:induction false} ScanVerdict(eval: Strategy -> Result<Expectancy>, p: Strategy, e: Expectancy, seat: Seat,
                                       alts: seq<seq<int>>, margin: real, skip: Option<seq<int>>)
    requires Fits(alts, seat)
    ensures Scan(eval, p, e, seat, alts, margin, skip) == Ok(true) <==>
      skip.None? && Withstands(eval, p, e, seat, alts, margin)
    decreases |alts|
  {
    if alts != [] {
      var rest := alts[1..];
      WithstandsCons(eval, p, e, seat, alts, margin);
      if skip.Some? && SameRun(skip.value, alts[0]) {
        assert Scan(eval, p, e, seat, alts, margin, skip) == Scan(eval, p, e, seat, rest, margin, skip);
        ScanVerdict(eval, p, e, seat, rest, margin, skip);
      } else {
        var t := eval(Deviate(p, seat, alts[0]));
        if t.Ok? {
          var skip' := if Rejects(t.value, e, seat, margin) then Some(alts[0]) else skip;
          assert Scan(eval, p, e, seat, alts, margin, skip) == Scan(eval, p, e, seat, rest, margin, skip');
          ScanVerdict(eval, p, e, seat, rest, margin, skip');
        } else {
          assert Scan(eval, p, e, seat, alts, margin, skip).Err?;
        }
      }
    }
  }

  /** A failure of the seat's loops is the failure of one of the
      alternatives. */
  lemma {:induction false} ScanFailure(eval: Strategy -> Result<Expectancy>, p: Strategy, e: Expectancy, seat: Seat,
                                       alts: seq<seq<int>>, margin: real, skip: Option<seq<int>>)
    requires Fits(alts, seat)
    ensures Scan(eval, p, e, seat, alts, margin, skip).Err? ==>
      exists i :: 0 <= i < |alts| && eval(Deviate(p, seat, alts[i])) == Err(Scan(eval, p, e, seat, alts, margin, skip).error)
    decreases |alts|
  {
    var r := Scan(eval, p, e, seat, alts, margin, skip);
    if alts != [] && r.Err? {
      var rest := alts[1..];
      var t := eval(Deviate(p, seat, alts[0]));
      if skip.Some? && SameRun(skip.value, alts[0]) {
        ScanFailure(eval, p, e, seat, rest, margin, skip);
        var i :| 0 <= i < |rest| && eval(Deviate(p, seat, rest[i])) == Err(r.error);
        assert rest[i] == alts[i + 1];
      } else if t.Ok? {
        var skip' := if Rejects(t.value, e, seat, margin) then Some(alts[0]) else skip;
        ScanFailure(eval, p, e, seat, rest, margin, skip');
        var i :| 0 <= i < |rest| && eval(Deviate(p, seat, rest[i])) == Err(r.error);
        assert rest[i] == alts[i + 1];
      } else {
        assert eval(Deviate(p, seat, alts[0])) == Err(r.error);
      }
    }
  }

  /** One seat's deviation loops with the is_nash flag. */
  method CheckSeat(eval: Strategy -> Result<Expectancy>, p: Strategy, e: Expectancy, seat: Seat,
                   alts: seq<seq<int>>, margin: real) returns (r: Result<bool>)
    requires Fits(alts, seat)
    ensures r == Scan(eval, p, e, seat, alts, margin, None)
  {
    var isNash := true;
    var skip: Option<seq<int>> := None;
    var i := 0;
    while i < |alts|
      invariant 0 <= i <= |alts| && isNash == skip.None?
      invariant Fits(alts[i..], seat)
      invariant Scan(eval, p, e, seat, alts, margin, None) == Scan(eval, p, e, seat, alts[i..], margin, skip)
    {
      assert alts[i..][1..] == alts[i + 1..];
      var a := alts[i];
      if !(skip.Some? && SameRun(skip.value, a)) {
        var t := eval(Deviate(p, seat, a));
        if t.Err? {
          return Err(t.error);
        }
        if Rejects(t.value, e, seat, margin) {
          isNash := false;
          skip := Some(a);
        }
      }
      i := i + 1;
    }
    r := Ok(isNash);
  }

  /** The four seats' checks in order; a seat that rejects ends the checks
      (the `continue` after each seat). */
  function Verdict(eval: Strategy -> Result<Expectancy>, p: Strategy, e: Expectancy, d: Deviations, margin: real): Result<bool>
    requires d.Valid()
  {
    var co :- Scan(eval, p, e, CO, d.co, margin, None);
    if !co then Ok(false) else
    var de :- Scan(eval, p, e, DE, d.de, margin, None);
    if !de then Ok(false) else
    var sb :- Scan(eval, p, e, SB, d.sb, margin, None);
    if !sb then Ok(false) else
    Scan(eval, p, e, BB, d.bb, margin, None)
  }

  /** The joint strategy is recorded exactly when every seat withstands all
      of its deviations. */
  lemma VerdictMeaning(eval: Strategy -> Result<Expectancy>, p: Strategy, e: Expectancy, d: Deviations, margin: real)
    requires d.Valid()
    ensures Verdict(eval, p, e, d, margin) == Ok(true) <==>
      forall seat :: Withstands(eval, p, e, seat, d.Of(seat), margin)
  {
    VerdictAllSeats(eval, p, e, d, margin);
    ScanVerdict(eval, p, e, CO, d.co, margin, None);
    ScanVerdict(eval, p, e, DE, d.de, margin, None);
    ScanVerdict(eval, p, e, SB, d.sb, margin, None);
    ScanVerdict(eval, p, e, BB, d.bb, margin, None);
    if Withstands(eval, p, e, CO, d.co, margin) && Withstands(eval, p, e, DE, d.de, margin) &&
       Withstands(eval, p, e, SB, d.sb, margin) && Withstands(eval, p, e, BB, d.bb, margin) {
      forall seat
        ensures Withstands(eval, p, e, seat, d.Of(seat), margin)
      {
        match seat
        case CO =>
        case DE =>
        case SB =>
        case BB =>
      }
    } else {
      assert !Withstands(eval, p, e, CO, d.Of(CO), margin) || !Withstands(eval, p, e, DE, d.Of(DE), margin) ||
             !Withstands(eval, p, e, SB, d.Of(SB), margin) || !Withstands(eval, p, e, BB, d.Of(BB), margin);
    }
  }

  /** The verdict is true exactly when every seat's loops leave the flag
      set. */
  lemma VerdictAllSeats(eval: Strategy -> Result<Expectancy>, p: Strategy, e: Expectancy, d: Deviations, margin: real)
    requires d.Valid()
    ensures Verdict(eval, p, e, d, margin) == Ok(true) <==>
      Scan(eval, p, e, CO, d.co, margin, None) == Ok(true) && Scan(eval, p, e, DE, d.de, margin, None) == Ok(true) &&
      Scan(eval, p, e, SB, d.sb, margin, None) == Ok(true) && Scan(eval, p, e, BB, d.bb, margin, None) == Ok(true)
  {
  }

  /** The checks for one joint strategy, seat after seat. */
  method CheckPoint(eval: Strategy -> Result<Expectancy>, p: Strategy, e: Expectancy, d: Deviations, margin: real)
    returns (r: Result<bool>)
    requires d.Valid()
    ensures r == Verdict(eval, p, e, d, margin)
  {
    var isNash :- CheckSeat(eval, p, e, CO, d.co, margin);
    if !isNash {
      return Ok(false);
    }
    isNash :- CheckSeat(eval, p, e, DE, d.de, margin);
    if !isNash {
      return Ok(false);
    }
    isNash :- CheckSeat(eval, p, e, SB, d.sb, margin);
    if !isNash {
      return Ok(false);
    }
    r := CheckSeat(eval, p, e, BB, d.bb, margin);
  }

  /** Every element is a joint strategy. */
  predicate AreStrategies(points: seq<seq<int>>)
  {
    forall i :: 0 <= i < |points| ==> |points[i]| == KeyLength
  }

  /** One pass over the joint strategies `points` from the recorded values
      `acc`: the map of survivors with their values, or the first failing
      evaluation. */
  function Pass(eval: Strategy -> Result<Expectancy>, points: seq<seq<int>>, d: Deviations, margin: real,
                acc: map<seq<int>, Expectancy>): Result<map<seq<int>, Expectancy>>
    requires d.Valid() && AreStrategies(points)
    decreases |points|
  {
    if points == [] then Ok(acc)
    else
      var e :- eval(points[0]);
      var stable :- Verdict(eval, points[0], e, d, margin);
      Pass(eval, points[1..], d, margin, if stable then acc[points[0] := e] else acc)
  }

  /** The joint strategy evaluates and no seat has an alternative that
      evaluates to a payoff rejecting it, nor one that fails to evaluate. */
  predicate Survives(eval: Strategy -> Result<Expectancy>, p: seq<int>, d: Deviations, margin: real)
  {
    |p| == KeyLength && eval(p).Ok? &&
    forall seat :: Withstands(eval, p, eval(p).value, seat, d.Of(seat), margin)
  }

  /** A pass records exactly the survivors among `points`, each with its own
      value, on top of what was recorded before. */
  lemma {:induction false} PassMeaning(eval: Strategy -> Result<Expectancy>, points: seq<seq<int>>, d: Deviations,
                                       margin: real, acc: map<seq<int>, Expectancy>)
    requires d.Valid() && AreStrategies(points)
    requires Pass(eval, points, d, margin, acc).Ok?
    ensures forall key :: key in Pass(eval, points, d, margin, acc).value <==>
      key in acc || (key in points && Survives(eval, key, d, margin))
    ensures forall key :: key in Pass(eval, points, d, margin, acc).value ==>
      Pass(eval, points, d, margin, acc).value[key] ==
        if key in points && Survives(eval, key, d, margin) then eval(key).value else acc[key]
    decreases |points|
  {
    if points != [] {
      var p, rest := points[0], points[1..];
      PassStep(eval, points, d, margin, acc);
      var acc' := if Survives(eval, p, d, margin) then acc[p := eval(p).value] else acc;
      PassMeaning(eval, rest, d, margin, acc');
      assert forall key :: key in points <==> key == p || key in rest by {
        assert points == [p] + rest;
      }
    }
  }

  /** The first turn of a pass records the first joint strategy exactly when
      it survives. */
  lemma PassStep(eval: Strategy -> Result<Expectancy>, points: seq<seq<int>>, d: Deviations,
                 margin: real, acc: map<seq<int>, Expectancy>)
    requires d.Valid() && AreStrategies(points) && points != []
    requires Pass(eval, points, d, margin, acc).Ok?
    ensures AreStrategies(points[1..]) && eval(points[0]).Ok?
    ensures Pass(eval, points, d, margin, acc) ==
      Pass(eval, points[1..], d, margin,
           if Survives(eval, points[0], d, margin) then acc[points[0] := eval(points[0]).value] else acc)
  {
    var p: Strategy := points[0];
    var rest := points[1..];
    assert AreStrategies(rest) by {
      assert forall i :: 0 <= i < |rest| ==> rest[i] == points[i + 1];
    }
    var e := eval(p).value;
    VerdictMeaning(eval, p, e, d, margin);
    assert Verdict(eval, p, e, d, margin).value <==> Survives(eval, p, d, margin);
  }

  /** One pass of the search: the loops over the joint strategies with the
      in-place insertion of each survivor. */
  method NashPass(eval: Strategy -> Result<Expectancy>, points: seq<seq<int>>, d: Deviations, margin: real)
    returns (r: Result<map<seq<int>, Expectancy>>)
    requires d.Valid() && AreStrategies(points)
    ensures r == Pass(eval, points, d, margin, map[])
  {
    var values: map<seq<int>, Expectancy> := map[];
    var k := 0;
    while k < |points|
      invariant 0 <= k <= |points| && AreStrategies(points[k..])
      invariant Pass(eval, points, d, margin, map[]) == Pass(eval, points[k..], d, margin, values)
    {
      assert points[k..][1..] == points[k + 1..];
      var p: Strategy := points[k];
      var e :- eval(p);
      var isNash :- CheckPoint(eval, p, e, d, margin);
      if isNash {
        values := values[p := e];
      }
      k := k + 1;
    }
    r := Ok(values);
  }

  /** The margin of pass `pass` (counted from 0): delta, raised by delta after
      every pass. */
  function Margin(delta: real, pass: nat): real
  {
    if pass == 0 then delta else Margin(delta, pass - 1) + delta
  }

  lemma {:induction false} MarginIsMultiple(delta: real, pass: nat)
    ensures Margin(delta, pass) == delta * (pass + 1) as real
  {
    if pass > 0 {
      MarginIsMultiple(delta, pass - 1);
    }
  }

  /** The search from pass `pass` on, giving up once `maxPasses` passes have
      recorded nothing. */
  function Search(eval: Strategy -> Result<Expectancy>, points: seq<seq<int>>, d: Deviations, delta: real,
                  pass: nat, maxPasses: nat): Result<map<seq<int>, Expectancy>>
    requires d.Valid() && AreStrategies(points)
    decreases maxPasses - pass
  {
    if pass >= maxPasses then Err(NoEquilibrium)
    else
      var m :- Pass(eval, points, d, Margin(delta, pass), map[]);
      if m != map[] then Ok(m) else Search(eval, points, d, delta, pass + 1, maxPasses)
  }

  /** Pass `k` records `m`, which is not empty, and every pass from `pass`
      up to `k` recorded nothing. */
  predicate StopsAt(eval: Strategy -> Result<Expectancy>, points: seq<seq<int>>, d: Deviations, delta: real,
                    pass: nat, k: nat, m: map<seq<int>, Expectancy>)
    requires d.Valid() && AreStrategies(points)
  {
    pass <= k && Pass(eval, points, d, Margin(delta, k), map[]) == Ok(m) && m != map[] &&
    forall j :: pass <= j < k ==> Pass(eval, points, d, Margin(delta, j), map[]) == Ok(map[])
  }

  /** A search that succeeds stops at the first pass that records something,
      and every earlier pass recorded nothing; a search whose passes all
      record nothing gives up. */
  lemma {:induction false} SearchMeaning(eval: Strategy -> Result<Expectancy>, points: seq<seq<int>>, d: Deviations,
                                         delta: real, pass: nat, maxPasses: nat)
    requires d.Valid() && AreStrategies(points)
    ensures Search(eval, points, d, delta, pass, maxPasses).Ok? ==>
      exists k: nat :: k < maxPasses && StopsAt(eval, points, d, delta, pass, k, Search(eval, points, d, delta, pass, maxPasses).value)
    ensures (forall j :: pass <= j < maxPasses ==> Pass(eval, points, d, Margin(delta, j), map[]) == Ok(map[])) ==>
      Search(eval, points, d, delta, pass, maxPasses) == Err(NoEquilibrium)
    decreases maxPasses - pass
  {
    if pass < maxPasses {
      SearchMeaning(eval, points, d, delta, pass + 1, maxPasses);
      var here := Pass(eval, points, d, Margin(delta, pass), map[]);
      var r := Search(eval, points, d, delta, pass, maxPasses);
      if here == Ok(map[]) {
        assert r == Search(eval, points, d, delta, pass + 1, maxPasses);
        if r.Ok? {
          var k: nat :| k < maxPasses && StopsAt(eval, points, d, delta, pass + 1, k, r.value);
          assert StopsAt(eval, points, d, delta, pass, k, r.value);
        }
      } else if r.Ok? {
        assert StopsAt(eval, points, d, delta, pass, pass, r.value);
      }
    }
  }

  /** The passes of calc_nash_definition over the joint strategies `points`:
      while nothing is recorded, run a pass and raise the margin by delta. */
  method NashSearch(eval: Strategy -> Result<Expectancy>, points: seq<seq<int>>, d: Deviations, delta: real,
                    maxPasses: nat) returns (r: Result<map<seq<int>, Expectancy>>)
    requires d.Valid() && AreStrategies(points)
    ensures r == Search(eval, points, d, delta, 0, maxPasses)
  {
    var values: map<seq<int>, Expectancy> := map[];
    var margin := delta;
    var pass := 0;
    while values == map[]
      invariant pass <= maxPasses && margin == Margin(delta, pass)
      invariant values == map[] ==> Search(eval, points, d, delta, 0, maxPasses) == Search(eval, points, d, delta, pass, maxPasses)
      invariant values != map[] ==> Search(eval, points, d, delta, 0, maxPasses) == Ok(values)
      decreases maxPasses - pass
    {
      if pass == maxPasses {
        return Err(NoEquilibrium);
      }
      values :- NashPass(eval, points, d, margin);
      margin := margin + delta;
      pass := pass + 1;
    }
    r := Ok(values);
  }

  /** calc_nash_definition over the fourteen candidate lists, with at most
      `maxPasses` passes. */
  method CalcNashDefinition(eval: Strategy -> Result<Expectancy>, lists: seq<seq<int>>, delta: real, maxPasses: nat)
    returns (r: Result<map<seq<int>, Expectancy>>)
    requires |lists| == KeyLength
    ensures AreStrategies(Product(lists))
    ensures r == Search(eval, Product(lists), DeviationsOf(lists), delta, 0, maxPasses)
  {
    assert AreStrategies(Product(lists)) by {
      ProductCovers(lists, CO);
    }
    r := NashSearch(eval, Product(lists), DeviationsOf(lists), delta, maxPasses);
  }

  /** `m` is non-empty and holds exactly the survivors among `points` at the
      margin, each with its own value. */
  ghost predicate Recorded(eval: Strategy -> Result<Expectancy>, points: seq<seq<int>>, d: Deviations, margin: real,
                           m: map<seq<int>, Expectancy>)
  {
    m != map[] &&
    (forall key :: key in m <==> key in points && Survives(eval, key, d, margin)) &&
    forall key :: key in m ==> Survives(eval, key, d, margin) && m[key] == eval(key).value
  }

  /** A pass from nothing that records something records exactly the
      survivors. */
  lemma PassRecords(eval: Strategy -> Result<Expectancy>, points: seq<seq<int>>, d: Deviations, margin: real)
    requires d.Valid() && AreStrategies(points)
    requires Pass(eval, points, d, margin, map[]).Ok? && Pass(eval, points, d, margin, map[]).value != map[]
    ensures Recorded(eval, points, d, margin, Pass(eval, points, d, margin, map[]).value)
  {
    PassMeaning(eval, points, d, margin, map[]);
  }

  /** What the search returns: the first pass k, at margin Margin(delta, k),
      that records a joint strategy; exactly the joint strategies that survive
      every unilateral deviation at that margin, each with its own value; and
      every earlier pass recorded nothing. */
  lemma NashMeaning(eval: Strategy -> Result<Expectancy>, points: seq<seq<int>>, d: Deviations, delta: real, maxPasses: nat)
    requires d.Valid() && AreStrategies(points)
    requires Search(eval, points, d, delta, 0, maxPasses).Ok?
    ensures exists k: nat :: k < maxPasses && StopsAt(eval, points, d, delta, 0, k, Search(eval, points, d, delta, 0, maxPasses).value) &&
                        Recorded(eval, points, d, Margin(delta, k), Search(eval, points, d, delta, 0, maxPasses).value)
  {
    var m := Search(eval, points, d, delta, 0, maxPasses).value;
    SearchMeaning(eval, points, d, delta, 0, maxPasses);
    var k: nat :| k < maxPasses && StopsAt(eval, points, d, delta, 0, k, m);
    PassRecords(eval, points, d, Margin(delta, k));
  }

  /** A joint strategy that survives under a margin survives under every
      larger one. */
  lemma SurvivesUnderLargerMargin(eval: Strategy -> Result<Expectancy>, p: seq<int>, d: Deviations, small: real, large: real)
    requires small <= large && Survives(eval, p, d, small)
    ensures Survives(eval, p, d, large)
  {
    forall seat ensures Withstands(eval, p, eval(p).value, seat, d.Of(seat), large) {
      var alts := d.Of(seat);
      assert Withstands(eval, p, eval(p).value, seat, alts, small);
      forall i | 0 <= i < |alts|
        ensures !Rejects(eval(Deviate(p, seat, alts[i])).value, eval(p).value, seat, large)
      {
        if Rejects(eval(Deviate(p, seat, alts[i])).value, eval(p).value, seat, large) {
          RejectsUnderSmallerMargin(eval(Deviate(p, seat, alts[i])).value, eval(p).value, seat, small, large);
        }
      }
    }
  }
}
