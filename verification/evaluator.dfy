/** calc_iteration_value: the expected value of every seat for one joint
    strategy. Each of the fifteen betting lines has a probability read from the
    scenario table; each contested line pays out by the equities of the
    all-in ranges read from the equity table; the four seat values are the
    probability-weighted sums of the per-line payoffs. Two consistency checks
    guard the result: the probabilities must add up to 1 and the four values
    must add up to 0. */
module Evaluator {
  import opened Failures
  import opened Scenarios
  import opened Probability
  import opened Equity
  import opened Strategies

  type ProbabilityTable = map<ProbabilityKey, real>

  /** How far the fifteen probabilities may add up from 1. */
  const ProbabilityError: real := 0.0015

  /** value_error, (Sb + !Sb) / 10: a tenth of the small blind, or 0.1 when
      the small blind is 0. */
  function ValueError(sb: real): (t: real)
    ensures sb == 0.0 ==> t == 0.1
    ensures sb != 0.0 ==> t * 10.0 == sb
  {
    (sb + (if sb == 0.0 then 1.0 else 0.0)) / 10.0
  }

  /** The fourteen range parameters of calc_iteration_value, in the order of
      its signature. */
  datatype RangeParams = RangeParams(
    co: int, de: int, sb: int, deCo: int, sbCo: int, sbDe: int,
    bbCo: int, bbDe: int, bbSb: int, sbCoDe: int, bbCoDe: int,
    bbCoSb: int, bbDeSb: int, bbCoDeSb: int)

  /** The argument list the searches pass for a joint strategy: the key order
      (co, de, de_co, sb, sb_co, sb_de, sb_co_de, bb_co, ...) rearranged into
      the signature order (co, de, sb, de_co, sb_co, sb_de, bb_co, bb_de,
      bb_sb, sb_co_de, ...). Each seat's private key holds exactly its own
      named ranges. */
  function ParamsOf(s: Strategy): (x: RangeParams)
    ensures Project(s, CO) == [x.co]
    ensures Project(s, DE) == [x.de, x.deCo]
    ensures Project(s, SB) == [x.sb, x.sbCo, x.sbDe, x.sbCoDe]
    ensures Project(s, BB) == [x.bbCo, x.bbDe, x.bbSb, x.bbCoDe, x.bbCoSb, x.bbDeSb, x.bbCoDeSb]
  {
    RangeParams(s[0], s[1], s[3], s[2], s[4], s[5], s[7], s[8], s[9], s[6], s[10], s[11], s[12], s[13])
  }

  /** Which seats go all-in on a betting line. */
  datatype Pushes = Pushes(co: bool, de: bool, sb: bool, bb: bool)
  {
    predicate Pushed(seat: Seat)
    {
      match seat
      case CO => co
      case DE => de
      case SB => sb
      case BB => bb
    }

    function Count(): nat
    {
      (if co then 1 else 0) + (if de then 1 else 0) + (if sb then 1 else 0) + (if bb then 1 else 0)
    }

    /** How many of the seats acting before `seat` go all-in. */
    function Before(seat: Seat): nat
    {
      match seat
      case CO => 0
      case DE => if co then 1 else 0
      case SB => (if co then 1 else 0) + (if de then 1 else 0)
      case BB => (if co then 1 else 0) + (if de then 1 else 0) + (if sb then 1 else 0)
    }
  }

  /** The seats a scenario's name lists as raising. */
  function PushesOf(sc: Scenario): Pushes
  {
    match sc
    case EmptyBigblind => Pushes(false, false, false, false)
    case OneraiseCutoff => Pushes(true, false, false, false)
    case OneraiseDealer => Pushes(false, true, false, false)
    case OneraiseSmallblind => Pushes(false, false, true, false)
    case TworaisesCutoffDealer => Pushes(true, true, false, false)
    case TworaisesCutoffSmallblind => Pushes(true, false, true, false)
    case TworaisesCutoffBigblind => Pushes(true, false, false, true)
    case TworaisesDealerSmallblind => Pushes(false, true, true, false)
    case TworaisesDealerBigblind => Pushes(false, true, false, true)
    case TworaisesSmallblindBigblind => Pushes(false, false, true, true)
    case ThreeraisesCutoffDealerSmallblind => Pushes(true, true, true, false)
    case ThreeraisesCutoffDealerBigblind => Pushes(true, true, false, true)
    case ThreeraisesCutoffSmallblindBigblind => Pushes(true, false, true, true)
    case ThreeraisesDealerSmallblindBigblind => Pushes(false, true, true, true)
    case FourraisesCutoffDealerSmallblindBigblind => Pushes(true, true, true, true)
  }

  /** The range a seat plays with, chosen by which of the seats acting before
      it went all-in (later seats do not matter). The big blind has no range
      to choose when nobody went all-in before it; its entry is then 0. */
  function RangeFacing(x: RangeParams, p: Pushes, seat: Seat): int
  {
    match seat
    case CO => x.co
    case DE => if p.co then x.deCo else x.de
    case SB =>
      if p.co && p.de then x.sbCoDe
      else if p.co then x.sbCo
      else if p.de then x.sbDe
      else x.sb
    case BB =>
      if p.co && p.de && p.sb then x.bbCoDeSb
      else if p.co && p.de then x.bbCoDe
      else if p.co && p.sb then x.bbCoSb
      else if p.de && p.sb then x.bbDeSb
      else if p.co then x.bbCo
      else if p.de then x.bbDe
      else if p.sb then x.bbSb
      else 0
  }

  /** The four ranges (co, de, sb, bb) the probability of a betting line is
      keyed by: each seat's range for the line, given who pushed before it. */
  function ScenarioRanges(x: RangeParams, sc: Scenario): (r: seq<int>)
    ensures var p := PushesOf(sc);
      r == [RangeFacing(x, p, CO), RangeFacing(x, p, DE), RangeFacing(x, p, SB), RangeFacing(x, p, BB)]
  {
    match sc
    case EmptyBigblind => [x.co, x.de, x.sb, 0]
    case OneraiseCutoff => [x.co, x.deCo, x.sbCo, x.bbCo]
    case OneraiseDealer => [x.co, x.de, x.sbDe, x.bbDe]
    case OneraiseSmallblind => [x.co, x.de, x.sb, x.bbSb]
    case TworaisesCutoffDealer => [x.co, x.deCo, x.sbCoDe, x.bbCoDe]
    case TworaisesCutoffSmallblind => [x.co, x.deCo, x.sbCo, x.bbCoSb]
    case TworaisesCutoffBigblind => [x.co, x.deCo, x.sbCo, x.bbCo]
    case TworaisesDealerSmallblind => [x.co, x.de, x.sbDe, x.bbDeSb]
    case TworaisesDealerBigblind => [x.co, x.de, x.sbDe, x.bbDe]
    case TworaisesSmallblindBigblind => [x.co, x.de, x.sb, x.bbSb]
    case ThreeraisesCutoffDealerSmallblind => [x.co, x.deCo, x.sbCoDe, x.bbCoDeSb]
    case ThreeraisesCutoffDealerBigblind => [x.co, x.deCo, x.sbCoDe, x.bbCoDe]
    case ThreeraisesCutoffSmallblindBigblind => [x.co, x.deCo, x.sbCo, x.bbCoSb]
    case ThreeraisesDealerSmallblindBigblind => [x.co, x.de, x.sbDe, x.bbDeSb]
    case FourraisesCutoffDealerSmallblindBigblind => [x.co, x.deCo, x.sbCoDe, x.bbCoDeSb]
  }

  /** The probability of a betting line, as a fraction (the table holds
      percentages). */
  function Prob(probT: ProbabilityTable, x: RangeParams, sc: Scenario): (r: real)
    ensures var p := PushesOf(sc);
      var key := KeyOf(RangeFacing(x, p, CO), RangeFacing(x, p, DE), RangeFacing(x, p, SB), RangeFacing(x, p, BB), sc);
      (key in probT ==> r == 0.01 * probT[key]) && (key !in probT ==> r == 0.0)
  {
    var k := ScenarioRanges(x, sc);
    0.01 * ProbabilityOf(probT, k[0], k[1], k[2], k[3], sc)
  }

  function ProbabilitySum(probT: ProbabilityTable, x: RangeParams): real
  {
    Prob(probT, x, EmptyBigblind) + Prob(probT, x, OneraiseCutoff) + Prob(probT, x, OneraiseDealer) +
    Prob(probT, x, OneraiseSmallblind) + Prob(probT, x, TworaisesCutoffDealer) +
    Prob(probT, x, TworaisesCutoffSmallblind) + Prob(probT, x, TworaisesCutoffBigblind) +
    Prob(probT, x, TworaisesDealerSmallblind) + Prob(probT, x, TworaisesDealerBigblind) +
    Prob(probT, x, TworaisesSmallblindBigblind) + Prob(probT, x, ThreeraisesCutoffDealerSmallblind) +
    Prob(probT, x, ThreeraisesCutoffDealerBigblind) + Prob(probT, x, ThreeraisesCutoffSmallblindBigblind) +
    Prob(probT, x, ThreeraisesDealerSmallblindBigblind) + Prob(probT, x, FourraisesCutoffDealerSmallblindBigblind)
  }

  /** The eleven equity lookups: every two-, three- and four-way showdown of
      the all-in ranges, zero ranges filling the empty seats. */
  datatype Showdowns = Showdowns(
    coVde: Expectancy, coVsb: Expectancy, coVbb: Expectancy,
    deVsb: Expectancy, deVbb: Expectancy, sbVbb: Expectancy,
    coVdeVsb: Expectancy, coVdeVbb: Expectancy, coVsbVbb: Expectancy,
    deVsbVbb: Expectancy, all: Expectancy)

  /** The lookups in the order the program makes them; the first one that
      fails decides the failure. */
  function LookupShowdowns(eqT: EquityTable, x: RangeParams): (r: Result<Showdowns>)
    ensures r.Err? ==> r.error == EquityMissing || r.error == EquityDivergent
  {
    var coVde :- GetRangesEquity(eqT, 0, 0, x.co, x.deCo);
    var coVsb :- GetRangesEquity(eqT, 0, 0, x.co, x.sbCo);
    var coVbb :- GetRangesEquity(eqT, 0, 0, x.co, x.bbCo);
    var deVsb :- GetRangesEquity(eqT, 0, 0, x.de, x.sbDe);
    var deVbb :- GetRangesEquity(eqT, 0, 0, x.de, x.bbDe);
    var sbVbb :- GetRangesEquity(eqT, 0, 0, x.sb, x.bbSb);
    var coVdeVsb :- GetRangesEquity(eqT, 0, x.co, x.deCo, x.sbCoDe);
    var coVdeVbb :- GetRangesEquity(eqT, 0, x.co, x.deCo, x.bbCoDe);
    var coVsbVbb :- GetRangesEquity(eqT, 0, x.co, x.sbCo, x.bbCoSb);
    var deVsbVbb :- GetRangesEquity(eqT, 0, x.de, x.sbDe, x.bbDeSb);
    var all :- GetRangesEquity(eqT, x.co, x.deCo, x.sbCoDe, x.bbCoDeSb);
    Ok(Showdowns(coVde, coVsb, coVbb, deVsb, deVbb, sbVbb, coVdeVsb, coVdeVbb, coVsbVbb, deVsbVbb, all))
  }

  /** The lookup the showdown of the seats in `p` needs: the ranges those
      seats play with, in seat order, after enough zeros to make four. */
  function ShowdownQuery(x: RangeParams, p: Pushes): seq<int>
  {
    var rs := (if p.co then [RangeFacing(x, p, CO)] else []) + (if p.de then [RangeFacing(x, p, DE)] else []) +
              (if p.sb then [RangeFacing(x, p, SB)] else []) + (if p.bb then [RangeFacing(x, p, BB)] else []);
    seq(4 - |rs|, _ => 0) + rs
  }

  /** The lookup result the payoffs read for a showdown among the seats in
      `p`; a line with fewer than two seats all-in has no showdown. */
  function ShowdownFor(sd: Showdowns, p: Pushes): Expectancy
  {
    match p
    case Pushes(true, true, false, false) => sd.coVde
    case Pushes(true, false, true, false) => sd.coVsb
    case Pushes(true, false, false, true) => sd.coVbb
    case Pushes(false, true, true, false) => sd.deVsb
    case Pushes(false, true, false, true) => sd.deVbb
    case Pushes(false, false, true, true) => sd.sbVbb
    case Pushes(true, true, true, false) => sd.coVdeVsb
    case Pushes(true, true, false, true) => sd.coVdeVbb
    case Pushes(true, false, true, true) => sd.coVsbVbb
    case Pushes(false, true, true, true) => sd.deVsbVbb
    case Pushes(true, true, true, true) => sd.all
    case _ => [0.0, 0.0, 0.0, 0.0]
  }

  /** Where a seat that went all-in finds its equity in the showdown's
      result: after the zero padding, at its rank among the seats all-in. */
  function Slot(p: Pushes, seat: Seat): (i: nat)
    requires p.Pushed(seat)
    ensures i < 4
  {
    4 - p.Count() + p.Before(seat)
  }

  /** The eleven lookups ask, for every set of two or more seats going
      all-in, the equities of the ranges those seats play with. The lookups
      succeed exactly when every one of them does, and then each answer is
      stored where the payoffs read it; a failure is that of one of them. */
  lemma LookupsQueryThePushers(eqT: EquityTable, x: RangeParams)
    ensures LookupShowdowns(eqT, x).Ok? <==>
      forall p: Pushes :: p.Count() >= 2 ==> RangesEquity(eqT, ShowdownQuery(x, p)).Ok?
    ensures LookupShowdowns(eqT, x).Ok? ==>
      forall p: Pushes :: p.Count() >= 2 ==>
        RangesEquity(eqT, ShowdownQuery(x, p)) == Ok(ShowdownFor(LookupShowdowns(eqT, x).value, p))
    ensures LookupShowdowns(eqT, x).Err? ==>
      exists p: Pushes :: p.Count() >= 2 && RangesEquity(eqT, ShowdownQuery(x, p)) == Err(LookupShowdowns(eqT, x).error)
  {
    ShowdownQueries(x);
    if LookupShowdowns(eqT, x).Ok? {
      LookupsAnswer(eqT, x);
    } else {
      LookupsFail(eqT, x);
    }
  }

  /** The eleven queries, written out. */
  lemma ShowdownQueries(x: RangeParams)
    ensures ShowdownQuery(x, Pushes(true, true, false, false)) == [0, 0, x.co, x.deCo]
    ensures ShowdownQuery(x, Pushes(true, false, true, false)) == [0, 0, x.co, x.sbCo]
    ensures ShowdownQuery(x, Pushes(true, false, false, true)) == [0, 0, x.co, x.bbCo]
    ensures ShowdownQuery(x, Pushes(false, true, true, false)) == [0, 0, x.de, x.sbDe]
    ensures ShowdownQuery(x, Pushes(false, true, false, true)) == [0, 0, x.de, x.bbDe]
    ensures ShowdownQuery(x, Pushes(false, false, true, true)) == [0, 0, x.sb, x.bbSb]
    ensures ShowdownQuery(x, Pushes(true, true, true, false)) == [0, x.co, x.deCo, x.sbCoDe]
    ensures ShowdownQuery(x, Pushes(true, true, false, true)) == [0, x.co, x.deCo, x.bbCoDe]
    ensures ShowdownQuery(x, Pushes(true, false, true, true)) == [0, x.co, x.sbCo, x.bbCoSb]
    ensures ShowdownQuery(x, Pushes(false, true, true, true)) == [0, x.de, x.sbDe, x.bbDeSb]
    ensures ShowdownQuery(x, Pushes(true, true, true, true)) == [x.co, x.deCo, x.sbCoDe, x.bbCoDeSb]
  {
  }

  /** Two or more seats all-in: one of the eleven showdowns. */
  lemma Contested(p: Pushes)
    requires p.Count() >= 2
    ensures p == Pushes(true, true, false, false) || p == Pushes(true, false, true, false) ||
            p == Pushes(true, false, false, true) || p == Pushes(false, true, true, false) ||
            p == Pushes(false, true, false, true) || p == Pushes(false, false, true, true) ||
            p == Pushes(true, true, true, false) || p == Pushes(true, true, false, true) ||
            p == Pushes(true, false, true, true) || p == Pushes(false, true, true, true) ||
            p == Pushes(true, true, true, true)
  {
  }

  lemma LookupsAnswer(eqT: EquityTable, x: RangeParams)
    requires LookupShowdowns(eqT, x).Ok?
    ensures forall p: Pushes :: p.Count() >= 2 ==>
      RangesEquity(eqT, ShowdownQuery(x, p)) == Ok(ShowdownFor(LookupShowdowns(eqT, x).value, p))
  {
    ShowdownQueries(x);
    LookupsAnswerEach(eqT, x);
    forall p: Pushes | p.Count() >= 2
      ensures RangesEquity(eqT, ShowdownQuery(x, p)) == Ok(ShowdownFor(LookupShowdowns(eqT, x).value, p))
    {
      Contested(p);
    }
  }

  /** Where each of the eleven answers is stored. */
  lemma LookupsAnswerEach(eqT: EquityTable, x: RangeParams)
    requires LookupShowdowns(eqT, x).Ok?
    ensures var sd := LookupShowdowns(eqT, x).value;
      RangesEquity(eqT, [0, 0, x.co, x.deCo]) == Ok(sd.coVde) &&
      RangesEquity(eqT, [0, 0, x.co, x.sbCo]) == Ok(sd.coVsb) &&
      RangesEquity(eqT, [0, 0, x.co, x.bbCo]) == Ok(sd.coVbb) &&
      RangesEquity(eqT, [0, 0, x.de, x.sbDe]) == Ok(sd.deVsb) &&
      RangesEquity(eqT, [0, 0, x.de, x.bbDe]) == Ok(sd.deVbb) &&
      RangesEquity(eqT, [0, 0, x.sb, x.bbSb]) == Ok(sd.sbVbb) &&
      RangesEquity(eqT, [0, x.co, x.deCo, x.sbCoDe]) == Ok(sd.coVdeVsb) &&
      RangesEquity(eqT, [0, x.co, x.deCo, x.bbCoDe]) == Ok(sd.coVdeVbb) &&
      RangesEquity(eqT, [0, x.co, x.sbCo, x.bbCoSb]) == Ok(sd.coVsbVbb) &&
      RangesEquity(eqT, [0, x.de, x.sbDe, x.bbDeSb]) == Ok(sd.deVsbVbb) &&
      RangesEquity(eqT, [x.co, x.deCo, x.sbCoDe, x.bbCoDeSb]) == Ok(sd.all)
  {
  }

  lemma LookupsFail(eqT: EquityTable, x: RangeParams)
    requires LookupShowdowns(eqT, x).Err?
    ensures exists p: Pushes :: p.Count() >= 2 && RangesEquity(eqT, ShowdownQuery(x, p)) == Err(LookupShowdowns(eqT, x).error)
    ensures !forall p: Pushes :: p.Count() >= 2 ==> RangesEquity(eqT, ShowdownQuery(x, p)).Ok?
  {
    ShowdownQueries(x);
    var e := LookupShowdowns(eqT, x).error;
    var p: Pushes;
    if GetRangesEquity(eqT, 0, 0, x.co, x.deCo).Err? { p := Pushes(true, true, false, false); }
    else if GetRangesEquity(eqT, 0, 0, x.co, x.sbCo).Err? { p := Pushes(true, false, true, false); }
    else if GetRangesEquity(eqT, 0, 0, x.co, x.bbCo).Err? { p := Pushes(true, false, false, true); }
    else if GetRangesEquity(eqT, 0, 0, x.de, x.sbDe).Err? { p := Pushes(false, true, true, false); }
    else if GetRangesEquity(eqT, 0, 0, x.de, x.bbDe).Err? { p := Pushes(false, true, false, true); }
    else if GetRangesEquity(eqT, 0, 0, x.sb, x.bbSb).Err? { p := Pushes(false, false, true, true); }
    else if GetRangesEquity(eqT, 0, x.co, x.deCo, x.sbCoDe).Err? { p := Pushes(true, true, true, false); }
    else if GetRangesEquity(eqT, 0, x.co, x.deCo, x.bbCoDe).Err? { p := Pushes(true, true, false, true); }
    else if GetRangesEquity(eqT, 0, x.co, x.sbCo, x.bbCoSb).Err? { p := Pushes(true, false, true, true); }
    else if GetRangesEquity(eqT, 0, x.de, x.sbDe, x.bbDeSb).Err? { p := Pushes(false, true, true, true); }
    else { p := Pushes(true, true, true, true); }
    assert p.Count() >= 2 && RangesEquity(eqT, ShowdownQuery(x, p)) == Err(e);
  }

  /** The blinds and the all-in stack. */
  datatype Stakes = Stakes(allIn: real, bb: real, sb: real)

  /** What a seat wins in a showdown: its share of the pot minus its all-in. */
  function Showdown(st: Stakes, equity: real, pot: real): real
  {
    0.01 * equity * pot - st.allIn
  }

  /** The payoff of the cut-off on each betting line. */
  function CoGain(st: Stakes, sd: Showdowns, sc: Scenario): real
  {
    var a, b, s := st.allIn, st.bb, st.sb;
    match sc
    case EmptyBigblind => 0.0
    case OneraiseCutoff => s + b
    case OneraiseDealer => 0.0
    case OneraiseSmallblind => 0.0
    case TworaisesCutoffDealer => Showdown(st, sd.coVde[2], 2.0 * a + s + b)
    case TworaisesCutoffSmallblind => Showdown(st, sd.coVsb[2], 2.0 * a + b)
    case TworaisesCutoffBigblind => Showdown(st, sd.coVbb[2], 2.0 * a + s)
    case TworaisesDealerSmallblind => 0.0
    case TworaisesDealerBigblind => 0.0
    case TworaisesSmallblindBigblind => 0.0
    case ThreeraisesCutoffDealerSmallblind => Showdown(st, sd.coVdeVsb[1], 3.0 * a + b)
    case ThreeraisesCutoffDealerBigblind => Showdown(st, sd.coVdeVbb[1], 3.0 * a + s)
    case ThreeraisesCutoffSmallblindBigblind => Showdown(st, sd.coVsbVbb[1], 3.0 * a)
    case ThreeraisesDealerSmallblindBigblind => 0.0
    case FourraisesCutoffDealerSmallblindBigblind => Showdown(st, sd.all[0], 4.0 * a)
  }

  /** The payoff of the dealer on each betting line. */
  function DeGain(st: Stakes, sd: Showdowns, sc: Scenario): real
  {
    var a, b, s := st.allIn, st.bb, st.sb;
    match sc
    case EmptyBigblind => 0.0
    case OneraiseCutoff => 0.0
    case OneraiseDealer => s + b
    case OneraiseSmallblind => 0.0
    case TworaisesCutoffDealer => Showdown(st, sd.coVde[3], 2.0 * a + s + b)
    case TworaisesCutoffSmallblind => 0.0
    case TworaisesCutoffBigblind => 0.0
    case TworaisesDealerSmallblind => Showdown(st, sd.deVsb[2], 2.0 * a + b)
    case TworaisesDealerBigblind => Showdown(st, sd.deVbb[2], 2.0 * a + s)
    case TworaisesSmallblindBigblind => 0.0
    case ThreeraisesCutoffDealerSmallblind => Showdown(st, sd.coVdeVsb[2], 3.0 * a + b)
    case ThreeraisesCutoffDealerBigblind => Showdown(st, sd.coVdeVbb[2], 3.0 * a + s)
    case ThreeraisesCutoffSmallblindBigblind => 0.0
    case ThreeraisesDealerSmallblindBigblind => Showdown(st, sd.deVsbVbb[1], 3.0 * a)
    case FourraisesCutoffDealerSmallblindBigblind => Showdown(st, sd.all[1], 4.0 * a)
  }

  /** The payoff of the small blind on each betting line. */
  function SbGain(st: Stakes, sd: Showdowns, sc: Scenario): real
  {
    var a, b, s := st.allIn, st.bb, st.sb;
    match sc
    case EmptyBigblind => -s
    case OneraiseCutoff => -s
    case OneraiseDealer => -s
    case OneraiseSmallblind => b
    case TworaisesCutoffDealer => -s
    case TworaisesCutoffSmallblind => Showdown(st, sd.coVsb[3], 2.0 * a + b)
    case TworaisesCutoffBigblind => -s
    case TworaisesDealerSmallblind => Showdown(st, sd.deVsb[3], 2.0 * a + b)
    case TworaisesDealerBigblind => -s
    case TworaisesSmallblindBigblind => Showdown(st, sd.sbVbb[2], 2.0 * a)
    case ThreeraisesCutoffDealerSmallblind => Showdown(st, sd.coVdeVsb[3], 3.0 * a + b)
    case ThreeraisesCutoffDealerBigblind => -s
    case ThreeraisesCutoffSmallblindBigblind => Showdown(st, sd.coVsbVbb[2], 3.0 * a)
    case ThreeraisesDealerSmallblindBigblind => Showdown(st, sd.deVsbVbb[2], 3.0 * a)
    case FourraisesCutoffDealerSmallblindBigblind => Showdown(st, sd.all[2], 4.0 * a)
  }

  /** The payoff of the big blind on each betting line. */
  function BbGain(st: Stakes, sd: Showdowns, sc: Scenario): real
  {
    var a, b, s := st.allIn, st.bb, st.sb;
    match sc
    case EmptyBigblind => s
    case OneraiseCutoff => -b
    case OneraiseDealer => -b
    case OneraiseSmallblind => -b
    case TworaisesCutoffDealer => -b
    case TworaisesCutoffSmallblind => -b
    case TworaisesCutoffBigblind => Showdown(st, sd.coVbb[3], 2.0 * a + s)
    case TworaisesDealerSmallblind => -b
    case TworaisesDealerBigblind => Showdown(st, sd.deVbb[3], 2.0 * a + s)
    case TworaisesSmallblindBigblind => Showdown(st, sd.sbVbb[3], 2.0 * a)
    case ThreeraisesCutoffDealerSmallblind => -b
    case ThreeraisesCutoffDealerBigblind => Showdown(st, sd.coVdeVbb[3], 3.0 * a + s)
    case ThreeraisesCutoffSmallblindBigblind => Showdown(st, sd.coVsbVbb[3], 3.0 * a)
    case ThreeraisesDealerSmallblindBigblind => Showdown(st, sd.deVsbVbb[3], 3.0 * a)
    case FourraisesCutoffDealerSmallblindBigblind => Showdown(st, sd.all[3], 4.0 * a)
  }

  function Gain(seat: Seat, st: Stakes, sd: Showdowns, sc: Scenario): real
  {
    match seat
    case CO => CoGain(st, sd, sc)
    case DE => DeGain(st, sd, sc)
    case SB => SbGain(st, sd, sc)
    case BB => BbGain(st, sd, sc)
  }

  /** One line's contribution to a seat's expected value. */
  function Term(probT: ProbabilityTable, x: RangeParams, st: Stakes, sd: Showdowns, seat: Seat, sc: Scenario): real
  {
    Prob(probT, x, sc) * Gain(seat, st, sd, sc)
  }

  /** A seat's expected value: its payoff on each line weighted by the line's
      probability. */
  function Expected(probT: ProbabilityTable, x: RangeParams, st: Stakes, sd: Showdowns, seat: Seat): real
  {
    Term(probT, x, st, sd, seat, EmptyBigblind) +
    Term(probT, x, st, sd, seat, OneraiseCutoff) +
    Term(probT, x, st, sd, seat, OneraiseDealer) +
    Term(probT, x, st, sd, seat, OneraiseSmallblind) +
    Term(probT, x, st, sd, seat, TworaisesCutoffDealer) +
    Term(probT, x, st, sd, seat, TworaisesCutoffSmallblind) +
    Term(probT, x, st, sd, seat, TworaisesCutoffBigblind) +
    Term(probT, x, st, sd, seat, TworaisesDealerSmallblind) +
    Term(probT, x, st, sd, seat, TworaisesDealerBigblind) +
    Term(probT, x, st, sd, seat, TworaisesSmallblindBigblind) +
    Term(probT, x, st, sd, seat, ThreeraisesCutoffDealerSmallblind) +
    Term(probT, x, st, sd, seat, ThreeraisesCutoffDealerBigblind) +
    Term(probT, x, st, sd, seat, ThreeraisesCutoffSmallblindBigblind) +
    Term(probT, x, st, sd, seat, ThreeraisesDealerSmallblindBigblind) +
    Term(probT, x, st, sd, seat, FourraisesCutoffDealerSmallblindBigblind)
  }

  function Values(probT: ProbabilityTable, x: RangeParams, st: Stakes, sd: Showdowns): Expectancy
  {
    var v: seq<real> := seq(4, i requires 0 <= i < 4 => Expected(probT, x, st, sd, Seats[i]));
    v
  }

  /** Each seat's entry of the values is its expected value. */
  lemma ValuesPerSeat(probT: ProbabilityTable, x: RangeParams, st: Stakes, sd: Showdowns)
    ensures forall seat: Seat :: Values(probT, x, st, sd)[SeatIndex(seat)] == Expected(probT, x, st, sd, seat)
  {
  }

  /** The sum of `f` over a list of betting lines. */
  function LineSum(f: Scenario -> real, lines: seq<Scenario>): real
  {
    if |lines| == 0 then 0.0 else f(lines[0]) + LineSum(f, lines[1..])
  }

  /** The probabilities checked against 1 are those of every betting line. */
  lemma ProbabilitySumOverLines(probT: ProbabilityTable, x: RangeParams)
    ensures ProbabilitySum(probT, x) == LineSum(sc => Prob(probT, x, sc), AllScenarios)
  {
    var f := sc => Prob(probT, x, sc);
    LineSumUnfolds(f);
  }

  /** A seat's payoff on each line weighted by the line's probability. */
  function WeightedPayoff(probT: ProbabilityTable, x: RangeParams, st: Stakes, sd: Showdowns, seat: Seat): Scenario -> real
  {
    sc => Prob(probT, x, sc) * Payoff(st, sd, sc, seat)
  }

  /** A seat's expected value is the payoff rule of every line weighted by the
      line's probability. */
  lemma ExpectedOverLines(probT: ProbabilityTable, x: RangeParams, st: Stakes, sd: Showdowns, seat: Seat)
    ensures Expected(probT, x, st, sd, seat) == LineSum(WeightedPayoff(probT, x, st, sd, seat), AllScenarios)
  {
    var f := WeightedPayoff(probT, x, st, sd, seat);
    forall sc
      ensures Term(probT, x, st, sd, seat, sc) == f(sc)
    {
      TermIsWeightedPayoff(probT, x, st, sd, sc, seat);
    }
    ExpectedSumsTerms(probT, x, st, sd, seat, f);
  }

  /** Any function giving each line's term sums to the expected value. */
  lemma ExpectedSumsTerms(probT: ProbabilityTable, x: RangeParams, st: Stakes, sd: Showdowns, seat: Seat,
                          f: Scenario -> real)
    requires forall sc :: f(sc) == Term(probT, x, st, sd, seat, sc)
    ensures Expected(probT, x, st, sd, seat) == LineSum(f, AllScenarios)
  {
    LineSumUnfolds(f);
  }

  lemma TermIsWeightedPayoff(probT: ProbabilityTable, x: RangeParams, st: Stakes, sd: Showdowns, sc: Scenario, seat: Seat)
    ensures Term(probT, x, st, sd, seat, sc) == WeightedPayoff(probT, x, st, sd, seat)(sc)
  {
    GainIsPayoff(st, sd, sc, seat);
  }

  /** Each seat's transcribed payoff table follows the payoff rule. */
  lemma GainIsPayoff(st: Stakes, sd: Showdowns, sc: Scenario, seat: Seat)
    ensures Gain(seat, st, sd, sc) == Payoff(st, sd, sc, seat)
  {
    match seat
    case CO => CoGainIsPayoff(st, sd, sc);
    case DE => DeGainIsPayoff(st, sd, sc);
    case SB => SbGainIsPayoff(st, sd, sc);
    case BB => BbGainIsPayoff(st, sd, sc);
  }

  lemma CoGainIsPayoff(st: Stakes, sd: Showdowns, sc: Scenario)
    ensures CoGain(st, sd, sc) == Payoff(st, sd, sc, CO)
  {
  }

  lemma DeGainIsPayoff(st: Stakes, sd: Showdowns, sc: Scenario)
    ensures DeGain(st, sd, sc) == Payoff(st, sd, sc, DE)
  {
  }

  lemma SbGainIsPayoff(st: Stakes, sd: Showdowns, sc: Scenario)
    ensures SbGain(st, sd, sc) == Payoff(st, sd, sc, SB)
  {
  }

  lemma BbGainIsPayoff(st: Stakes, sd: Showdowns, sc: Scenario)
    ensures BbGain(st, sd, sc) == Payoff(st, sd, sc, BB)
  {
  }


  /** The sum over all fifteen lines written out. */
  lemma LineSumUnfolds(f: Scenario -> real)
    ensures LineSum(f, AllScenarios) ==
      f(EmptyBigblind) + f(OneraiseCutoff) + f(OneraiseDealer) + f(OneraiseSmallblind) +
      f(TworaisesCutoffDealer) + f(TworaisesCutoffSmallblind) + f(TworaisesCutoffBigblind) +
      f(TworaisesDealerSmallblind) + f(TworaisesDealerBigblind) + f(TworaisesSmallblindBigblind) +
      f(ThreeraisesCutoffDealerSmallblind) + f(ThreeraisesCutoffDealerBigblind) +
      f(ThreeraisesCutoffSmallblindBigblind) + f(ThreeraisesDealerSmallblindBigblind) +
      f(FourraisesCutoffDealerSmallblindBigblind)
  {
    var a := AllScenarios;
    assert LineSum(f, a[15..]) == 0.0;
    assert LineSum(f, a[14..]) == f(a[14]) + LineSum(f, a[15..]);
    assert LineSum(f, a[13..]) == f(a[13]) + LineSum(f, a[14..]);
    assert LineSum(f, a[12..]) == f(a[12]) + LineSum(f, a[13..]);
    assert LineSum(f, a[11..]) == f(a[11]) + LineSum(f, a[12..]);
    assert LineSum(f, a[10..]) == f(a[10]) + LineSum(f, a[11..]);
    assert LineSum(f, a[9..]) == f(a[9]) + LineSum(f, a[10..]);
    assert LineSum(f, a[8..]) == f(a[8]) + LineSum(f, a[9..]);
    assert LineSum(f, a[7..]) == f(a[7]) + LineSum(f, a[8..]);
    assert LineSum(f, a[6..]) == f(a[6]) + LineSum(f, a[7..]);
    assert LineSum(f, a[5..]) == f(a[5]) + LineSum(f, a[6..]);
    assert LineSum(f, a[4..]) == f(a[4]) + LineSum(f, a[5..]);
    assert LineSum(f, a[3..]) == f(a[3]) + LineSum(f, a[4..]);
    assert LineSum(f, a[2..]) == f(a[2]) + LineSum(f, a[3..]);
    assert LineSum(f, a[1..]) == f(a[1]) + LineSum(f, a[2..]);
    assert a[0..] == a;
  }

  /** calc_iteration_value(AllIn, Bb, Sb, ...). A returned value passed both
      checks; failing the first check is the probability error whatever the
      tables hold. */
  function CalcIterationValue(allIn: real, bb: real, sb: real, x: RangeParams,
                              eqT: EquityTable, probT: ProbabilityTable): (r: Result<Expectancy>)
    ensures r.Ok? ==> Abs(ProbabilitySum(probT, x) - 1.0) <= ProbabilityError
    ensures r.Ok? ==> Abs(r.value[0] + r.value[1] + r.value[2] + r.value[3]) <= ValueError(sb)
    ensures Abs(ProbabilitySum(probT, x) - 1.0) > ProbabilityError ==> r == Err(ProbabilityDivergent)
  {
    if Abs(ProbabilitySum(probT, x) - 1.0) > ProbabilityError then Err(ProbabilityDivergent)
    else
      var sd :- LookupShowdowns(eqT, x);
      ZeroSumCheck(Values(probT, x, Stakes(allIn, bb, sb), sd), sb)
  }

  /** calc_iteration_value fails only by one of its own checks: the
      probability sum, an equity lookup, or the zero-sum check. */
  lemma IterationFailures(allIn: real, bb: real, sb: real, x: RangeParams, eqT: EquityTable, probT: ProbabilityTable)
    ensures var r := CalcIterationValue(allIn, bb, sb, x, eqT, probT);
      r.Err? ==> r.error == ProbabilityDivergent || r.error == EquityMissing ||
                 r.error == EquityDivergent || r.error == ValueDivergent
  {
    if Abs(ProbabilitySum(probT, x) - 1.0) <= ProbabilityError {
      var l := LookupShowdowns(eqT, x);
      if l.Ok? {
        var v := Values(probT, x, Stakes(allIn, bb, sb), l.value);
        assert CalcIterationValue(allIn, bb, sb, x, eqT, probT) == ZeroSumCheck(v, sb);
      }
    }
  }

  /** The value_error check on the four seat values. */
  function ZeroSumCheck(v: Expectancy, sb: real): (r: Result<Expectancy>)
    ensures r.Ok? <==> Abs(v[0] + v[1] + v[2] + v[3]) <= ValueError(sb)
    ensures r.Ok? ==> r.value == v
    ensures r.Err? ==> r.error == ValueDivergent
  {
    if Abs(v[0] + v[1] + v[2] + v[3]) > ValueError(sb) then Err(ValueDivergent) else Ok(v)
  }

  /** The evaluator the searches use: the joint strategy's ranges passed in
      signature order, with the blinds as the searches pass them. */
  function Evaluate(eqT: EquityTable, probT: ProbabilityTable, allIn: real, sb: real, bb: real,
                    s: Strategy): Result<Expectancy>
  {
    CalcIterationValue(allIn, bb, sb, ParamsOf(s), eqT, probT)
  }

  /** The pot of a contested line (every all-in plus the blinds of the seats
      that folded); 0 on a line nobody calls. */
  function Pot(st: Stakes, sc: Scenario): (r: real)
    ensures var p := PushesOf(sc);
      p.Count() >= 2 ==> r == p.Count() as real * st.allIn + (if p.sb then 0.0 else st.sb) + (if p.bb then 0.0 else st.bb)
    ensures PushesOf(sc).Count() < 2 ==> r == 0.0
  {
    var a, b, s := st.allIn, st.bb, st.sb;
    match sc
    case TworaisesCutoffDealer => 2.0 * a + s + b
    case TworaisesCutoffSmallblind => 2.0 * a + b
    case TworaisesCutoffBigblind => 2.0 * a + s
    case TworaisesDealerSmallblind => 2.0 * a + b
    case TworaisesDealerBigblind => 2.0 * a + s
    case TworaisesSmallblindBigblind => 2.0 * a
    case ThreeraisesCutoffDealerSmallblind => 3.0 * a + b
    case ThreeraisesCutoffDealerBigblind => 3.0 * a + s
    case ThreeraisesCutoffSmallblindBigblind => 3.0 * a
    case ThreeraisesDealerSmallblindBigblind => 3.0 * a
    case FourraisesCutoffDealerSmallblindBigblind => 4.0 * a
    case _ => 0.0
  }

  /** What a seat has posted before the action: its blind. */
  function Blind(st: Stakes, seat: Seat): real
  {
    match seat
    case SB => st.sb
    case BB => st.bb
    case _ => 0.0
  }

  /** The payoff rule of every betting line. A seat that folds loses what it
      posted. When one seat goes all-in it collects both blinds, and when
      nobody does the big blind collects them; either way it gets back its
      own. When several go all-in, each of them gets its equity share of the
      pot, read from the showdown of exactly those seats, minus its all-in. */
  function Payoff(st: Stakes, sd: Showdowns, sc: Scenario, seat: Seat): real
  {
    var p := PushesOf(sc);
    if p.Count() >= 2 && p.Pushed(seat) then Showdown(st, ShowdownFor(sd, p)[Slot(p, seat)], Pot(st, sc))
    else if p.Pushed(seat) || (p.Count() == 0 && seat == BB) then st.sb + st.bb - Blind(st, seat)
    else -Blind(st, seat)
  }

  /** The total equity the payoffs hand out on a contested line: the slots of
      the showdown that belong to the all-in seats. It is 100 when the table
      is consistent. */
  function Share(sd: Showdowns, sc: Scenario): real
  {
    match sc
    case TworaisesCutoffDealer => sd.coVde[2] + sd.coVde[3]
    case TworaisesCutoffSmallblind => sd.coVsb[2] + sd.coVsb[3]
    case TworaisesCutoffBigblind => sd.coVbb[2] + sd.coVbb[3]
    case TworaisesDealerSmallblind => sd.deVsb[2] + sd.deVsb[3]
    case TworaisesDealerBigblind => sd.deVbb[2] + sd.deVbb[3]
    case TworaisesSmallblindBigblind => sd.sbVbb[2] + sd.sbVbb[3]
    case ThreeraisesCutoffDealerSmallblind => sd.coVdeVsb[1] + sd.coVdeVsb[2] + sd.coVdeVsb[3]
    case ThreeraisesCutoffDealerBigblind => sd.coVdeVbb[1] + sd.coVdeVbb[2] + sd.coVdeVbb[3]
    case ThreeraisesCutoffSmallblindBigblind => sd.coVsbVbb[1] + sd.coVsbVbb[2] + sd.coVsbVbb[3]
    case ThreeraisesDealerSmallblindBigblind => sd.deVsbVbb[1] + sd.deVsbVbb[2] + sd.deVsbVbb[3]
    case FourraisesCutoffDealerSmallblindBigblind => sd.all[0] + sd.all[1] + sd.all[2] + sd.all[3]
    case _ => 100.0
  }

  /** On every line the four payoffs add up to what the showdown hands out
      beyond the pot: nothing on an uncontested line (the blinds only change
      hands), and pot * (share / 100 - 1) on a contested one. */
  lemma LineImbalance(st: Stakes, sd: Showdowns, sc: Scenario)
    ensures CoGain(st, sd, sc) + DeGain(st, sd, sc) + SbGain(st, sd, sc) + BbGain(st, sd, sc)
         == Pot(st, sc) * (0.01 * Share(sd, sc) - 1.0)
  {
    match sc
    case EmptyBigblind =>
    case OneraiseCutoff =>
    case OneraiseDealer =>
    case OneraiseSmallblind =>
    case TworaisesCutoffDealer =>
    case TworaisesCutoffSmallblind =>
    case TworaisesCutoffBigblind =>
    case TworaisesDealerSmallblind =>
    case TworaisesDealerBigblind =>
    case TworaisesSmallblindBigblind =>
    case ThreeraisesCutoffDealerSmallblind =>
    case ThreeraisesCutoffDealerBigblind =>
    case ThreeraisesCutoffSmallblindBigblind =>
    case ThreeraisesDealerSmallblindBigblind =>
    case FourraisesCutoffDealerSmallblindBigblind =>
  }

  /** One line's excess equity, weighted by the line's probability. */
  function LineDefect(probT: ProbabilityTable, x: RangeParams, st: Stakes, sd: Showdowns, sc: Scenario): real
  {
    Prob(probT, x, sc) * (Pot(st, sc) * (0.01 * Share(sd, sc) - 1.0))
  }

  /** The probability-weighted excess equity over all lines. */
  function Defect(probT: ProbabilityTable, x: RangeParams, st: Stakes, sd: Showdowns): real
  {
    LineDefect(probT, x, st, sd, EmptyBigblind) +
    LineDefect(probT, x, st, sd, OneraiseCutoff) +
    LineDefect(probT, x, st, sd, OneraiseDealer) +
    LineDefect(probT, x, st, sd, OneraiseSmallblind) +
    LineDefect(probT, x, st, sd, TworaisesCutoffDealer) +
    LineDefect(probT, x, st, sd, TworaisesCutoffSmallblind) +
    LineDefect(probT, x, st, sd, TworaisesCutoffBigblind) +
    LineDefect(probT, x, st, sd, TworaisesDealerSmallblind) +
    LineDefect(probT, x, st, sd, TworaisesDealerBigblind) +
    LineDefect(probT, x, st, sd, TworaisesSmallblindBigblind) +
    LineDefect(probT, x, st, sd, ThreeraisesCutoffDealerSmallblind) +
    LineDefect(probT, x, st, sd, ThreeraisesCutoffDealerBigblind) +
    LineDefect(probT, x, st, sd, ThreeraisesCutoffSmallblindBigblind) +
    LineDefect(probT, x, st, sd, ThreeraisesDealerSmallblindBigblind) +
    LineDefect(probT, x, st, sd, FourraisesCutoffDealerSmallblindBigblind)
  }

  /** Weighting four payoffs by one probability weights their sum. */
  lemma Distribute(p: real, g1: real, g2: real, g3: real, g4: real, total: real)
    requires g1 + g2 + g3 + g4 == total
    ensures p * g1 + p * g2 + p * g3 + p * g4 == p * total
  {
  }

  /** A line's four weighted payoffs add up to its weighted excess equity. */
  lemma LineBalance(probT: ProbabilityTable, x: RangeParams, st: Stakes, sd: Showdowns, sc: Scenario)
    ensures Term(probT, x, st, sd, CO, sc) + Term(probT, x, st, sd, DE, sc) +
            Term(probT, x, st, sd, SB, sc) + Term(probT, x, st, sd, BB, sc) == LineDefect(probT, x, st, sd, sc)
  {
    var excess := Pot(st, sc) * (0.01 * Share(sd, sc) - 1.0);
    LineImbalance(st, sd, sc);
    assert Gain(CO, st, sd, sc) + Gain(DE, st, sd, sc) + Gain(SB, st, sd, sc) + Gain(BB, st, sd, sc) == excess;
    Distribute(Prob(probT, x, sc), Gain(CO, st, sd, sc), Gain(DE, st, sd, sc), Gain(SB, st, sd, sc), Gain(BB, st, sd, sc),
               excess);
  }

  /** The sum the value_error check measures is the probability-weighted
      excess equity of the contested lines, the blinds cancelling out. */
  lemma {:induction false} ZeroSumDefect(probT: ProbabilityTable, x: RangeParams, st: Stakes, sd: Showdowns)
    ensures Expected(probT, x, st, sd, CO) + Expected(probT, x, st, sd, DE) +
            Expected(probT, x, st, sd, SB) + Expected(probT, x, st, sd, BB) == Defect(probT, x, st, sd)
  {
    LineBalance(probT, x, st, sd, EmptyBigblind);
    LineBalance(probT, x, st, sd, OneraiseCutoff);
    LineBalance(probT, x, st, sd, OneraiseDealer);
    LineBalance(probT, x, st, sd, OneraiseSmallblind);
    LineBalance(probT, x, st, sd, TworaisesCutoffDealer);
    LineBalance(probT, x, st, sd, TworaisesCutoffSmallblind);
    LineBalance(probT, x, st, sd, TworaisesCutoffBigblind);
    LineBalance(probT, x, st, sd, TworaisesDealerSmallblind);
    LineBalance(probT, x, st, sd, TworaisesDealerBigblind);
    LineBalance(probT, x, st, sd, TworaisesSmallblindBigblind);
    LineBalance(probT, x, st, sd, ThreeraisesCutoffDealerSmallblind);
    LineBalance(probT, x, st, sd, ThreeraisesCutoffDealerBigblind);
    LineBalance(probT, x, st, sd, ThreeraisesCutoffSmallblindBigblind);
    LineBalance(probT, x, st, sd, ThreeraisesDealerSmallblindBigblind);
    LineBalance(probT, x, st, sd, FourraisesCutoffDealerSmallblindBigblind);
  }

  /** Once the probabilities pass and the lookups succeed, the value check
      fails exactly when the weighted excess equity is further than
      value_error from 0. */
  lemma ValueCheckMeasuresDefect(allIn: real, bb: real, sb: real, x: RangeParams,
                                 eqT: EquityTable, probT: ProbabilityTable)
    requires Abs(ProbabilitySum(probT, x) - 1.0) <= ProbabilityError
    requires LookupShowdowns(eqT, x).Ok?
    ensures var r := CalcIterationValue(allIn, bb, sb, x, eqT, probT);
      var sd := LookupShowdowns(eqT, x).value;
      (r.Ok? <==> Abs(Defect(probT, x, Stakes(allIn, bb, sb), sd)) <= ValueError(sb)) &&
      (r.Err? ==> r.error == ValueDivergent)
  {
    var st, sd := Stakes(allIn, bb, sb), LookupShowdowns(eqT, x).value;
    ValuesAddUpToDefect(probT, x, st, sd);
    assert CalcIterationValue(allIn, bb, sb, x, eqT, probT) == ZeroSumCheck(Values(probT, x, st, sd), sb);
  }

  /** The four seat values add up to the weighted excess equity. */
  lemma ValuesAddUpToDefect(probT: ProbabilityTable, x: RangeParams, st: Stakes, sd: Showdowns)
    ensures var v := Values(probT, x, st, sd); v[0] + v[1] + v[2] + v[3] == Defect(probT, x, st, sd)
  {
    var v := Values(probT, x, st, sd);
    assert v[0] == Expected(probT, x, st, sd, CO) && v[1] == Expected(probT, x, st, sd, DE);
    assert v[2] == Expected(probT, x, st, sd, SB) && v[3] == Expected(probT, x, st, sd, BB);
    ZeroSumDefect(probT, x, st, sd);
  }

  /** With an equity table whose all-in seats' equities add up to exactly 100
      on every contested line, and a non-negative small blind, the value check
      always passes. */
  lemma ConsistentEquitiesPass(allIn: real, bb: real, sb: real, x: RangeParams,
                               eqT: EquityTable, probT: ProbabilityTable)
    requires Abs(ProbabilitySum(probT, x) - 1.0) <= ProbabilityError
    requires LookupShowdowns(eqT, x).Ok? && sb >= 0.0
    requires forall sc :: Share(LookupShowdowns(eqT, x).value, sc) == 100.0
    ensures CalcIterationValue(allIn, bb, sb, x, eqT, probT).Ok?
  {
    var sd := LookupShowdowns(eqT, x).value;
    DefectVanishes(probT, x, Stakes(allIn, bb, sb), sd);
    ValueCheckMeasuresDefect(allIn, bb, sb, x, eqT, probT);
  }

  lemma DefectVanishes(probT: ProbabilityTable, x: RangeParams, st: Stakes, sd: Showdowns)
    requires forall sc :: Share(sd, sc) == 100.0
    ensures Defect(probT, x, st, sd) == 0.0
  {
    forall sc ensures LineDefect(probT, x, st, sd, sc) == 0.0 {
      NoExcessOnLine(probT, x, st, sd, sc);
    }
  }

  lemma NoExcessOnLine(probT: ProbabilityTable, x: RangeParams, st: Stakes, sd: Showdowns, sc: Scenario)
    requires Share(sd, sc) == 100.0
    ensures LineDefect(probT, x, st, sd, sc) == 0.0
  {
    var excess := 0.01 * Share(sd, sc) - 1.0;
    assert excess == 0.0;
    assert Pot(st, sc) * excess == 0.0;
  }

  lemma NullLine(probT: ProbabilityTable, x: RangeParams, st: Stakes, sd: Showdowns, seat: Seat, sc: Scenario)
    requires Prob(probT, x, sc) == 0.0
    ensures Term(probT, x, st, sd, seat, sc) == 0.0
  {
  }

  /** A seat's expected value when only the empty_bigblind line occurs. */
  lemma OnlyEmptyBigblind(probT: ProbabilityTable, x: RangeParams, st: Stakes, sd: Showdowns, seat: Seat)
    requires Prob(probT, x, EmptyBigblind) == 1.0
    requires forall sc :: sc != EmptyBigblind ==> Prob(probT, x, sc) == 0.0
    ensures Expected(probT, x, st, sd, seat) == Gain(seat, st, sd, EmptyBigblind)
  {
    NullLine(probT, x, st, sd, seat, OneraiseCutoff);
    NullLine(probT, x, st, sd, seat, OneraiseDealer);
    NullLine(probT, x, st, sd, seat, OneraiseSmallblind);
    NullLine(probT, x, st, sd, seat, TworaisesCutoffDealer);
    NullLine(probT, x, st, sd, seat, TworaisesCutoffSmallblind);
    NullLine(probT, x, st, sd, seat, TworaisesCutoffBigblind);
    NullLine(probT, x, st, sd, seat, TworaisesDealerSmallblind);
    NullLine(probT, x, st, sd, seat, TworaisesDealerBigblind);
    NullLine(probT, x, st, sd, seat, TworaisesSmallblindBigblind);
    NullLine(probT, x, st, sd, seat, ThreeraisesCutoffDealerSmallblind);
    NullLine(probT, x, st, sd, seat, ThreeraisesCutoffDealerBigblind);
    NullLine(probT, x, st, sd, seat, ThreeraisesCutoffSmallblindBigblind);
    NullLine(probT, x, st, sd, seat, ThreeraisesDealerSmallblindBigblind);
    NullLine(probT, x, st, sd, seat, FourraisesCutoffDealerSmallblindBigblind);
  }

  lemma OnlyEmptyBigblindSum(probT: ProbabilityTable, x: RangeParams)
    requires Prob(probT, x, EmptyBigblind) == 1.0
    requires forall sc :: sc != EmptyBigblind ==> Prob(probT, x, sc) == 0.0
    ensures ProbabilitySum(probT, x) == 1.0
  {
  }

  lemma OnlyEmptyBigblindValues(probT: ProbabilityTable, x: RangeParams, st: Stakes, sd: Showdowns)
    requires Prob(probT, x, EmptyBigblind) == 1.0
    requires forall sc :: sc != EmptyBigblind ==> Prob(probT, x, sc) == 0.0
    ensures Values(probT, x, st, sd) == [0.0, 0.0, -st.sb, st.sb]
  {
    var v := Values(probT, x, st, sd);
    OnlyEmptyBigblind(probT, x, st, sd, CO);
    OnlyEmptyBigblind(probT, x, st, sd, DE);
    OnlyEmptyBigblind(probT, x, st, sd, SB);
    OnlyEmptyBigblind(probT, x, st, sd, BB);
    assert v[0] == Expected(probT, x, st, sd, CO) && v[1] == Expected(probT, x, st, sd, DE);
    assert v[2] == Expected(probT, x, st, sd, SB) && v[3] == Expected(probT, x, st, sd, BB);
  }

  /** When the table says nobody ever pushes (the empty_bigblind line has
      probability 100 and every other line 0), the small blind loses its
      blind to the big blind and the other seats break even. */
  lemma EveryoneFolds(allIn: real, bb: real, sb: real, x: RangeParams,
                      eqT: EquityTable, probT: ProbabilityTable)
    requires ProbabilityOf(probT, x.co, x.de, x.sb, 0, EmptyBigblind) == 100.0
    requires forall sc :: sc != EmptyBigblind ==> Prob(probT, x, sc) == 0.0
    requires LookupShowdowns(eqT, x).Ok? && sb >= 0.0
    ensures CalcIterationValue(allIn, bb, sb, x, eqT, probT) == Ok([0.0, 0.0, -sb, sb])
  {
    var st, sd := Stakes(allIn, bb, sb), LookupShowdowns(eqT, x).value;
    assert Prob(probT, x, EmptyBigblind) == 1.0 by {
      assert ScenarioRanges(x, EmptyBigblind) == [x.co, x.de, x.sb, 0];
    }
    OnlyEmptyBigblindSum(probT, x);
    OnlyEmptyBigblindValues(probT, x, st, sd);
    assert CalcIterationValue(allIn, bb, sb, x, eqT, probT) == ZeroSumCheck(Values(probT, x, st, sd), sb);
  }
}
