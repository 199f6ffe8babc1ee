/** The two searches bound to the program's own evaluator: calc_min_max and
    calc_nash_definition take the equity and probability tables and the
    stakes, and score every joint strategy with calc_iteration_value. */
module Program {
  import opened Failures
  import opened Probability
  import opened Equity
  import opened Strategies
  import opened Evaluator
  import opened MinMax
  import opened Nash

  /** The scoring both searches use, over the given tables and stakes. */
  function TableEvaluation(eqT: EquityTable, probT: ProbabilityTable, allIn: real, sb: real, bb: real)
    : Strategy -> Result<Expectancy>
  {
    (s: Strategy) => Evaluate(eqT, probT, allIn, sb, bb, s)
  }

  /** Scoring a joint strategy fails only by one of calc_iteration_value's
      own checks. */
  lemma EvaluationFailures(eqT: EquityTable, probT: ProbabilityTable, allIn: real, sb: real, bb: real, s: Strategy)
    ensures var r := TableEvaluation(eqT, probT, allIn, sb, bb)(s);
      r.Err? ==> r.error in {ProbabilityDivergent, EquityMissing, EquityDivergent, ValueDivergent}
  {
    IterationFailures(allIn, bb, sb, ParamsOf(s), eqT, probT);
  }

  /** A failure of the search is a failure of scoring one joint strategy,
      so it is one of calc_iteration_value's own. */
  lemma SearchFailureKinds(eqT: EquityTable, probT: ProbabilityTable, allIn: real, sb: real, bb: real,
                           points: seq<seq<int>>, e: Error)
    requires exists i :: 0 <= i < |points| && |points[i]| == KeyLength &&
                         TableEvaluation(eqT, probT, allIn, sb, bb)(points[i]) == Err(e)
    ensures e in {ProbabilityDivergent, EquityMissing, EquityDivergent, ValueDivergent}
  {
    var i :| 0 <= i < |points| && |points[i]| == KeyLength &&
             TableEvaluation(eqT, probT, allIn, sb, bb)(points[i]) == Err(e);
    EvaluationFailures(eqT, probT, allIn, sb, bb, points[i]);
  }

  /** calc_min_max over the tables: it fails exactly when scoring some joint
      strategy fails, and then with a table or zero-sum failure of that
      scoring; otherwise each seat gets its first maximin key. */
  method MinMaxOverTables(eqT: EquityTable, probT: ProbabilityTable, allIn: real, sb: real, bb: real,
                          lists: seq<seq<int>>) returns (r: Result<seq<seq<int>>>)
    requires |lists| == KeyLength
    ensures var eval := TableEvaluation(eqT, probT, allIn, sb, bb);
      r.Ok? <==> Evaluated(eval, Product(lists), |Product(lists)|)
    ensures r.Err? ==> r.error in {ProbabilityDivergent, EquityMissing, EquityDivergent, ValueDivergent}
    ensures r.Ok? ==> |r.value| == 4
    ensures var eval := TableEvaluation(eqT, probT, allIn, sb, bb);
      r.Ok? ==> IsFirstMaximal(MinTable(eval, lists, CO), r.value[0]) &&
                IsFirstMaximal(MinTable(eval, lists, DE), r.value[1]) &&
                IsFirstMaximal(MinTable(eval, lists, SB), r.value[2]) &&
                IsFirstMaximal(MinTable(eval, lists, BB), r.value[3])
  {
    var eval := TableEvaluation(eqT, probT, allIn, sb, bb);
    r := CalcMinMax(eval, lists);
    if r.Err? {
      SearchFailureKinds(eqT, probT, allIn, sb, bb, Product(lists), r.error);
    }
  }

  /** calc_nash_definition over the tables, with at most `maxPasses` passes:
      a result is the first non-empty set of joint strategies that survive
      every unilateral deviation at that pass's margin, each with its value. */
  method NashOverTables(eqT: EquityTable, probT: ProbabilityTable, allIn: real, sb: real, bb: real,
                        lists: seq<seq<int>>, delta: real, maxPasses: nat)
    returns (r: Result<map<seq<int>, Expectancy>>)
    requires |lists| == KeyLength
    ensures AreStrategies(Product(lists))
    ensures r == Search(TableEvaluation(eqT, probT, allIn, sb, bb), Product(lists), DeviationsOf(lists), delta, 0, maxPasses)
    ensures r.Ok? ==>
      exists k: nat :: k < maxPasses &&
        Recorded(TableEvaluation(eqT, probT, allIn, sb, bb), Product(lists), DeviationsOf(lists), Margin(delta, k), r.value)
  {
    var eval := TableEvaluation(eqT, probT, allIn, sb, bb);
    r := CalcNashDefinition(eval, lists, delta, maxPasses);
    if r.Ok? {
      NashMeaning(eval, Product(lists), DeviationsOf(lists), delta, maxPasses);
    }
  }
}
