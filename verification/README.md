# Four-handed push/fold equilibrium search — Dafny model

The program studies all-in preflop play at a four-handed table. The seats are
cutoff (CO), dealer (DE), small blind (SB) and big blind (BB). Every seat
chooses a pushing range for each situation it can face:

- CO has one range.
- DE has two: one when nobody pushed before it, one after a CO push.
- SB has four, and BB has seven.

The fourteen choices together form a joint strategy. Two precomputed tables
drive the evaluation:

- the scenario-probability table gives, for four seat ranges and a betting
  line, how often that line happens;
- the range-equity table gives the showdown equities of up to four ranges.

`calc_iteration_value` turns a joint strategy into the four seats' expected
values. Two searches run over the cartesian product of the candidate lists:

- `calc_min_max` gives each seat the private choice whose worst case is best;
- `calc_nash_definition` finds the joint strategies that no single seat can
  improve on by more than a margin. The margin is raised by `delta` after
  every pass that finds none.

The model has one module per part of `main.cpp`:

- `Failures`: the error values. Each `throw` of the program becomes an `Err`,
  which the callers propagate where the exception would unwind.
- `Scenarios`: the fifteen betting lines and `string_to_scenario`.
- `Split`: `split_string`, including the `npos + 1 == 0` wrap of `size_t`.
- `Probability`: `get_scenario_probability` over a `map` field. A miss inserts
  a zero entry.
- `Equity`: `get_ranges_equity`, which sorts the four ranges, reads the entry
  and maps every seat back to its slot.
- `Evaluator`: `calc_iteration_value`, its per-line payoffs and its two
  consistency checks.
- `Strategies`: joint strategies, the seats' slices of them, nested-loop
  enumeration as `Product`, and unilateral deviation.
- `MinMax`: `find_maximal_strategy` and `calc_min_max`.
- `Nash`: `calc_nash_definition`.
- `Program`: both searches bound to the program's own evaluator and tables.

Neither search calls the evaluator directly. Each takes it as a parameter
`eval`. The program's evaluator is `Evaluator.Evaluate(eqT, probT, allIn, sb,
bb, ·)`, where the two tables and the stakes are parameters, not files;
`Program` passes it to both searches. The search methods follow the source's
loops. Each is proved equal to a recursive specification function (`Scan`, `Verdict`, `Pass`, `Search`, `MinsAfter`),
and lemmas state what those functions mean.

## Model

| member | source | states |
|---|---|---|
| Scenarios.Ordinal | main.cpp:24-28 | each scenario's enum value is its position in the declaration |
| Scenarios.StringToScenario | main.cpp:177-212 | a parsed scenario has exactly the given name; every other string is InvalidScenario, and no scenario has that name |
| Scenarios.NamesInjective | main.cpp:178-207 | two scenarios with the same name are the same scenario |
| Scenarios.NameRoundTrip | main.cpp:177-212 | parsing a scenario's name gives back that scenario |
| Scenarios.ParsedExactlyTheNames | main.cpp:177-212 | parsing succeeds if and only if the string is one of the fifteen names |
| Split.Find | main.cpp:171-173 | a position that `find` returns lies at or after the start, and the delimiter fits in the string there |
| Split.FindSpec | main.cpp:171-173 | `find` returns the first occurrence at or after the start; npos means there is no occurrence from there |
| Split.SplitString | main.cpp:167-175 | the loop's result is the field function, with the loop invariant tracking the search position; with a non-empty delimiter, the field contains no delimiter |
| Split.FieldHasNoDelimiter | main.cpp:173-174 | with a non-empty delimiter, an extracted field never contains it |
| Split.FirstField | main.cpp:173-174 | field 0 is the text before the first delimiter, or the whole line when there is none |
| Split.FindCounts | main.cpp:171 | with a one-character delimiter, each successful search consumes one occurrence, and npos means none remain |
| Split.StartAfterCounts | main.cpp:170-172 | after n turns, with n at most the delimiter count, the search position is within the line, just past the n-th delimiter |
| Split.ReturnsToStart | main.cpp:171 | the turn after the last delimiter finds npos, and npos + 1 sends the search back to 0 |
| Split.StartAfterPeriodic | main.cpp:170-172 | once the search position returns to 0, it repeats with that period |
| Split.FieldsWrapAround | main.cpp:170-174 | with m delimiters, field k + m + 1 equals field k: an index past the last field wraps round to the start |
| Probability.ScenarioProbabilityMap.GetScenarioProbability | main.cpp:214-217 | returns the stored value, or 0 on a miss; a miss inserts the key with 0, and every other entry is unchanged |
| Probability.MissInsertionUnobservable | main.cpp:216 | the zero entry a miss inserts changes no later lookup |
| Equity.Insert | main.cpp:333-334 | inserting into a sorted sequence gives a sorted sequence one longer, holding the new value and the old elements |
| Equity.SortRanges | main.cpp:333-334 | the sort's result is ascending, of the same length, and holds the same values |
| Equity.InsertPermutes | main.cpp:334 | insertion adds exactly the new value to the multiset |
| Equity.SortRangesPermutes | main.cpp:334 | the sort is a permutation of its input, as a multiset |
| Equity.InsertCommutes | main.cpp:334 | inserting two values gives the same result in either order |
| Equity.SortIgnoresSwap | main.cpp:333-334 | swapping two adjacent arguments does not change the sorted key |
| Equity.InputsInSortedKey | main.cpp:340-341 | every seat's range occurs in the sorted key, so each `find` succeeds |
| Equity.FirstIndex | main.cpp:340-346 | the index is that of the value's first occurrence in the sorted key |
| Equity.Pick | main.cpp:348-351 | seat k gets the entry's equity at the first slot of the key holding seat k's range |
| Equity.CheckSum | main.cpp:353-359 | the equities pass if and only if their sum is within EQUITY_ERROR of 100; a pass returns them unchanged, a failure is EquityDivergent |
| Equity.RangesEquity | main.cpp:331-362 | when the third-smallest of the four ranges is 0 (for non-negative ranges: at most one is non-zero) the result is four zeros; an absent or short entry gives EquityMissing; otherwise the result is the sum-checked pick from the sorted key's entry |
| Equity.GetRangesEquity | main.cpp:331-362 | a result is four equities summing to 100 within EQUITY_ERROR, or four zeros; each seat's equity is the stored one at its range's slot |
| Equity.PickFollowsSwap | main.cpp:340-351 | swapping two adjacent arguments swaps the two picked equities |
| Equity.CheckSumFollowsSwap | main.cpp:353-359 | the sum check does not depend on the order of the equities |
| Equity.EquityFollowsSwap | main.cpp:331-362 | swapping two adjacent arguments swaps the two equities, or leaves the same error |
| Equity.UndoDescent | main.cpp:331-362 | swapping an adjacent descent in a permutation lowers its inversion count and factors the rearrangement through one swap |
| Equity.EquityFollowsPermutation | main.cpp:331-362 | permuting the four seats permutes the equities the same way: the lookup does not depend on seat order |
| Strategies.SeatIndex | main.cpp:952 | each seat's value sits at its position in (co, de, sb, bb) |
| Strategies.Hi | main.cpp:782-786 | each seat owns a non-empty slice of the fourteen-position key |
| Strategies.Project | main.cpp:782-786 | a seat's private key has the length of its slice |
| Strategies.Deviate | main.cpp:693-776 | a deviation puts the alternative in the seat's slice and keeps every other seat's positions |
| Strategies.DeviateToOwn | main.cpp:693-776 | deviating to a seat's own choice gives the same joint strategy |
| Strategies.Extend | main.cpp:662-681 | an outer loop over heads wrapped round inner tuples yields exactly the tuples with a listed head and a listed tail |
| Strategies.Product | main.cpp:662-681 | every enumerated tuple has one position per candidate list |
| Strategies.ProductMembership | main.cpp:662-681 | a tuple is enumerated if and only if each position holds a candidate from its list |
| Strategies.ProjectInProduct | main.cpp:693-776 | a seat's slice of an enumerated strategy is among that seat's deviation alternatives |
| Strategies.DeviateInProduct | main.cpp:693-776 | deviating to one of the seat's alternatives stays within the enumerated strategies |
| Strategies.ProductCovers | main.cpp:509-563 | every enumerated strategy's private keys are among the keys the seeding loops create |
| Strategies.SeatKeysFit | main.cpp:693-776 | every deviation alternative of a seat has the length of that seat's slice |
| Strategies.LexLessIrreflexive | main.cpp:487 | the map's key order is irreflexive |
| Strategies.LexLessTransitive | main.cpp:487 | the map's key order is transitive |
| Strategies.LexLessTotal | main.cpp:487 | of two different keys, one comes first |
| Strategies.LexFirstExists | main.cpp:487 | every non-empty set of keys has a first key in map order |
| Evaluator.ValueError | main.cpp:944 | the tolerance is a tenth of the small blind, or 0.1 when the small blind is 0 |
| Evaluator.ParamsOf | main.cpp:683-690 | the argument list passes each seat exactly the ranges of its own slice of the key |
| Probability.ProbabilityOf | main.cpp:214-217 | the read-only lookup the evaluator uses: the stored value, or 0 on a miss; it carries no contract of its own, and MissInsertionUnobservable ties it to GetScenarioProbability |
| Evaluator.PushesOf | main.cpp:24-28 | the seats each scenario's name lists as going all-in; a helper without a contract, used by the payoff and range rules below |
| Evaluator.ScenarioRanges | main.cpp:833-847 | each line is looked up with every seat's range chosen by which seats before it went all-in (DE facing a CO push uses de_co, and so on), and a big blind nobody pushed before has range 0 |
| Evaluator.Prob | main.cpp:833-847 | a line's probability is one hundredth of the table's entry for those ranges and that line, or 0 when the table has no such entry |
| Evaluator.ProbabilitySumOverLines | main.cpp:849-853 | the sum the probability check tests is the sum of the probabilities of all fifteen lines |
| Evaluator.LineSumUnfolds | main.cpp:849-853 | a sum over all the lines is the fifteen terms in enum order |
| Evaluator.LookupShowdowns | main.cpp:864-874 | a failure of the eleven lookups is EquityMissing or EquityDivergent; LookupsQueryThePushers states what each lookup asks |
| Evaluator.LookupsQueryThePushers | main.cpp:864-874 | the lookups succeed exactly when, for every set of two or more seats going all-in, the equity lookup on their ranges (zero-padded, in seat order) succeeds; each answer is then stored where the payoffs of that line read it; a failure is that of one such lookup |
| Evaluator.ShowdownQueries | main.cpp:864-874 | the eleven showdown queries are the argument lists of the eleven get_ranges_equity calls |
| Evaluator.Contested | main.cpp:864-874 | two or more seats all-in is one of the eleven showdowns |
| Evaluator.LookupsAnswer | main.cpp:864-874 | on success, each showdown's answer is the lookup of its pushers' ranges |
| Evaluator.LookupsAnswerEach | main.cpp:864-874 | on success, each of the eleven stored equity vectors is the answer to its own lookup |
| Evaluator.LookupsFail | main.cpp:864-874 | on failure, some showdown's lookup fails with the same error |
| Evaluator.Slot | main.cpp:340-351 | an all-in seat's equity sits after the zero padding, at its rank among the seats all-in |
| Evaluator.Pot | main.cpp:876-942 | a contested line's pot is one all-in per pusher plus each folded blind; an uncontested line's is 0 |
| Evaluator.CoGain | main.cpp:876-891 | CO's payoff on each of the fifteen lines, transcribed; CoGainIsPayoff and LineImbalance cross-check it |
| Evaluator.DeGain | main.cpp:893-908 | DE's payoff on each line, transcribed; DeGainIsPayoff and LineImbalance cross-check it |
| Evaluator.SbGain | main.cpp:910-925 | SB's payoff on each line, transcribed; SbGainIsPayoff and LineImbalance cross-check it |
| Evaluator.BbGain | main.cpp:927-942 | BB's payoff on each line, transcribed; BbGainIsPayoff and LineImbalance cross-check it |
| Evaluator.CoGainIsPayoff | main.cpp:876-891 | CO's payoff follows the rule: fold loses nothing, a lone push wins both blinds, a contested push gets its equity share of the pot less its all-in |
| Evaluator.DeGainIsPayoff | main.cpp:893-908 | DE's payoff follows the same rule |
| Evaluator.SbGainIsPayoff | main.cpp:910-925 | SB's payoff follows the rule: a fold loses its small blind, a lone push wins the big blind |
| Evaluator.BbGainIsPayoff | main.cpp:927-942 | BB's payoff follows the rule: a fold loses its big blind; when everyone folds, or it alone pushes, it wins the small blind |
| Evaluator.GainIsPayoff | main.cpp:876-942 | every seat's transcribed payoff on every line is the payoff rule |
| Evaluator.TermIsWeightedPayoff | main.cpp:876-942 | each term of a seat's value is the line's probability times the rule's payoff |
| Evaluator.Expected | main.cpp:876-942 | a seat's value is the fifteen probability-weighted payoffs; ExpectedOverLines states it against the payoff rule |
| Evaluator.ExpectedOverLines | main.cpp:876-942 | a seat's value is the sum over all lines of the line's probability times the payoff rule |
| Evaluator.ExpectedSumsTerms | main.cpp:876-942 | any function giving each line's term sums over all lines to the seat's value |
| Evaluator.Values | main.cpp:952 | the result vector; ValuesPerSeat states what each entry is |
| Evaluator.ValuesPerSeat | main.cpp:952 | each seat's entry of the result is that seat's value |
| Evaluator.IterationFailures | main.cpp:849-950 | a failure is one of the probability check, an equity lookup, or the value check |
| Evaluator.Evaluate | main.cpp:566-571 | how a search scores a joint strategy: calc_iteration_value with the strategy's ranges in signature order; it carries no contract of its own, Program.EvaluationFailures and CalcIterationValue state its outcomes |
| Evaluator.CalcIterationValue | main.cpp:827-955 | a returned value has probabilities summing to 1 within 0.0015 and seat values summing to 0 within value_error; divergent probabilities always fail with that error |
| Evaluator.ZeroSumCheck | main.cpp:944-950 | values pass unchanged if and only if their sum is within value_error of 0; otherwise ValueDivergent |
| Evaluator.LineImbalance | main.cpp:876-942 | on each betting line, the four seats' payoffs add up to what the equities hand out beyond 100 percent of the pot |
| Evaluator.LineBalance | main.cpp:876-942 | the probability-weighted payoffs on one line add up to that line's defect |
| Evaluator.ZeroSumDefect | main.cpp:876-942 | the four expected values add up to the sum of the lines' defects |
| Evaluator.ValuesAddUpToDefect | main.cpp:876-942 | the four entries of the value vector add up to the total defect |
| Evaluator.ValueCheckMeasuresDefect | main.cpp:944-950 | once the probability check and the lookups pass, the value check passes if and only if the equity defect is within value_error |
| Evaluator.NoExcessOnLine | main.cpp:876-942 | a line whose showdown equities add up to exactly 100 has no defect |
| Evaluator.DefectVanishes | main.cpp:876-942 | when every line's equities add up to 100, the values are exactly zero-sum |
| Evaluator.ConsistentEquitiesPass | main.cpp:864-950 | consistent probabilities and equities summing to 100 never trigger the value check |
| Evaluator.NullLine | main.cpp:876-942 | a line with probability 0 contributes nothing to any seat |
| Evaluator.OnlyEmptyBigblind | main.cpp:876-942 | when only the fold-round line happens, each seat's value is its payoff on that line |
| Evaluator.OnlyEmptyBigblindSum | main.cpp:833-853 | that case passes the probability check |
| Evaluator.OnlyEmptyBigblindValues | main.cpp:876-942 | in that case, SB loses its blind to BB and CO and DE get 0 |
| Evaluator.EveryoneFolds | main.cpp:827-955 | a table saying everyone always folds to the big blind yields (0, 0, -Sb, +Sb) |
| MinMax.FirstMaximalUnique | main.cpp:484-494 | at most one key is the first maximal one, so the choice is determined |
| MinMax.FindMaximalStrategy | main.cpp:484-494 | returns the key with the largest value above -100, the first in key order among ties, or the empty key when no value exceeds -100 |
| MinMax.RunningMinMeaning | main.cpp:573-586 | a running minimum is at most 100, at most every value the seat got with that key, and either 100 or one of those values |
| MinMax.SeedMins | main.cpp:509-541 | the seeding loops create exactly the seat's keys, each at 100 |
| MinMax.SeededIsInitial | main.cpp:509-541 | the seeded table is the running-minimum table before any evaluation |
| MinMax.RunningMinStep | main.cpp:573-586 | one more evaluation lowers a key's minimum exactly when its value is smaller and the strategy holds that key |
| MinMax.Lower | main.cpp:573-586 | lowering one seat's table with one evaluation gives the running-minimum table one step further |
| MinMax.LowerEach | main.cpp:573-586 | lowering the four tables with one evaluation advances all four by one step |
| MinMax.LowerAll | main.cpp:544-606 | the loops succeed exactly when every strategy evaluates; a failure is the first failing evaluation's; the result is the four full minimum tables |
| MinMax.Maximin | main.cpp:544-638 | on success, each seat's result is the first maximal key of its minimum table; otherwise the failure of an evaluation |
| MinMax.CalcMinMax | main.cpp:497-639 | over the nested-loop enumeration, each seat gets the first maximal key of its worst-case table, or the first evaluation failure |
| Nash.DeviationsOf | main.cpp:693-776 | every seat's alternatives fit that seat's slice |
| Nash.SelfNeverRejects | main.cpp:703 | with a non-negative margin, a seat's own payoff never rejects |
| Nash.RejectsUnderSmallerMargin | main.cpp:703 | a rejection under a margin is also one under every smaller margin |
| Nash.Scan | main.cpp:710-776 | a seat's deviation loops as a recursive function, with the break skipping the rest of a run; it carries no contract of its own, and ScanVerdict and ScanFailure state what it computes |
| Nash.ScanVerdict | main.cpp:710-726 | a seat's loops leave is_nash true if and only if every alternative evaluates and none rejects, despite the break skipping rest-of-run alternatives |
| Nash.ScanFailure | main.cpp:710-726 | a failure of a seat's loops is the failure of one of its alternatives |
| Nash.CheckSeat | main.cpp:693-779 | the seat's loop, with its break and flag, computes the seat's scan |
| Nash.VerdictAllSeats | main.cpp:691-787 | the strategy is kept if and only if each seat's loops leave the flag set |
| Nash.VerdictMeaning | main.cpp:691-787 | the strategy is kept if and only if every seat withstands every one of its deviations |
| Nash.CheckPoint | main.cpp:691-787 | the four seats' loops with `continue` compute the verdict |
| Nash.PassStep | main.cpp:683-787 | one turn of a pass records the strategy exactly when it survives |
| Nash.PassMeaning | main.cpp:662-808 | a pass records exactly the surviving strategies, each with its own value |
| Nash.NashPass | main.cpp:662-808 | the nested loops with in-place insertion compute the pass |
| Nash.MarginIsMultiple | main.cpp:658-810 | pass k runs with margin delta times (k + 1) |
| Nash.SearchMeaning | main.cpp:658-811 | a successful search stops at the first pass that records something, all earlier passes being empty; if every pass is empty, it gives up |
| Nash.NashSearch | main.cpp:658-811 | the while loop with the rising margin computes the search |
| Nash.CalcNashDefinition | main.cpp:643-823 | the whole function is the search over the enumerated strategies with every seat's own alternatives |
| Nash.PassRecords | main.cpp:781-787 | a non-empty pass result holds exactly the survivors at that margin, with their values |
| Nash.NashMeaning | main.cpp:643-823 | the result is the set of survivors at the first margin that has any, with their values |
| Nash.SurvivesUnderLargerMargin | main.cpp:703-810 | a strategy that survives under a margin survives under every larger one, so raising the margin only adds survivors |
| Program.EvaluationFailures | main.cpp:566-571 | scoring a joint strategy with the program's tables fails only by one of calc_iteration_value's own checks |
| Program.SearchFailureKinds | main.cpp:566-571 | a scoring failure on any enumerated strategy is one of calc_iteration_value's own |
| Program.MinMaxOverTables | main.cpp:497-639 | calc_min_max with the tables: it fails exactly when scoring some enumerated strategy fails, then with a table or zero-sum error; otherwise each seat gets the first maximal key of its worst-case table |
| Program.NashOverTables | main.cpp:643-823 | calc_nash_definition with the tables: the search's result, which on success is the set of survivors at the first margin that has any |

## Left out

- The file loaders (main.cpp:219-329) are not part of this model. The tables are parameters, given as Dafny maps.
- `main`, `valid_params`, `print_help` and `init_ranges` are not part of this model. The candidate lists and stakes are parameters.
- Console output, progress counters and the printing of the chosen keys' values are left out. Printing `co_min_values[max_co]` can insert a key after the choice, which does not affect the result.
- Arithmetic is on exact reals. IEEE double rounding is not modelled, and neither is the accumulation of rounding in `margin += delta`.
- `abs` is the real absolute value.
- Nash.CalcNashDefinition: the source loop may run forever. The model takes a `maxPasses` bound and returns `NoEquilibrium` once that many passes have recorded nothing.
- Equity.RangesEquity: a sorted key that the table lacks, or that holds fewer than four equities, is the error `EquityMissing`. The source inserts an empty entry and then reads past its end. The insertion into the equity map is not modelled.
- Evaluator.Prob: the evaluator reads probabilities through the pure `ProbabilityOf`. The zero entries that `operator[]` inserts on a miss are modelled only in `GetScenarioProbability`, and `MissInsertionUnobservable` shows they change no later lookup.
- The fourteen nested loops of the searches are one loop over the sequence `Product(lists)`, in the same order. Candidate lists are sequences, so duplicates in them are visited as often as in the source.
- Exceptions are `Err` values. The exception's message text is not modelled.
- Split.SplitString: `size_t` is modelled only through the `npos + 1 == 0` wrap. With an empty delimiter, a start position past the end is `SubstringOutOfRange`, which is `std::out_of_range` in the source.
