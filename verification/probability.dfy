/** The scenario-probability table: for a key of four seat ranges
    (CO, DE, SB, BB) and a scenario, the percentage frequency of that betting
    line. Absent keys read as 0. */
module Probability {
  import opened Scenarios

  type ProbabilityKey = (seq<int>, Scenario)

  /** The key get_scenario_probability builds from its arguments. */
  function KeyOf(co: int, de: int, sb: int, bb: int, sc: Scenario): ProbabilityKey
  {
    ([co, de, sb, bb], sc)
  }

  /** The value a lookup reads: the stored probability, or 0 for a key the
      table does not hold. */
  function ProbabilityOf(entries: map<ProbabilityKey, real>, co: int, de: int, sb: int, bb: int, sc: Scenario): real
  {
    var key := KeyOf(co, de, sb, bb, sc);
    if key in entries then entries[key] else 0.0
  }

  /** The table the loader builds, read through map::operator[]. */
  class ScenarioProbabilityMap {
    var entries: map<ProbabilityKey, real>

    constructor (initial: map<ProbabilityKey, real>)
      ensures entries == initial
    {
      entries := initial;
    }

    /** get_scenario_probability: returns the stored value or 0; on a miss
        operator[] inserts the key with value 0, and nothing else changes. */
    method GetScenarioProbability(co: int, de: int, sb: int, bb: int, sc: Scenario) returns (p: real)
      modifies this
      ensures KeyOf(co, de, sb, bb, sc) in old(entries) ==> p == old(entries)[KeyOf(co, de, sb, bb, sc)]
      ensures KeyOf(co, de, sb, bb, sc) !in old(entries) ==> p == 0.0
      ensures entries.Keys == old(entries).Keys + {KeyOf(co, de, sb, bb, sc)}
      ensures entries[KeyOf(co, de, sb, bb, sc)] == p
      ensures forall k :: k in old(entries) ==> entries[k] == old(entries)[k]
    {
      var key := KeyOf(co, de, sb, bb, sc);
      if key !in entries {
        entries := entries[key := 0.0];
      }
      p := entries[key];
    }
  }

  /** The insertion a miss leaves behind is invisible to every later lookup,
      so reading the table through ProbabilityOf, as the evaluator does, gives
      the values the program reads. */
  lemma MissInsertionUnobservable(entries: map<ProbabilityKey, real>, key: ProbabilityKey,
                                  co: int, de: int, sb: int, bb: int, sc: Scenario)
    requires key !in entries
    ensures ProbabilityOf(entries[key := 0.0], co, de, sb, bb, sc) == ProbabilityOf(entries, co, de, sb, bb, sc)
  {
  }
}
