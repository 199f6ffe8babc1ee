/** Failure values shared by every component.
    The program signals every failure by throwing (or by undefined behaviour
    after a missing key); the model returns an `Err` instead, which the callers
    propagate exactly where the exception would have unwound. */
module Failures {

  datatype Error =
    | InvalidScenario        // a scenario name outside the closed list
    | SubstringOutOfRange    // substr called with a start position past the end
    | EquityMissing          // the sorted range key is absent or holds fewer than four equities
    | EquityDivergent        // the four equities are further than EQUITY_ERROR from 100
    | ProbabilityDivergent   // the fifteen scenario probabilities do not add up to 1
    | ValueDivergent         // the four expectancies are not zero-sum within the blind tolerance
    | NoEquilibrium          // the Nash search used up its pass bound

  datatype Result<+T> = Ok(value: T) | Err(error: Error) {
    predicate IsFailure() { Err? }

    function PropagateFailure<U>(): Result<U>
      requires Err?
    {
      Err(error)
    }

    function Extract(): T
      requires Ok?
    {
      value
    }
  }

  datatype Option<+T> = None | Some(value: T)

  function Abs(x: real): (r: real)
    ensures r >= 0.0 && (r == x || r == -x)
  {
    if x < 0.0 then -x else x
  }
}
