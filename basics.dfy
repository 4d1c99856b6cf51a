/** Failure-carrying results shared by every module of the model.

    The program signals failure by raising Python exceptions; each kind that
    the modelled code can raise is one constructor of `Error`, and every
    operation that can raise returns a `Result`.
 */
module Basics {

  datatype Option<+T> = None | Some(value: T)

  /** The exceptions the modelled code raises, by cause. */
  datatype Error =
    | AssertionFailed     // a failing `assert` statement
    | InvalidLiteral      // `int(...)` or `float(...)` rejects its text (ValueError)
    | MissingDefinition   // `next(filter(...))` over a table finds no entry (StopIteration)
    | DivisionByZero      // a tempo of 0 reaches `60000 / bpm`, or no note reaches the score divisor
    | NoMoreBar           // an instant after the last time window of a chart
    | DuplicatePress      // a press on a lane that is already held (FailedParseReplay)
    | UnsupportedOption   // a replay random option other than 0, 1 or 2
    | MissingPattern      // option 2 without a `pattern[0]["modify"]` entry
    | LaneOutOfRange      // a key index outside the eight-lane tuple (IndexError)

  datatype Result<+T> = Ok(value: T) | Err(error: Error)

  /** Eight per-lane sequences: lane 0 is the scratch, lanes 1 to 7 the keys. */
  type Lanes<T> = s: seq<seq<T>> | |s| == 8 witness [[], [], [], [], [], [], [], []]

  function EmptyLanes<T>(): (r: Lanes<T>)
    ensures forall i :: 0 <= i < 8 ==> r[i] == []
  {
    [[], [], [], [], [], [], [], []]
  }
}
