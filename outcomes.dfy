/** Failure-compatible helper types shared by the blackjack model. */
module Outcomes {

  datatype Option<+T> = None | Some(value: T)

  /** The two ways an operation of the core can fail: drawing from an empty pack
      (`Cards[0]` on an empty list) and a state key that the quality table does not hold
      (`First()` on an empty query). */
  datatype Failure = EmptyDeck | NoMatchingState

  datatype Result<+T> = Ok(value: T) | Err(error: Failure) {

    predicate IsFailure() {
      Err?
    }

    function PropagateFailure<U>(): Result<U>
      requires Err?
    {
      Err(error)
    }

    function Extract(): T
      requires Ok?
    {
      value
    }
  }
}
