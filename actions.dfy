/**
 * The actions of the counter-and-history application: the three counter
 * actions, the three delayed ("saga") requests, the two history actions,
 * and any other action type, which every reducer ignores.
 */
module Actions {

  /**
   * A payload that no reducer reads: whatever the caller passed along
   * (a click event, nothing at all). `Undefined` is what a watcher's
   * own `{ type }` object carries.
   */
  datatype Payload = Undefined | Defined(tag: int)

  /** One constructor per action type; `Other` stands for every type string no reducer recognises. */
  datatype Action =
    | Increment(payload: Payload)
    | Decrement(payload: Payload)
    | SetCount(count: int)
    | IncrementSaga(payload: Payload)
    | DecrementSaga(payload: Payload)
    | SetCountSaga(count: int)
    | PushToHistory(value: int)
    | ClearHistory(payload: Payload)
    | Other
  {
    /** The action types the history logger watches: every direct change of the counter. */
    predicate IsCounterMutation() {
      Increment? || Decrement? || SetCount?
    }

    /** The action types handled by the history reducer. */
    predicate IsHistoryAction() {
      PushToHistory? || ClearHistory?
    }

    /** The action types that only ask a watcher for a later counter action. */
    predicate IsSagaRequest() {
      IncrementSaga? || DecrementSaga? || SetCountSaga?
    }
  }

  datatype Option<+T> = None | Some(value: T)
}
