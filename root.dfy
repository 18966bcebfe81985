/** The root reducer: both slices, each reduced independently by every action. */
module Root {
  import opened Actions
  import Counter
  import History

  datatype RootState = RootState(counter: Counter.CounterState, history: History.HistoryState)

  /** The store's state before any action: count 0, empty history. */
  const Initial := RootState(Counter.Initial, History.Initial)

  /** The combined reducer: every action goes to both slice reducers. */
  function Step(s: RootState, a: Action): RootState {
    RootState(Counter.Step(s.counter, a), History.Step(s.history, a))
  }

  /**
   * Slice independence: a counter action leaves the history untouched, and a
   * history action leaves the count untouched.
   */
  lemma SlicesIndependent(s: RootState, a: Action)
    ensures a.IsCounterMutation() ==> Step(s, a).history == s.history
    ensures a.IsHistoryAction() ==> Step(s, a).counter == s.counter
  {
  }

  /** An action neither slice recognises, a saga request included, changes nothing. */
  lemma UnrecognisedKeepsState(s: RootState, a: Action)
    requires !a.IsCounterMutation() && !a.IsHistoryAction()
    ensures Step(s, a) == s
  {
  }
}
