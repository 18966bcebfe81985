/** The history slice: an append-only log of integers, emptied only by CLEAR_HISTORY. */
module History {
  import opened Actions

  datatype HistoryState = HistoryState(history: seq<int>)

  /** The reducer's default state. */
  const Initial := HistoryState([])

  /** The history reducer. */
  function Step(h: HistoryState, a: Action): HistoryState {
    match a
    case PushToHistory(v) => HistoryState(h.history + [v])
    case ClearHistory(_) => HistoryState([])
    case _ => h
  }

  /** PUSH_TO_HISTORY(v) grows the log by one, puts v last and keeps the earlier entries in order. */
  lemma PushAppends(h: HistoryState, v: int)
    ensures var r := Step(h, PushToHistory(v)).history;
      |r| == |h.history| + 1 && r[|h.history|] == v && r[..|h.history|] == h.history
  {
  }

  /** CLEAR_HISTORY empties the log whatever it held, and clearing twice is clearing once. */
  lemma ClearEmptiesIdempotently(h: HistoryState, p: Payload, q: Payload)
    ensures Step(h, ClearHistory(p)).history == []
    ensures Step(Step(h, ClearHistory(p)), ClearHistory(q)) == Step(h, ClearHistory(p))
  {
  }

  /** Every action that is not a history action leaves the log alone. */
  lemma UnrecognisedKeepsHistory(h: HistoryState, a: Action)
    requires !a.IsHistoryAction()
    ensures Step(h, a) == h
  {
  }
}
