/**
 * Dispatching through the store with the history logger attached: every
 * counter action is followed, before dispatch returns, by a PUSH_TO_HISTORY
 * carrying the count the counter action produced.
 */
module Mirror {
  import opened Actions
  import Counter
  import History
  import Root

  /** One dispatch: the root reducer, then the logger's push for a counter action. */
  function Dispatched(s: Root.RootState, a: Action): Root.RootState {
    var next := Root.Step(s, a);
    if a.IsCounterMutation() then Root.Step(next, PushToHistory(next.counter.count)) else next
  }

  /** The state after dispatching every action of `actions`, in order. */
  function Run(s: Root.RootState, actions: seq<Action>): Root.RootState {
    if actions == [] then s
    else Dispatched(Run(s, actions[..|actions| - 1]), actions[|actions| - 1])
  }

  /** The count after each successive prefix of `actions`, reduced by the counter alone. */
  function Counts(c: Counter.CounterState, actions: seq<Action>): (r: seq<int>)
    ensures |r| == |actions|
  {
    seq(|actions|, i requires 0 <= i < |actions| => Counter.Run(c, actions[..i + 1]).count)
  }

  /** What the log gains from `a`, given the count `c` once `a` has been reduced. */
  function Entry(c: Counter.CounterState, a: Action): seq<int> {
    if a.IsCounterMutation() then [c.count]
    else if a.PushToHistory? then [a.value]
    else []
  }

  /**
   * The entries a run of `actions` adds to the log, the counter starting at `c`:
   * the count after each counter action and the value of each push, in order.
   */
  function Logged(c: Counter.CounterState, actions: seq<Action>): seq<int> {
    if actions == [] then []
    else Logged(c, actions[..|actions| - 1]) + Entry(Counter.Run(c, actions), actions[|actions| - 1])
  }

  /**
   * A counter action changes the count as its reducer says and appends exactly
   * one log entry, equal to the count after the action.
   */
  lemma MirrorAppendsPostCount(s: Root.RootState, a: Action)
    requires a.IsCounterMutation()
    ensures var r := Dispatched(s, a);
      && r.counter == Counter.Step(s.counter, a)
      && r.history.history == s.history.history + [r.counter.count]
  {
  }

  /** Pushes, clears and every other action trigger no further entry. */
  lemma OthersNotMirrored(s: Root.RootState, a: Action)
    requires !a.IsCounterMutation()
    ensures Dispatched(s, a) == Root.Step(s, a)
  {
  }

  /** Dispatching `xs + ys` is dispatching `xs`, then `ys`. */
  lemma {:induction false} RunAppend(s: Root.RootState, xs: seq<Action>, ys: seq<Action>)
    ensures Run(s, xs + ys) == Run(Run(s, xs), ys)
    decreases |ys|
  {
    if ys == [] {
      assert xs + ys == xs;
    } else {
      var zs := xs + ys;
      assert zs[..|zs| - 1] == xs + ys[..|ys| - 1];
      RunAppend(s, xs, ys[..|ys| - 1]);
    }
  }

  /** The logger never disturbs the count: the counter slice sees the dispatched actions alone. */
  lemma {:induction false} CounterUnaffectedByLogging(s: Root.RootState, actions: seq<Action>)
    ensures Run(s, actions).counter == Counter.Run(s.counter, actions)
  {
    if actions != [] {
      CounterUnaffectedByLogging(s, actions[..|actions| - 1]);
    }
  }

  /**
   * After a run of counter actions, the log is the old log followed by the
   * count after each action, in order.
   */
  lemma {:induction false} LogOfCounterActions(s: Root.RootState, actions: seq<Action>)
    requires forall i | 0 <= i < |actions| :: actions[i].IsCounterMutation()
    ensures Run(s, actions).history.history == s.history.history + Counts(s.counter, actions)
  {
    if actions != [] {
      var n := |actions| - 1;
      var init := actions[..n];
      LogOfCounterActions(s, init);
      CounterUnaffectedByLogging(s, actions);
      assert actions[..n + 1] == actions;
      forall i | 0 <= i < n
        ensures Counts(s.counter, actions)[i] == Counts(s.counter, init)[i]
      {
        assert init[..i + 1] == actions[..i + 1];
      }
      assert Counts(s.counter, actions) == Counts(s.counter, init) + [Counter.Run(s.counter, actions).count];
    }
  }

  /**
   * Without CLEAR_HISTORY the log is append-only: the old log stays a prefix,
   * followed by the count after each counter action and the value of each
   * push, in dispatch order.
   */
  lemma {:induction false} LogWithoutClear(s: Root.RootState, actions: seq<Action>)
    requires forall i | 0 <= i < |actions| :: !actions[i].ClearHistory?
    ensures Run(s, actions).history.history == s.history.history + Logged(s.counter, actions)
  {
    if actions != [] {
      var init := actions[..|actions| - 1];
      LogWithoutClear(s, init);
      CounterUnaffectedByLogging(s, actions);
    }
  }

  /**
   * After the last CLEAR_HISTORY the log holds exactly the entries logged
   * since, starting from the count the clear left behind.
   */
  lemma {:induction false} HistoryAfterLastClear(s: Root.RootState, actions: seq<Action>, k: nat)
    requires k < |actions| && actions[k].ClearHistory?
    requires forall i | k < i < |actions| :: !actions[i].ClearHistory?
    ensures Run(s, actions).history.history
         == Logged(Counter.Run(s.counter, actions[..k + 1]), actions[k + 1..])
  {
    var before, after := actions[..k + 1], actions[k + 1..];
    assert actions == before + after;
    RunAppend(s, before, after);
    assert before[..|before| - 1] == actions[..k];
    CounterUnaffectedByLogging(s, before);
    LogWithoutClear(Run(s, before), after);
  }

  /** From the initial state, INCREMENT then SET_COUNT(0) leaves count 0 and log [1, 0]. */
  lemma IncrementThenReset()
    ensures Run(Root.Initial, [Increment(Undefined), SetCount(0)])
         == Root.RootState(Counter.CounterState(0), History.HistoryState([1, 0]))
  {
    var a := [Increment(Undefined), SetCount(0)];
    assert a[..1] == [Increment(Undefined)];
    assert a[..1][..0] == [];
  }
}
