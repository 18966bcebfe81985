/**
 * The store with its watchers. Dispatch reduces an action and runs the
 * history logger; the delayed watchers turn a saga request into a deferred
 * counter action held in a first-in first-out queue. Real time is abstracted
 * away: every delay has the same length, so deferred actions come due in the
 * order they were requested, and `Fire` is the moment the oldest one does.
 */
module Sagas {
  import opened Actions
  import Counter
  import History
  import Root
  import Mirror

  /** The actions a watcher can hold back: what the three delayed watchers put. */
  predicate IsDeferred(a: Action) {
    a == Increment(Undefined) || a == Decrement(Undefined) || a.SetCount?
  }

  class Store {
    /** The current snapshot, replaced on every dispatch. */
    var state: Root.RootState
    /** Deferred actions whose delay is running, oldest first. */
    var pending: seq<Action>
    /** The increment watcher is in its delay rather than waiting for INCREMENT_SAGA. */
    var incrementWaiting: bool
    /** Every action dispatched so far, the fired deferred ones included. */
    ghost var Log: seq<Action>

    /** The snapshot is what dispatching the whole log from the initial state gives. */
    ghost predicate SnapshotValid()
      reads this
    {
      state == Mirror.Run(Root.Initial, Log)
    }

    /**
     * The queue holds only watcher output, and the flag says whether the one
     * deferred INCREMENT the increment watcher may have is in it.
     */
    ghost predicate QueueValid()
      reads this
    {
      && (forall i | 0 <= i < |pending| :: IsDeferred(pending[i]))
      && incrementWaiting == (Increment(Undefined) in pending)
      && multiset(pending)[Increment(Undefined)] <= 1
    }

    ghost predicate Valid()
      reads this
    {
      SnapshotValid() && QueueValid()
    }

    constructor ()
      ensures Valid()
      ensures state == Root.Initial && pending == [] && !incrementWaiting && Log == []
    {
      state := Root.Initial;
      pending := [];
      incrementWaiting := false;
      Log := [];
    }

    /**
     * Reduces `a`, lets the history logger push the new count after a counter
     * action, and lets the watchers take a saga request.
     */
    method Dispatch(a: Action)
      requires Valid()
      modifies this
      ensures Valid()
      ensures state == Mirror.Dispatched(old(state), a)
      ensures Log == old(Log) + [a]
      ensures !a.IsSagaRequest() ==> pending == old(pending) && incrementWaiting == old(incrementWaiting)
      ensures a.DecrementSaga? ==> pending == old(pending) + [Decrement(Undefined)]
      ensures a.SetCountSaga? ==> pending == old(pending) + [SetCount(a.count)]
      ensures a.IncrementSaga? && !old(incrementWaiting) ==> pending == old(pending) + [Increment(Undefined)]
      ensures a.IncrementSaga? ==> incrementWaiting
      ensures a.IncrementSaga? && old(incrementWaiting) ==> pending == old(pending)
    {
      Reduce(a);
      Take(a);
    }

    /** The root reducer, then the history logger's push after a counter action. */
    method Reduce(a: Action)
      requires SnapshotValid()
      modifies this`state, this`Log
      ensures SnapshotValid()
      ensures state == Mirror.Dispatched(old(state), a)
      ensures Log == old(Log) + [a]
    {
      state := Root.Step(state, a);
      if a.IsCounterMutation() {
        state := Root.Step(state, PushToHistory(state.counter.count));
      }
      assert (Log + [a])[..|Log|] == Log;
      Log := Log + [a];
    }

    /** The delayed watchers see `a`: a saga request starts a delay. */
    method Take(a: Action)
      requires QueueValid()
      modifies this`pending, this`incrementWaiting
      ensures QueueValid()
      ensures !a.IsSagaRequest() ==> pending == old(pending) && incrementWaiting == old(incrementWaiting)
      ensures a.DecrementSaga? ==> pending == old(pending) + [Decrement(Undefined)]
      ensures a.SetCountSaga? ==> pending == old(pending) + [SetCount(a.count)]
      ensures a.IncrementSaga? && !old(incrementWaiting) ==> pending == old(pending) + [Increment(Undefined)]
      ensures a.IncrementSaga? ==> incrementWaiting
      ensures a.IncrementSaga? && old(incrementWaiting) ==> pending == old(pending)
    {
      match a {
        case IncrementSaga(_) =>
          if !incrementWaiting {
            pending := pending + [Increment(Undefined)];
            incrementWaiting := true;
          }
        case DecrementSaga(_) =>
          pending := pending + [Decrement(Undefined)];
        case SetCountSaga(n) =>
          pending := pending + [SetCount(n)];
        case _ =>
      }
    }

    /**
     * The oldest running delay ends: its deferred action is dispatched (and
     * logged, being a counter action). With no delay running nothing happens.
     */
    method Fire() returns (fired: Option<Action>)
      requires Valid()
      modifies this
      ensures Valid()
      ensures old(pending) == [] ==> fired == None && state == old(state) && pending == [] && Log == old(Log)
      ensures old(pending) != [] ==>
        && fired == Some(old(pending)[0])
        && pending == old(pending)[1..]
        && state == Mirror.Dispatched(old(state), old(pending)[0])
        && Log == old(Log) + [old(pending)[0]]
    {
      if pending == [] {
        return None;
      }
      var next := pending[0];
      assert pending == [next] + pending[1..];
      pending := pending[1..];
      if next.Increment? {
        incrementWaiting := false;
      }
      Dispatch(next);
      fired := Some(next);
    }
  }

  /**
   * The example timeline of the application: two direct actions, then a
   * delayed increment observed before and after its delay.
   */
  method Timeline() {
    var store := new Store();
    store.Dispatch(Increment(Undefined));
    assert store.state == Root.RootState(Counter.CounterState(1), History.HistoryState([1]));
    store.Dispatch(SetCount(0));
    assert store.state == Root.RootState(Counter.CounterState(0), History.HistoryState([1, 0]));
    store.Dispatch(IncrementSaga(Undefined));
    assert store.state.counter.count == 0;
    var fired := store.Fire();
    assert fired == Some(Increment(Undefined));
    assert store.state == Root.RootState(Counter.CounterState(1), History.HistoryState([1, 0, 1]));
  }

  /**
   * Two delayed decrements requested back to back: each comes due once, in
   * order, and each leaves its own log entry; then nothing is left to fire.
   */
  method TwoDelayedDecrements() {
    var store := new Store();
    store.Dispatch(DecrementSaga(Defined(7)));
    store.Dispatch(DecrementSaga(Undefined));
    assert store.state == Root.Initial;
    assert store.pending == [Decrement(Undefined), Decrement(Undefined)];
    var fired := store.Fire();
    assert store.state == Root.RootState(Counter.CounterState(-1), History.HistoryState([-1]));
    fired := store.Fire();
    assert store.state == Root.RootState(Counter.CounterState(-2), History.HistoryState([-1, -2]));
    fired := store.Fire();
    assert fired == None;
  }

  /**
   * A delayed decrement, then two INCREMENT_SAGA requests: the first starts
   * the increment watcher's delay, the second comes while it runs and starts
   * nothing; the decrement stays first in line.
   */
  method BusyIncrementWatcher() {
    var store := new Store();
    store.Dispatch(DecrementSaga(Undefined));
    store.Dispatch(IncrementSaga(Undefined));
    store.Dispatch(IncrementSaga(Undefined));
    assert store.pending == [Decrement(Undefined), Increment(Undefined)];
    var fired := store.Fire();
    assert fired == Some(Decrement(Undefined));
    assert store.incrementWaiting;
  }
}
