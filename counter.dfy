/** The counter slice: its reducer and what any sequence of actions does to it. */
module Counter {
  import opened Actions

  datatype CounterState = CounterState(count: int)

  /** The reducer's default state. */
  const Initial := CounterState(0)

  /** The counter reducer: one transition per action, unbounded in both directions. */
  function Step(c: CounterState, a: Action): CounterState {
    match a
    case Increment(_) => c.(count := c.count + 1)
    case Decrement(_) => c.(count := c.count - 1)
    case SetCount(n) => c.(count := n)
    case _ => c
  }

  /** The counter after reducing every action of `actions`, in order. */
  function Run(c: CounterState, actions: seq<Action>): CounterState {
    if actions == [] then c
    else Step(Run(c, actions[..|actions| - 1]), actions[|actions| - 1])
  }

  /** The number of INCREMENT actions in `actions`. */
  function Increments(actions: seq<Action>): nat {
    if actions == [] then 0
    else Increments(actions[..|actions| - 1]) + (if actions[|actions| - 1].Increment? then 1 else 0)
  }

  /** The number of DECREMENT actions in `actions`. */
  function Decrements(actions: seq<Action>): nat {
    if actions == [] then 0
    else Decrements(actions[..|actions| - 1]) + (if actions[|actions| - 1].Decrement? then 1 else 0)
  }

  /** SET_COUNT makes the count exactly the payload's count, whatever it was. */
  lemma SetCountReplaces(c: CounterState, n: int)
    ensures Step(c, SetCount(n)).count == n
  {
  }

  /** INCREMENT and DECREMENT ignore their payload. */
  lemma PayloadIgnored(c: CounterState, p: Payload, q: Payload)
    ensures Step(c, Increment(p)) == Step(c, Increment(q)) == CounterState(c.count + 1)
    ensures Step(c, Decrement(p)) == Step(c, Decrement(q)) == CounterState(c.count - 1)
  {
  }

  /** Every action that is not a counter action, the saga requests included, leaves the counter alone. */
  lemma UnrecognisedKeepsCounter(c: CounterState, a: Action)
    requires !a.IsCounterMutation()
    ensures Step(c, a) == c
  {
  }

  /** Reducing `xs + ys` is reducing `xs`, then `ys`. */
  lemma {:induction false} RunAppend(c: CounterState, xs: seq<Action>, ys: seq<Action>)
    ensures Run(c, xs + ys) == Run(Run(c, xs), ys)
    decreases |ys|
  {
    if ys == [] {
      assert xs + ys == xs;
    } else {
      var zs := xs + ys;
      assert zs[..|zs| - 1] == xs + ys[..|ys| - 1];
      RunAppend(c, xs, ys[..|ys| - 1]);
    }
  }

  /**
   * Without SET_COUNT, the final count is the initial count plus the number
   * of increments minus the number of decrements; nothing bounds it.
   */
  lemma {:induction false} NetCount(c: CounterState, actions: seq<Action>)
    requires forall i | 0 <= i < |actions| :: !actions[i].SetCount?
    ensures Run(c, actions).count == c.count + Increments(actions) - Decrements(actions)
  {
    if actions != [] {
      NetCount(c, actions[..|actions| - 1]);
    }
  }

  /**
   * After the last SET_COUNT(n) of a sequence, the count is n moved by the
   * increments and decrements that follow it.
   */
  lemma {:induction false} LastSetCountWins(c: CounterState, actions: seq<Action>, k: nat, n: int)
    requires k < |actions| && actions[k] == SetCount(n)
    requires forall i | k < i < |actions| :: !actions[i].SetCount?
    ensures Run(c, actions).count
         == n + Increments(actions[k + 1..]) - Decrements(actions[k + 1..])
  {
    var before, after := actions[..k + 1], actions[k + 1..];
    assert actions == before + after;
    RunAppend(c, before, after);
    assert before[..|before| - 1] == actions[..k];
    NetCount(Run(c, before), after);
  }
}
