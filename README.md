# Counter and history store, with its watchers

A model of the state core of a one-file React/Redux/redux-saga demo
(`src/index.js`): a counter slice and a history slice combined into one
store, a logger that mirrors every counter change into the history, and
three watchers that turn a "saga" request into a counter action that
comes due later.

- `actions.dfy` (module `Actions`): one `Action` constructor per action type
  (`INCREMENT`, `DECREMENT`, `SET_COUNT`, `INCREMENT_SAGA`, `DECREMENT_SAGA`,
  `SET_COUNT_SAGA`, `PUSH_TO_HISTORY`, `CLEAR_HISTORY`) plus `Other` for
  any type string no reducer recognises. The action creators are these constructors.
- `counter.dfy` (module `Counter`): `counterReducer` as `Counter.Step`, its
  left-to-right iteration `Counter.Run`, and what a sequence of actions does
  to the count.
- `history.dfy` (module `History`): `historyReducer` as `History.Step`.
- `root.dfy` (module `Root`): `combineReducers` as `Root.Step`, and the
  initial state `{count: 0, history: []}`.
- `mirror.dfy` (module `Mirror`): a dispatch with the `logHistory` watcher
  attached (`Mirror.Dispatched`), its iteration `Mirror.Run`, and the exact
  shape of the history log after a sequence of dispatches.
- `sagas.dfy` (module `Sagas`): the store as a class. `Store.Dispatch`
  replaces the snapshot (`Store.Reduce`) and lets the watchers take saga
  requests (`Store.Take`);
  deferred actions wait in a first-in first-out queue, and `Store.Fire` is
  the moment the oldest delay ends. `Store.Valid` keeps the snapshot equal to
  `Mirror.Run` over every action dispatched so far, and keeps at most one
  deferred `INCREMENT` (the increment watcher handles one request per loop
  iteration). `Timeline` and `TwoDelayedDecrements` are client methods that
  walk through the application's example timelines.

Real time is abstracted away. All delays have the same length, so deferred
actions come due in the order they were requested. The next one comes due
whenever the environment calls `Fire`.

## Model

| member | source | states |
|---|---|---|
| Counter.Step | src/index.js:37-48 | the counter reducer: INCREMENT adds one, DECREMENT subtracts one, SET_COUNT replaces the count, anything else returns the state; its properties are the lemmas below |
| Counter.Run | src/index.js:37-48 | the counter after reducing a sequence of actions in order |
| Counter.SetCountReplaces | src/index.js:43-44 | SET_COUNT(n) makes the count exactly n, whatever it was before |
| Counter.PayloadIgnored | src/index.js:39-42 | INCREMENT adds one and DECREMENT subtracts one, and neither depends on its payload |
| Counter.UnrecognisedKeepsCounter | src/index.js:45-46 | every non-counter action, the three saga requests included, leaves the counter unchanged |
| Counter.NetCount | src/index.js:37-42 | with no SET_COUNT, the final count is the initial count plus the increments minus the decrements, with no bound in either direction |
| Counter.LastSetCountWins | src/index.js:37-44 | after the last SET_COUNT(n), the count is n plus the later increments minus the later decrements |
| History.Step | src/index.js:120-129 | the history reducer: PUSH_TO_HISTORY appends its payload, CLEAR_HISTORY empties the log, anything else returns the state |
| History.PushAppends | src/index.js:122-123 | PUSH_TO_HISTORY(v) grows the log by exactly one, puts v last and keeps the old entries as a prefix, in order |
| History.ClearEmptiesIdempotently | src/index.js:124-125 | CLEAR_HISTORY empties the log whatever it held, and clearing twice equals clearing once |
| History.UnrecognisedKeepsHistory | src/index.js:126-127 | every non-history action leaves the log unchanged |
| Root.Step | src/index.js:169-172 | the combined reducer: every action goes to both slice reducers |
| Root.SlicesIndependent | src/index.js:169-172 | each slice is reduced by its own reducer; counter actions leave the history untouched and history actions leave the count untouched |
| Root.UnrecognisedKeepsState | src/index.js:169-172 | an action that neither reducer recognises, such as a saga request, leaves the whole state unchanged |
| Mirror.Dispatched | src/index.js:217-223 | one dispatch: the root reducer, then for a counter action the logger's PUSH_TO_HISTORY of the count read after the update |
| Mirror.Run | src/index.js:217-223 | the state after dispatching a sequence of actions in order, logger included |
| Mirror.MirrorAppendsPostCount | src/index.js:217-223 | a counter action appends exactly one log entry, equal to the count after the action |
| Mirror.OthersNotMirrored | src/index.js:222 | pushes, clears and every other non-counter action trigger no further entry, so there is no feedback loop |
| Mirror.CounterUnaffectedByLogging | src/index.js:217-223 | the logger's pushes never change the count; the count after any run of dispatches is the counter reducer's alone |
| Mirror.LogOfCounterActions | src/index.js:217-223 | after a run of counter actions, the log is the old log followed by the count after each action, in order |
| Mirror.LogWithoutClear | src/index.js:120-129 | without CLEAR_HISTORY the old log stays a prefix, followed by the count after each counter action and the value of each push, in dispatch order |
| Mirror.HistoryAfterLastClear | src/index.js:124-125 | after the last CLEAR_HISTORY the log is exactly the count after each later counter action and the value of each later push, in order, counting from the count the clear left |
| Mirror.IncrementThenReset | src/index.js:17-19 | from the initial state, INCREMENT then SET_COUNT(0) gives count 0 and log [1, 0] |
| Sagas.Store.constructor | src/index.js:174-184 | the store starts from the reducers' defaults: count 0, empty log, no delay running |
| Sagas.Store.Dispatch | src/index.js:189-223 | the new snapshot is the reduced state plus the logger's push of the post-update count; DECREMENT_SAGA queues one DECREMENT and ignores its payload; SET_COUNT_SAGA(c) queues one SET_COUNT(c) with its own c; INCREMENT_SAGA with the watcher idle queues one INCREMENT and with the watcher in its delay leaves the queue as it was; other actions queue nothing |
| Sagas.Store.Reduce | src/index.js:217-223 | the snapshot becomes the root reducer's result followed, after a counter action, by the push of the post-update count |
| Sagas.Store.Take | src/index.js:197-210 | DECREMENT_SAGA queues one DECREMENT whatever its payload; SET_COUNT_SAGA(c) queues one SET_COUNT(c); INCREMENT_SAGA with the watcher idle queues one INCREMENT and with the watcher in its delay leaves the queue as it was; at most one INCREMENT is ever pending; other actions queue nothing |
| Sagas.Store.Fire | src/index.js:189-210 | the oldest deferred action is removed from the queue and dispatched, logger included; with nothing queued nothing changes |

## Left out

- The React components, `connect`, the props mappings, `bindActionCreators` and `ReactDOM.render`: they are display wiring over libraries that are not part of this model.
- The Redux DevTools hook and the `console.log` calls: they do not affect state.
- Subscriber notification and `getState`: the snapshot is the `state` field; listeners are not modelled.
- Real 1000 ms timers and redux-saga's scheduling (`fork`, `delay`): a running delay is an entry of the pending queue, and its end is a call to `Fire`.
- An INCREMENT_SAGA that arrives while the increment watcher is still in its delay is treated as missed: the watcher is not at its unbuffered `take`, so no second delay starts and the queue stays as it was (Sagas.Store.Take, Sagas.Store.Dispatch). That is how redux-saga's `take` behaves; the library itself is not part of this model.
- Payloads that no reducer reads (INCREMENT, DECREMENT, the saga requests, CLEAR_HISTORY) are abstracted to `Undefined` or an integer tag.
- PUSH_TO_HISTORY carries an integer, as every caller in the application passes a count; the reducer itself would append any value.
- SET_COUNT merges its payload object into the counter state; the model takes the payload to be exactly `{count}`, which is what `setCount` builds.
- JavaScript number precision: counts are unbounded integers, so nothing happens at 2^53.
