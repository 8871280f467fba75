# node-request-queue: the bounded-concurrency dispatcher, in Dafny

`RequestQueue` (index.js) keeps a list of pending requests. It starts at most `parallel` of
them at a time, in list order, and emits `resolved` or `rejected` for each request's
outcome. When nothing is pending or running, it emits `completed` once per drain. Every
mutator (`push`, `pushAll`, `unshift`, `unshiftAll`) edits the pending list and then runs
the pump `_next`. Every outcome handler decrements the running count, emits the outcome,
waits `waitTime`, and pumps again.

This model has five parts:

- `trace.dfy`, module `Trace`. This is the observable behaviour. It is one log of
  `Start(request)`, which is a call of the executor (the HTTP client), and `Emit(event)`.
  The functions over the log give the started requests (`Started`), the number of
  outcomes (`Outcomes`), and whether the last drain has been announced (`Announced`). The
  three properties every log of a queue has are:
  - in every prefix, the requests in flight number between 0 and `parallel`;
  - a `completed` comes only once every started request has its outcome;
  - between two `completed` events, some request was started.
- `dispatch.dfy`, module `Dispatch`. The queue as a state machine over values `State`:
  pending list, running count, `completed` flag, owed pumps, the log, and the added and
  cleared counts. It has one function per operation (`Pump`, `Push`, `PushAll`,
  `Unshift`, `UnshiftAll`, `Clear`, `Settle`, `Resume`). The invariant `Inv` holds
  between operations, and each operation is proved to preserve it.
- `request_queue.dfy`, module `Queue`. The class `RequestQueue` has the fields of
  index.js. `Next` is the `while` loop of `_next`, proved to change the fields exactly as
  `Dispatch.Pump`; `EmitIfCompleted` is proved to change them exactly as
  `Dispatch.EmitIfCompleted`. Each public mutator and handler step (`Push`, `PushAll`,
  `Unshift`, `UnshiftAll`, `Clear`, `Settle`, `Resume`, `Complete`) is proved to change
  the fields exactly as the matching `Dispatch` function does and to keep `Valid()`,
  which is `Inv`. `Size` changes nothing and returns the pending count. `CheckConfig`
  and `Create` model the constructor's argument checks.
- `scenarios.dfy`, module `Scenarios`. Concrete runs with one, two and three slots.
- `findings.dfy`, module `ListenerFault`. The outcome handlers as written, for the finding
  below.

An outcome handler is split into two steps, because other work can run between them even
when `waitTime` is 0: `_wait()` then returns an already resolved promise (index.js:86),
but its `.then(() => this._next())` continuation (index.js:59 and 64) still runs in a
later job.

- `Settle(success)` is the handler up to `_wait()`. It decrements the count, emits the
  outcome, and owes one pump.
- `Resume()` is the deferred `_next()`.

`Complete` is the two steps with nothing between them. The ghost count `owed` tracks the
scheduled but not yet run continuations. With it, the invariant can say: "either no
request can be admitted, or a pump is owed".

Admission order follows the code. With one slot, `pushAll([a, b, c])` pumps at once and
starts `a` (index.js:110). A following `unshift(z)` therefore yields the order a, z, b, c,
not z, a, b, c. `Scenarios.FrontInsertionOrder` proves this. `clear` on a queue with
nothing running emits no `completed`: it does not pump (index.js:146-148). Its doc comment promises `this`, but it returns nothing, and the model follows the code.

## Model

| member | source | states |
|---|---|---|
| `Queue.CheckConfig` | index.js:36-37 | the arguments are accepted iff `parallel` is an integer >= 1 and `waitTime` an integer >= 0; the `parallel` error is reported whenever `parallel` is bad; an accepted configuration holds exactly the given numbers |
| `Queue.IsInteger` | index.js:36-37 | definition: `Number.isInteger` on a finite number, the number equals its floor |
| `Queue.Create` | index.js:33-45 | construction fails, with the error of the first failed check, exactly when CheckConfig rejects; otherwise a fresh valid queue in the initial state with the given `parallel` and `waitTime` |
| `Queue.RequestQueue.constructor` | index.js:39-44 | empty pending list, nothing running, flag false, empty log, and the invariant holds |
| `Dispatch.InitialInv` | index.js:39-44 | the initial state satisfies the queue invariant for every `parallel` >= 1 |
| `Dispatch.Initial` | index.js:39-44 | definition: empty pending list, nothing running, flag false, no owed pump, empty log, nothing added or cleared |
| `Queue.RequestQueue.Next` | index.js:51-68 | the loop leaves the fields equal to `Dispatch.Pump` of the old fields |
| `Queue.RequestQueue.EmitIfCompleted` | index.js:74-79 | the fields become `Dispatch.EmitIfCompleted` of the old ones: `completed` is emitted and the flag set only when nothing runs, nothing is pending and the flag was false |
| `Dispatch.EmitIfCompleted` | index.js:74-79 | definition: when nothing runs, nothing is pending and the flag is clear, set the flag and append `Emit(Completed)`; otherwise the state is unchanged |
| `Dispatch.Pump` | index.js:51-68 | a pump admits exactly min(free slots, pending) head requests; it keeps `running <= parallel`; on exit either every slot is busy or nothing is pending; the flag afterwards is set iff the queue is drained or nothing was admitted and it was already set |
| `Dispatch.Admit` | index.js:53-55 | definition: one loop iteration: clear the flag, count one more running request, append `Start` of the head and drop the head from the pending list |
| `Dispatch.PumpEffects` | index.js:52-78 | a pump's effects are the starts of the admitted head requests in list order, then one `completed` exactly when the queue ends drained and that drain was not already announced |
| `Dispatch.PumpStartsHead` | index.js:52-55 | the started requests grow by the admitted prefix of the pending list; no outcome is emitted; started followed by pending is unchanged |
| `Trace.StartAllEffects` | index.js:53-55 | starting a batch appends the batch, in its order, to the started requests, adds no outcome and cancels the previous announcement |
| `Dispatch.PumpSound` | index.js:51-68 | a pump keeps the step invariant: `running <= parallel`, flag == announced since the last start, started == outcomes + running, the log history, and added == pending + started + cleared |
| `Dispatch.PumpRestoresInv` | index.js:51-79 | from a sound state whose flag implies nothing runs, a pump re-establishes the full queue invariant |
| `Dispatch.Push` | index.js:97-101 | the request goes to the tail: started followed by pending equals the old started followed by old pending and then `x`; no outcome is emitted; the old started requests are a prefix of the new ones (nothing already started is dropped) |
| `Dispatch.PushAll` | index.js:108-112 | the batch goes to the tail in its own order: started followed by pending equals old started followed by old pending and then `xs`; the old started requests are a prefix of the new ones (nothing already started is dropped) |
| `Dispatch.PushIsPushAllOfOne` | index.js:97-112 | `push(x)` leaves exactly the state `pushAll([x])` leaves |
| `Dispatch.Unshift` | index.js:126-130 | the request goes ahead of every pending one: started followed by pending equals old started followed by `x` and then old pending; the old started requests are a prefix of the new ones (nothing already started is dropped) |
| `Dispatch.UnshiftAll` | index.js:136-140 | the batch, in its own order, goes ahead of every pending request: started followed by pending equals old started followed by `xs` and then old pending; the old started requests are a prefix of the new ones (nothing already started is dropped) |
| `Dispatch.Clear` | index.js:146-148 | the pending list becomes empty; running count, flag, owed pumps and log are untouched (no pump, no event); the dropped requests are counted as cleared |
| `Dispatch.Settle` | index.js:56-63 | one running request settles: running drops by one, exactly one outcome (`resolved` on success, `rejected` otherwise) is appended, nothing is started, the announcement state is unchanged, one pump becomes owed |
| `Dispatch.Resume` | index.js:59-64 | an owed pump runs; it keeps the order of started followed by pending and emits no outcome |
| `Dispatch.PushKeepsInv` | index.js:97-101 | `push` preserves the queue invariant |
| `Dispatch.PushAllKeepsInv` | index.js:108-112 | `pushAll` preserves the queue invariant |
| `Dispatch.UnshiftKeepsInv` | index.js:126-130 | `unshift` preserves the queue invariant |
| `Dispatch.UnshiftAllKeepsInv` | index.js:136-140 | `unshiftAll` preserves the queue invariant |
| `Dispatch.ClearKeepsInv` | index.js:146-148 | `clear` preserves the queue invariant |
| `Dispatch.SettleKeepsInv` | index.js:56-63 | an arriving outcome preserves the queue invariant |
| `Dispatch.ResumeKeepsInv` | index.js:59-64 | the deferred pump of a handler preserves the queue invariant |
| `Dispatch.AdmitSound` | index.js:53-55 | one admission from a free slot keeps the step invariant |
| `Dispatch.EmitIfCompletedSound` | index.js:74-79 | `_emitIfCompleted` keeps the step invariant: a `completed` is only appended when everything settled and the last drain was not announced |
| `Trace.HistoryMeans` | index.js:51-79 | the step-wise history of a queue's log gives the three whole-log properties: in-flight count in [0, parallel] in every prefix, `completed` only when every started request has an outcome, a start between any two `completed` |
| `Trace.NotAnnouncedHasStart` | index.js:53 | when the flag is clear, every earlier `completed` in the log is followed by a start |
| `Dispatch.CompletedAccountsForEveryPush` | test/tests.js:19-24 | once `completed` is announced, outcomes == started requests, and outcomes + cleared == requests ever added |
| `Queue.RequestQueue.Push` | index.js:97-101 | returns the queue itself; the fields become `Dispatch.Push` of the old ones; `Valid()` is kept |
| `Queue.RequestQueue.PushAll` | index.js:108-112 | returns the queue itself; the fields become `Dispatch.PushAll` of the old ones; `Valid()` is kept |
| `Queue.RequestQueue.Size` | index.js:118-120 | returns the number of pending requests (running ones excluded) and changes nothing |
| `Queue.RequestQueue.Unshift` | index.js:126-130 | returns the queue itself; the fields become `Dispatch.Unshift` of the old ones; `Valid()` is kept |
| `Queue.RequestQueue.UnshiftAll` | index.js:136-140 | returns the queue itself; the fields become `Dispatch.UnshiftAll` of the old ones; `Valid()` is kept |
| `Queue.RequestQueue.Clear` | index.js:146-148 | returns nothing; the fields become `Dispatch.Clear` of the old ones; `Valid()` is kept |
| `Queue.RequestQueue.Settle` | index.js:56-63 | the fields become `Dispatch.Settle` of the old ones; `Valid()` is kept |
| `Queue.RequestQueue.Resume` | index.js:59-64 | the fields become `Dispatch.Resume` of the old ones; `Valid()` is kept |
| `Queue.RequestQueue.Complete` | index.js:56-65 | a whole handler with no interleaving: the fields become `Resume` after `Settle` of the old ones |
| `Scenarios.OneSlotPushAllStartsHead` | index.js:108-112 | one slot, idle queue: `pushAll` starts the head of the batch at once and leaves the rest pending in order |
| `Scenarios.UnshiftWhenFull` | index.js:126-130 | with every slot busy, `unshift` starts nothing and the request waits at the head |
| `Scenarios.OneFreeSlotStartsHead` | index.js:52-55 | a pump with one slot, free, and requests pending starts exactly the head and leaves the rest pending |
| `Scenarios.OneSlotHandOver` | index.js:56-64 | one slot busy and requests pending: an outcome and the pump after it start the head of the pending list |
| `Scenarios.OutcomeWhileOthersRun` | index.js:56-79 | with others still running and nothing pending, an outcome starts nothing and announces nothing |
| `Scenarios.LastOutcomeCompletes` | index.js:56-79 | the last running request's outcome, with nothing pending, drains the queue and announces `completed` |
| `Scenarios.OneSlotPushStarts` | index.js:97-101 | one slot, idle queue: `push` starts the request at once and clears the flag |
| `Scenarios.EmptyPushAllOnAnnouncedDrain` | index.js:74-79 | on an already announced drain, an empty `pushAll` appends nothing to the log |
| `Scenarios.FiveThroughSlots` | index.js:51-68 | five requests into an idle queue with two or three slots: that many start at once, the rest wait in order, no `completed` |
| `Scenarios.SizeExcludesRunning` | index.js:118-120 | one slot, three pushed: size 2, one running, the first request started |
| `Scenarios.FrontInsertionOrder` | index.js:108-130 | one slot, `pushAll([a,b,c])` then `unshift(z)`: `a` is already running and `z` is the next to start |
| `Scenarios.FiveThroughThreeSlots` | index.js:51-68 | three slots, five pushed: three start at once, two wait, no `completed` yet |
| `Scenarios.ClearWhileRunning` | index.js:146-148 | two running and three pending: `clear` empties the list without emitting; `completed` follows the second outcome's pump |
| `Scenarios.SecondEpisode` | index.js:74-79 | after an announced drain, an empty `pushAll` emits nothing; a new push and its outcome lead to a second `completed` |
| `ListenerFault.Handler` | index.js:57-59 | definition: one handler body as written: decrement, emit, then schedule a pump unless a listener of the event throws, which ends the handler at the `emit` |
| `ListenerFault.ThenCatchAsWritten` | index.js:55-65 | definition: `.then(A).catch(B)` as written: on success A runs, and B runs too if A throws; on failure only B runs |
| `ListenerFault.QuietListenersMatchSettle` | index.js:56-65 | when no listener throws, the handlers as written do what `Dispatch.Settle` does: one decrement, exactly one outcome appended, one pump owed |
| `ListenerFault.ThrowingListenerDoubleSettles` | index.js:56-65 | as written, a throwing `resolved` listener makes one request settle twice: the count drops by two, `resolved` then `rejected` are emitted, and one pump (the `catch` handler's) is scheduled |
| `ListenerFault.ThrowingListenerDrivesCountNegative` | index.js:56-65 | with one request running, that double settle leaves the count at -1 |
| `ListenerFault.ThrowingRejectedListenerLosesPump` | index.js:61-64 | as written, a throwing `rejected` listener ends the `catch` handler after the decrement and the emit, so no pump is scheduled |

## Left out

- The HTTP call (`request-promise`, index.js:3 and 55) is not modelled. Starting one is the log entry `Start(x)`. Its outcome is the parameter `success` of `Settle`, and the result or error payload is not carried.
- `EventEmitter` subscription and dispatch (index.js:4 and 26) are not modelled. Emitting an event appends `Emit(e)` to the log, and listeners are not modelled.
- `_wait` (index.js:85-90) is not modelled as a timer. The delay is the gap between `Settle` and `Resume`, and other operations may run in it. `waitTime` is stored but measures no time.
- Default arguments (`parallel = 1`, `waitTime = 0`, index.js:33) are not modelled: `Create` takes both arguments explicitly.
- JavaScript numbers are modelled as `real`, so NaN, infinities and non-number arguments are not represented. `Number.isInteger` is the test `x.Floor as real == x`.
- `Queue.RequestQueue.Push` (and the other mutators): chaining is modelled only as returning the receiver.
- Non-array batches are not represented: `pushAll` and `unshiftAll` take a sequence. With `Array.prototype.concat`, a non-array `reqs` is appended to `pushAll`'s list as a single element (index.js:109), and a string `reqs` turns `unshiftAll`'s list into a string (index.js:137).
- Cancellation and retries do not exist in the source and are not modelled.
- test/tests.js and sample/sample.js are not part of this model. The test expectations appear only as properties (`Dispatch.CompletedAccountsForEveryPush`).

## Findings

| source | as written | input that shows it | evidently intended | confidence | as-written member | corrected member |
|---|---|---|---|---|---|---|
| index.js:56-65 | `.catch` is chained after `.then`, so an exception thrown by a `resolved` listener inside the `then` handler also runs the `catch` handler. That handler decrements `_running` a second time and emits `rejected` for a request that resolved. | `parallel` 1, one request running, it resolves, and a `resolved` listener throws: `_running` becomes -1, both `resolved` and `rejected` are emitted for that one request | each request settles once, with exactly one outcome, whatever its listeners do. `.then(onResolved, onRejected)` alone stops the double settle, but it still loses the pump when the listener throws (next row); scheduling the pump before the `emit`, or in a `finally`, gives both | medium; not executed | `ListenerFault.ThrowingListenerDoubleSettles` | `Dispatch.Settle` (its contract states one outcome, and `Dispatch.SettleKeepsInv` proves `0 <= running <= parallel` is kept) |
| index.js:61-64 | in each handler, the pump `this._wait().then(() => this._next())` is scheduled after `this.emit(...)`, so a listener that throws ends the handler before the pump is scheduled. In the `catch` handler nothing catches that exception. | `parallel` 1, requests `a` and `b` pushed, `a` fails, and a `rejected` listener throws: `_running` drops to 0 but no pump is scheduled, so `b` stays pending until another mutator runs | every outcome is followed by a pump, whatever its listeners do | low; not executed | `ListenerFault.ThrowingRejectedListenerLosesPump` | `Dispatch.Settle` (it always owes one pump, and `Dispatch.SettleKeepsInv` keeps "saturated or a pump is owed") |
