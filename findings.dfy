/** The outcome handlers of index.js:55-65 as written. `catch` is chained after `then`, so
    it also receives an exception thrown inside the `then` handler. `emit` calls listeners
    synchronously, so a listener that throws leaves its handler at the `emit` call, before
    the handler schedules its pump. */
module ListenerFault {
  import opened Trace
  import Dispatch

  /** What the handlers touch: `_running`, the outcome events emitted, and the pumps
      scheduled through `_wait().then(() => this._next())`. `running` is an int because,
      as written, it can drop below zero. */
  datatype Handled = Handled(running: int, events: seq<Event>, pumps: nat)

  /** One handler body (index.js:57-59 or 62-64): decrement, emit `e`, then schedule a pump,
      unless a listener of `e` throws, which ends the handler at the `emit`. The boolean
      result says whether the handler threw. */
  function Handler(h: Handled, e: Event, listenerThrows: bool): (Handled, bool) {
    var emitted := h.(running := h.running - 1, events := h.events + [e]);
    if listenerThrows then (emitted, true)
    else (emitted.(pumps := emitted.pumps + 1), false)
  }

  /** `request(x).then(A).catch(B)` once the request settles: on success A runs, and if A
      throws, B runs as well; on failure only B runs. */
  function ThenCatchAsWritten(h: Handled, success: bool, resolvedThrows: bool, rejectedThrows: bool): Handled {
    if success then
      var (a, threw) := Handler(h, Resolved, resolvedThrows);
      if threw then Handler(a, Rejected, rejectedThrows).0 else a
    else Handler(h, Rejected, rejectedThrows).0
  }

  /** When no listener throws, the handlers as written do exactly what `Dispatch.Settle`
      does: one decrement, one outcome, one owed pump. */
  lemma QuietListenersMatchSettle<T>(s: Dispatch.State<T>, success: bool)
    requires s.running > 0
    ensures var r, h := Dispatch.Settle(s, success), ThenCatchAsWritten(Handled(s.running, [], s.owed), success, false, false);
      h.running == r.running && h.pumps == r.owed
      && r.log == s.log + [Emit(h.events[0])] && |h.events| == 1
  {
  }

  /** A `resolved` listener that throws makes one request settle twice: the count drops by
      two and both `resolved` and `rejected` are emitted. The `then` handler's pump is lost,
      the `catch` handler's pump is scheduled. */
  lemma ThrowingListenerDoubleSettles(h: Handled)
    ensures var r := ThenCatchAsWritten(h, true, true, false);
      r.running == h.running - 2 && r.events == h.events + [Resolved, Rejected]
      && r.pumps == h.pumps + 1
  {
    var (a, threw) := Handler(h, Resolved, true);
    assert threw && a.events == h.events + [Resolved];
    assert a.events + [Rejected] == h.events + [Resolved, Rejected];
  }

  /** With one request running, the double settle drives the count to -1. */
  lemma ThrowingListenerDrivesCountNegative()
    ensures ThenCatchAsWritten(Handled(1, [], 0), true, true, false).running == -1
  {
    ThrowingListenerDoubleSettles(Handled(1, [], 0));
  }

  /** A `rejected` listener that throws ends the `catch` handler before it schedules its pump:
      the outcome is counted, but no pump follows it. */
  lemma ThrowingRejectedListenerLosesPump(h: Handled, resolvedThrows: bool)
    ensures var r := ThenCatchAsWritten(h, false, resolvedThrows, true);
      r.running == h.running - 1 && r.events == h.events + [Rejected] && r.pumps == h.pumps
  {
  }
}
