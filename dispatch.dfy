/** The request queue of index.js as a state machine over values: each public operation
    of `RequestQueue` and each arrival of a request's outcome is a function from the old
    state to the new one. The class in module Queue is proved to follow these functions,
    and the lemmas here prove what the functions preserve. */
module Dispatch {
  import opened Trace

  /** The mutable state of a queue.
      requests:  the pending list (`_requests`)
      running:   requests started and not yet settled (`_running`)
      completed: whether `completed` has been emitted for the current drain (`_completed`)
      owed:      pumps scheduled by a settled request and not yet run (the `_wait().then(...)`
                 continuations)
      log:       executor calls and emitted events, in order
      pushed, cleared: how many requests were ever added, and how many `clear` dropped */
  datatype State<T> = State(
    requests: seq<T>,
    running: nat,
    completed: bool,
    owed: nat,
    log: seq<Effect<T>>,
    pushed: nat,
    cleared: nat)

  /** The state right after construction (index.js:39-44). */
  function Initial<T>(): State<T> {
    State([], 0, false, 0, [], 0, 0)
  }

  predicate Drained<T>(s: State<T>) {
    s.running == 0 && s.requests == []
  }

  /** No further request can be admitted: all slots are busy or nothing is pending. */
  predicate Saturated<T>(parallel: nat, s: State<T>) {
    s.running >= parallel || s.requests == []
  }

  /** How many head requests one pump admits. */
  function Admissible<T>(parallel: nat, s: State<T>): (k: nat)
    ensures k <= |s.requests|
    ensures k == 0 || s.running + k <= parallel
    ensures k == |s.requests| || s.running + k >= parallel
  {
    if s.running >= parallel then 0
    else if parallel - s.running < |s.requests| then parallel - s.running
    else |s.requests|
  }

  /** One iteration of the loop in `_next` (index.js:53-55). */
  function Admit<T>(s: State<T>): State<T>
    requires s.requests != []
  {
    s.(requests := s.requests[1..], running := s.running + 1, completed := false,
       log := s.log + [Start(s.requests[0])])
  }

  /** `_emitIfCompleted` (index.js:74-79). */
  function EmitIfCompleted<T>(s: State<T>): State<T> {
    if Drained(s) && !s.completed then s.(completed := true, log := s.log + [Emit(Completed)])
    else s
  }

  /** `_next` (index.js:51-68): admit head requests while a slot is free, then announce a
      drain that has not been announced yet. The result is stated in closed form: exactly
      the first Admissible(parallel, s) requests are started, in order, the queue is left
      saturated, and `completed` is emitted at most once, last. */
  function Pump<T>(parallel: nat, s: State<T>): (r: State<T>)
    ensures r.requests == s.requests[Admissible(parallel, s)..]
    ensures r.running == s.running + Admissible(parallel, s)
    ensures s.running <= parallel ==> r.running <= parallel
    ensures Saturated(parallel, r)
    ensures r.completed == ((Admissible(parallel, s) == 0 && s.completed) || Drained(r))
    ensures r.owed == s.owed && r.pushed == s.pushed && r.cleared == s.cleared
    decreases |s.requests|
  {
    if s.running < parallel && s.requests != [] then
      var t := Admit(s);
      assert t.requests[Admissible(parallel, t)..] == s.requests[Admissible(parallel, s)..];
      Pump(parallel, t)
    else
      EmitIfCompleted(s)
  }

  /** The effects of a pump: the admitted head requests are started in order, then a
      `completed` is emitted exactly when the queue is drained and that drain was not
      announced before the pump. */
  lemma {:induction false} PumpEffects<T>(parallel: nat, s: State<T>)
    ensures var r, k := Pump(parallel, s), Admissible(parallel, s);
      r.log == s.log + StartAll(s.requests[..k])
               + (if Drained(r) && !(k == 0 && s.completed) then [Emit(Completed)] else [])
    decreases |s.requests|
  {
    var r, k := Pump(parallel, s), Admissible(parallel, s);
    if s.running < parallel && s.requests != [] {
      assert k != 0;
      var t, x := Admit(s), s.requests[0];
      var tail: seq<Effect<T>> := if Drained(r) then [Emit(Completed)] else [];
      PumpUnfold(parallel, s);
      var batch := t.requests[..k - 1];
      assert r.log == t.log + StartAll(batch) + tail by {
        PumpEffects(parallel, t);
      }
      assert t.log + StartAll(batch) == s.log + StartAll(s.requests[..k]) by {
        assert s.requests[..k] == [x] + batch;
        StartAllCons(x, batch);
        assert t.log == s.log + [Start(x)];
        ConcatAssoc(s.log, [Start(x)], StartAll(batch));
      }
      assert k != 0;
    } else {
      assert k == 0 && s.requests[..k] == [];
    }
  }

  /** One turn of the pump's loop: admitting the head leaves one admission fewer to do. */
  lemma PumpUnfold<T>(parallel: nat, s: State<T>)
    requires s.running < parallel && s.requests != []
    ensures Pump(parallel, Admit(s)) == Pump(parallel, s)
    ensures Admissible(parallel, Admit(s)) == Admissible(parallel, s) - 1
    ensures !Admit(s).completed
  {
  }

  /** What a pump does to the started requests and the outcomes. */
  lemma PumpStartsHead<T>(parallel: nat, s: State<T>)
    ensures var r := Pump(parallel, s);
      Started(r.log) == Started(s.log) + s.requests[..Admissible(parallel, s)]
      && Outcomes(r.log) == Outcomes(s.log)
      && Started(r.log) + r.requests == Started(s.log) + s.requests
  {
    var k, r := Admissible(parallel, s), Pump(parallel, s);
    var batch, rest := s.requests[..k], s.requests[k..];
    var started := Started(s.log);
    assert Started(r.log) == started + batch && Outcomes(r.log) == Outcomes(s.log) by {
      var tail: seq<Effect<T>> :=
        if Drained(r) && !(k == 0 && s.completed) then [Emit(Completed)] else [];
      PumpEffects(parallel, s);
      assert r.log == s.log + StartAll(batch) + tail;
      StartsThenTail(s.log, batch, tail);
    }
    assert r.requests == rest && batch + rest == s.requests;
    ConcatAssoc(started, batch, rest);
  }

  /** Starting a batch and then possibly announcing a drain adds the batch to the started
      requests and no outcome. */
  lemma StartsThenTail<T>(log: seq<Effect<T>>, batch: seq<T>, tail: seq<Effect<T>>)
    requires tail == [] || tail == [Emit(Completed)]
    ensures Started(log + StartAll(batch) + tail) == Started(log) + batch
    ensures Outcomes(log + StartAll(batch) + tail) == Outcomes(log)
  {
    var mid := log + StartAll(batch);
    StartAllEffects(log, batch);
    if tail == [] {
      assert mid + tail == mid;
    } else {
      SnocEffects(mid, Emit(Completed));
    }
  }

  lemma ConcatAssoc<T>(a: seq<T>, b: seq<T>, c: seq<T>)
    ensures (a + b) + c == a + (b + c)
  {
  }

  /** `push` (index.js:97-101): append one request and pump. */
  function Push<T>(parallel: nat, s: State<T>, x: T): (r: State<T>)
    ensures Started(r.log) + r.requests == Started(s.log) + s.requests + [x]
    ensures Outcomes(r.log) == Outcomes(s.log)
    ensures Started(s.log) <= Started(r.log)
  {
    var t := s.(requests := s.requests + [x], pushed := s.pushed + 1);
    PumpStartsHead(parallel, t);
    ConcatAssoc(Started(s.log), s.requests, [x]);
    Pump(parallel, t)
  }

  /** Pushing one request is pushing a batch of one. */
  lemma PushIsPushAllOfOne<T>(parallel: nat, s: State<T>, x: T)
    ensures Push(parallel, s, x) == PushAll(parallel, s, [x])
  {
    assert s.(requests := s.requests + [x], pushed := s.pushed + 1)
        == s.(requests := s.requests + [x], pushed := s.pushed + |[x]|);
  }

  /** `pushAll` (index.js:108-112): append a batch, keeping its order, and pump. */
  function PushAll<T>(parallel: nat, s: State<T>, xs: seq<T>): (r: State<T>)
    ensures Started(r.log) + r.requests == Started(s.log) + s.requests + xs
    ensures Outcomes(r.log) == Outcomes(s.log)
    ensures Started(s.log) <= Started(r.log)
  {
    var t := s.(requests := s.requests + xs, pushed := s.pushed + |xs|);
    PumpStartsHead(parallel, t);
    ConcatAssoc(Started(s.log), s.requests, xs);
    Pump(parallel, t)
  }

  /** `unshift` (index.js:126-130): put one request at the head and pump. */
  function Unshift<T>(parallel: nat, s: State<T>, x: T): (r: State<T>)
    ensures Started(r.log) + r.requests == Started(s.log) + [x] + s.requests
    ensures Outcomes(r.log) == Outcomes(s.log)
    ensures Started(s.log) <= Started(r.log)
  {
    var t := s.(requests := [x] + s.requests, pushed := s.pushed + 1);
    PumpStartsHead(parallel, t);
    ConcatAssoc(Started(s.log), [x], s.requests);
    Pump(parallel, t)
  }

  /** `unshiftAll` (index.js:136-140): put a batch, in its own order, ahead of every
      pending request and pump. */
  function UnshiftAll<T>(parallel: nat, s: State<T>, xs: seq<T>): (r: State<T>)
    ensures Started(r.log) + r.requests == Started(s.log) + xs + s.requests
    ensures Outcomes(r.log) == Outcomes(s.log)
    ensures Started(s.log) <= Started(r.log)
  {
    var t := s.(requests := xs + s.requests, pushed := s.pushed + |xs|);
    PumpStartsHead(parallel, t);
    ConcatAssoc(Started(s.log), xs, s.requests);
    Pump(parallel, t)
  }

  /** Each mutator edits the pending list and the added count, then pumps. */
  lemma PushIsPump<T>(parallel: nat, s: State<T>, x: T)
    ensures Push(parallel, s, x) == Pump(parallel, s.(requests := s.requests + [x], pushed := s.pushed + 1))
  {
  }

  lemma PushAllIsPump<T>(parallel: nat, s: State<T>, xs: seq<T>)
    ensures PushAll(parallel, s, xs) == Pump(parallel, s.(requests := s.requests + xs, pushed := s.pushed + |xs|))
  {
  }

  lemma UnshiftIsPump<T>(parallel: nat, s: State<T>, x: T)
    ensures Unshift(parallel, s, x) == Pump(parallel, s.(requests := [x] + s.requests, pushed := s.pushed + 1))
  {
  }

  lemma UnshiftAllIsPump<T>(parallel: nat, s: State<T>, xs: seq<T>)
    ensures UnshiftAll(parallel, s, xs) == Pump(parallel, s.(requests := xs + s.requests, pushed := s.pushed + |xs|))
  {
  }

  /** `clear` (index.js:146-148): drop the pending requests; nothing is started or emitted
      and the running count and the flag are left as they were. */
  function Clear<T>(s: State<T>): (r: State<T>)
    ensures r.requests == [] && r.log == s.log
    ensures r.running == s.running && r.completed == s.completed && r.owed == s.owed
    ensures r.pushed == s.pushed && r.cleared == s.cleared + |s.requests|
  {
    s.(requests := [], cleared := s.cleared + |s.requests|)
  }

  /** The start of an outcome handler (index.js:57-58 and 62-63): one running request
      settles, its outcome is emitted, and a pump becomes owed. */
  function Settle<T>(s: State<T>, success: bool): (r: State<T>)
    requires s.running > 0
    ensures r.running + 1 == s.running && r.owed == s.owed + 1
    ensures r.requests == s.requests && r.completed == s.completed
    ensures Started(r.log) == Started(s.log) && Outcomes(r.log) == Outcomes(s.log) + 1
    ensures Announced(r.log) == Announced(s.log)
    ensures r.log == s.log + [Emit(if success then Resolved else Rejected)]
    ensures r.pushed == s.pushed && r.cleared == s.cleared
  {
    var e := Emit(if success then Resolved else Rejected);
    SnocEffects(s.log, e);
    s.(running := s.running - 1, owed := s.owed + 1, log := s.log + [e])
  }

  /** The end of an outcome handler (index.js:59 and 64): after the wait, an owed pump runs. */
  function Resume<T>(parallel: nat, s: State<T>): (r: State<T>)
    requires s.owed > 0
    ensures r.owed + 1 == s.owed
    ensures Started(r.log) + r.requests == Started(s.log) + s.requests
    ensures Outcomes(r.log) == Outcomes(s.log)
  {
    var t := s.(owed := s.owed - 1);
    PumpStartsHead(parallel, t);
    Pump(parallel, t)
  }

  /** What holds of a state at every step, also in the middle of a pump. */
  predicate Sound<T>(parallel: nat, s: State<T>) {
    && s.running <= parallel
    && s.completed == Announced(s.log)
    && |Started(s.log)| == Outcomes(s.log) + s.running
    && History(parallel, s.log)
    && s.pushed == |s.requests| + |Started(s.log)| + s.cleared
  }

  /** The invariant of a queue between operations. */
  predicate Inv<T>(parallel: nat, s: State<T>) {
    && parallel >= 1
    && Sound(parallel, s)
    && (s.completed ==> Drained(s))
    && (Saturated(parallel, s) || s.owed > 0)
    && (Drained(s) && s.owed == 0 && s.log != [] ==> s.completed)
  }

  lemma InitialInv<T>(parallel: nat)
    requires parallel >= 1
    ensures Inv(parallel, Initial<T>())
  {
  }

  lemma AdmitSound<T>(parallel: nat, s: State<T>)
    requires Sound(parallel, s) && s.running < parallel && s.requests != []
    ensures Sound(parallel, Admit(s))
  {
    var e := Start(s.requests[0]);
    SnocEffects(s.log, e);
    HistorySnoc(parallel, s.log, e);
    assert s.requests == [s.requests[0]] + s.requests[1..];
  }

  lemma EmitIfCompletedSound<T>(parallel: nat, s: State<T>)
    requires Sound(parallel, s)
    ensures Sound(parallel, EmitIfCompleted(s))
  {
    if Drained(s) && !s.completed {
      SnocEffects(s.log, Emit(Completed));
      HistorySnoc(parallel, s.log, Emit(Completed));
    }
  }

  lemma {:induction false} PumpSound<T>(parallel: nat, s: State<T>)
    requires Sound(parallel, s)
    ensures Sound(parallel, Pump(parallel, s))
    decreases |s.requests|
  {
    if s.running < parallel && s.requests != [] {
      AdmitSound(parallel, s);
      PumpSound(parallel, Admit(s));
    } else {
      EmitIfCompletedSound(parallel, s);
    }
  }

  /** A pump from a sound state whose flag is only set when nothing runs re-establishes
      the full invariant. */
  lemma PumpRestoresInv<T>(parallel: nat, s: State<T>)
    requires parallel >= 1 && Sound(parallel, s)
    requires s.completed ==> s.running == 0
    ensures Inv(parallel, Pump(parallel, s))
  {
    PumpSound(parallel, s);
  }

  lemma PushKeepsInv<T>(parallel: nat, s: State<T>, x: T)
    requires Inv(parallel, s)
    ensures Inv(parallel, Push(parallel, s, x))
  {
    var t := s.(requests := s.requests + [x], pushed := s.pushed + 1);
    assert |t.requests| == |s.requests| + 1;
    PumpRestoresInv(parallel, t);
    assert Push(parallel, s, x) == Pump(parallel, t);
  }

  lemma PushAllKeepsInv<T>(parallel: nat, s: State<T>, xs: seq<T>)
    requires Inv(parallel, s)
    ensures Inv(parallel, PushAll(parallel, s, xs))
  {
    var t := s.(requests := s.requests + xs, pushed := s.pushed + |xs|);
    assert |t.requests| == |s.requests| + |xs|;
    PumpRestoresInv(parallel, t);
    assert PushAll(parallel, s, xs) == Pump(parallel, t);
  }

  lemma UnshiftKeepsInv<T>(parallel: nat, s: State<T>, x: T)
    requires Inv(parallel, s)
    ensures Inv(parallel, Unshift(parallel, s, x))
  {
    var t := s.(requests := [x] + s.requests, pushed := s.pushed + 1);
    assert |t.requests| == |s.requests| + 1;
    PumpRestoresInv(parallel, t);
    assert Unshift(parallel, s, x) == Pump(parallel, t);
  }

  lemma UnshiftAllKeepsInv<T>(parallel: nat, s: State<T>, xs: seq<T>)
    requires Inv(parallel, s)
    ensures Inv(parallel, UnshiftAll(parallel, s, xs))
  {
    var t := s.(requests := xs + s.requests, pushed := s.pushed + |xs|);
    assert |t.requests| == |s.requests| + |xs|;
    PumpRestoresInv(parallel, t);
    assert UnshiftAll(parallel, s, xs) == Pump(parallel, t);
  }

  lemma ClearKeepsInv<T>(parallel: nat, s: State<T>)
    requires Inv(parallel, s)
    ensures Inv(parallel, Clear(s))
  {
  }

  lemma SettleKeepsInv<T>(parallel: nat, s: State<T>, success: bool)
    requires Inv(parallel, s) && s.running > 0
    ensures Inv(parallel, Settle(s, success))
  {
    HistorySnoc(parallel, s.log, Emit(if success then Resolved else Rejected));
  }

  lemma ResumeKeepsInv<T>(parallel: nat, s: State<T>)
    requires Inv(parallel, s) && s.owed > 0
    ensures Inv(parallel, Resume(parallel, s))
  {
    PumpRestoresInv(parallel, s.(owed := s.owed - 1));
  }

  /** When `completed` has been emitted for the current drain, every request that was
      added and not cleared has been started and has emitted exactly one outcome. */
  lemma CompletedAccountsForEveryPush<T>(parallel: nat, s: State<T>)
    requires Inv(parallel, s) && s.completed
    ensures Outcomes(s.log) == |Started(s.log)|
    ensures s.pushed == Outcomes(s.log) + s.cleared
  {
  }
}
