/** Concrete runs of a queue, replayed on the state machine of module Dispatch, which the
    methods of `Queue.RequestQueue` are proved to follow step by step. */
module Scenarios {
  import opened Trace
  import opened Dispatch

  /** One slot, nothing running or pending: `pushAll` starts the head of the batch at once
      and leaves the rest pending. */
  lemma OneSlotPushAllStartsHead<T>(s: State<T>, x: T, xs: seq<T>)
    requires s.running == 0 && s.requests == []
    ensures var r := PushAll(1, s, [x] + xs);
      r.requests == xs && r.running == 1 && !r.completed && Started(r.log) == Started(s.log) + [x]
  {
    var t := s.(requests := s.requests + ([x] + xs), pushed := s.pushed + |[x] + xs|);
    assert PushAll(1, s, [x] + xs) == Pump(1, t);
    assert t.requests == [x] + xs;
    assert Admissible(1, t) == 1;
    PumpStartsHead(1, t);
    assert t.requests[..1] == [x] && t.requests[1..] == xs;
  }

  /** With every slot busy, `unshift` starts nothing: the request waits at the head. */
  lemma UnshiftWhenFull<T>(parallel: nat, s: State<T>, x: T)
    requires s.running >= parallel
    ensures var r := Unshift(parallel, s, x);
      r.requests == [x] + s.requests && r.running == s.running && Started(r.log) == Started(s.log)
  {
    var t := s.(requests := [x] + s.requests, pushed := s.pushed + 1);
    assert Unshift(parallel, s, x) == Pump(parallel, t);
    assert Admissible(parallel, t) == 0;
    PumpStartsHead(parallel, t);
    assert t.requests[..0] == [] && t.requests[0..] == t.requests;
  }

  /** A pump with one slot, free, and requests pending starts exactly the head. */
  lemma OneFreeSlotStartsHead<T>(t: State<T>)
    requires t.running == 0 && t.requests != []
    ensures var r := Pump(1, t);
      r.requests == t.requests[1..] && r.running == 1
      && Started(r.log) == Started(t.log) + [t.requests[0]]
  {
    var r := Pump(1, t);
    assert Admissible(1, t) == 1;
    assert r.requests == t.requests[1..] && r.running == 1;
    assert Started(r.log) == Started(t.log) + [t.requests[0]] by {
      PumpStartsHead(1, t);
      assert t.requests[..1] == [t.requests[0]];
    }
  }

  /** With one slot in use and requests pending, the outcome of the running request and the
      pump after it hand the slot to the head of the pending list. */
  lemma OneSlotHandOver<T>(s: State<T>, success: bool)
    requires s.running == 1 && s.requests != []
    ensures var r := Resume(1, Settle(s, success));
      r.requests == s.requests[1..] && r.running == 1
      && Started(r.log) == Started(s.log) + [s.requests[0]]
  {
    var u := Settle(s, success);
    var t := u.(owed := u.owed - 1);
    assert Resume(1, u) == Pump(1, t);
    OneFreeSlotStartsHead(t);
  }

  /** With one slot, pushing three requests starts the first and leaves two pending. */
  lemma SizeExcludesRunning<T>(a: T, b: T, c: T)
    ensures var s := PushAll(1, Initial(), [a, b, c]);
      |s.requests| == 2 && s.running == 1 && Started(s.log) == [a]
  {
    assert [a, b, c] == [a] + [b, c];
    OneSlotPushAllStartsHead(Initial(), a, [b, c]);
  }

  /** With one slot, `unshift` after `pushAll` puts the new request ahead of those still
      pending, but behind the one `pushAll` already started. */
  lemma FrontInsertionOrder<T>(a: T, b: T, c: T, z: T)
    ensures var s1 := PushAll(1, Initial(), [a, b, c]);
      var s2 := Unshift(1, s1, z);
      s2.running == 1 && Started(Resume(1, Settle(s2, true)).log) == [a, z]
  {
    assert [a, b, c] == [a] + [b, c];
    var s1 := PushAll(1, Initial(), [a, b, c]);
    OneSlotPushAllStartsHead(Initial(), a, [b, c]);
    var s2 := Unshift(1, s1, z);
    UnshiftWhenFull(1, s1, z);
    OneSlotHandOver(s2, true);
  }

  /** Five requests through two or three slots from an idle queue: as many start at once
      as there are slots, and the rest wait in order. */
  lemma FiveThroughSlots<T>(parallel: nat, r1: T, r2: T, r3: T, r4: T, r5: T)
    requires 2 <= parallel <= 3
    ensures var xs := [r1, r2, r3, r4, r5];
      var s := PushAll(parallel, Initial(), xs);
      s.running == parallel && s.requests == xs[parallel..] && !s.completed
  {
    var xs := [r1, r2, r3, r4, r5];
    var t := Initial<T>().(requests := [] + xs, pushed := |xs|);
    assert PushAll(parallel, Initial(), xs) == Pump(parallel, t);
    assert t.requests == xs;
    assert Admissible(parallel, t) == parallel;
  }

  /** Five requests through three slots: three start at once and the other two wait. */
  lemma FiveThroughThreeSlots<T>(r1: T, r2: T, r3: T, r4: T, r5: T)
    ensures var s := PushAll(3, Initial(), [r1, r2, r3, r4, r5]);
      s.running == 3 && s.requests == [r4, r5] && !s.completed
  {
    FiveThroughSlots(3, r1, r2, r3, r4, r5);
    assert [r1, r2, r3, r4, r5][3..] == [r4, r5];
  }

  /** An outcome while other requests still run and nothing is pending admits nothing and
      announces nothing. */
  lemma OutcomeWhileOthersRun<T>(parallel: nat, s: State<T>, success: bool)
    requires s.running >= 2 && s.requests == [] && !s.completed
    ensures var r := Resume(parallel, Settle(s, success));
      r.requests == [] && r.running + 1 == s.running && !r.completed
  {
    var u := Settle(s, success);
    var t := u.(owed := u.owed - 1);
    assert Resume(parallel, u) == Pump(parallel, t);
    assert Admissible(parallel, t) == 0;
  }

  /** The outcome of the last running request, with nothing pending, announces the drain. */
  lemma LastOutcomeCompletes<T>(parallel: nat, s: State<T>, success: bool)
    requires s.running == 1 && s.requests == []
    ensures var r := Resume(parallel, Settle(s, success));
      Drained(r) && r.completed
  {
    var u := Settle(s, success);
    var t := u.(owed := u.owed - 1);
    assert Resume(parallel, u) == Pump(parallel, t);
    assert Admissible(parallel, t) == 0;
  }

  /** One slot, nothing running or pending: `push` starts the request at once. */
  lemma OneSlotPushStarts<T>(s: State<T>, x: T)
    requires s.running == 0 && s.requests == []
    ensures var r := Push(1, s, x);
      r.requests == [] && r.running == 1 && !r.completed && Started(r.log) == Started(s.log) + [x]
  {
    PushIsPushAllOfOne(1, s, x);
    assert [x] + [] == [x];
    OneSlotPushAllStartsHead(s, x, []);
  }

  /** On a drain that was already announced, an empty `pushAll` emits nothing. */
  lemma EmptyPushAllOnAnnouncedDrain<T>(parallel: nat, s: State<T>)
    requires Drained(s) && s.completed
    ensures PushAll(parallel, s, []).log == s.log
  {
    var t := s.(requests := s.requests + [], pushed := s.pushed + 0);
    assert PushAll(parallel, s, []) == Pump(parallel, t);
    assert Admissible(parallel, t) == 0;
    PumpEffects(parallel, t);
    assert t.requests[..0] == [];
    assert s.log + StartAll<T>([]) + [] == s.log;
  }

  /** `clear` with two requests running and three pending leaves nothing pending and
      emits nothing; the two running requests still settle, and the pump after the
      second one announces `completed`. */
  lemma ClearWhileRunning<T>(r1: T, r2: T, r3: T, r4: T, r5: T)
    ensures var s0 := PushAll(2, Initial(), [r1, r2, r3, r4, r5]);
      var s := Clear(s0);
      && s.requests == [] && s.running == 2 && s.log == s0.log
      && !Resume(2, Settle(s, false)).completed
      && Resume(2, Settle(Resume(2, Settle(s, false)), true)).completed
  {
    var s0 := PushAll(2, Initial(), [r1, r2, r3, r4, r5]);
    FiveThroughSlots(2, r1, r2, r3, r4, r5);
    var s := Clear(s0);
    OutcomeWhileOthersRun(2, s, false);
    LastOutcomeCompletes(2, Resume(2, Settle(s, false)), true);
  }

  /** A push after an announced drain starts a new episode that ends in a second
      `completed`, while an empty `pushAll` on an announced drain emits nothing. */
  lemma SecondEpisode<T>(a: T, b: T)
    ensures var s := Resume(1, Settle(Push(1, Initial(), a), true));
      && s.completed
      && PushAll(1, s, []).log == s.log
      && Resume(1, Settle(Push(1, s, b), false)).completed
  {
    var s0 := Push(1, Initial(), a);
    OneSlotPushStarts(Initial(), a);
    var s := Resume(1, Settle(s0, true));
    LastOutcomeCompletes(1, s0, true);
    EmptyPushAllOnAnnouncedDrain(1, s);
    var t0 := Push(1, s, b);
    OneSlotPushStarts(s, b);
    LastOutcomeCompletes(1, t0, false);
  }
}
