/** The observable behaviour of a request queue: the executor calls it makes and the
    events it emits, recorded in order in one log, and the properties of such logs
    that the queue guarantees. */
module Trace {

  /** The three events a queue emits (index.js:7-11). */
  datatype Event = Resolved | Rejected | Completed

  /** One observable effect: the executor is started on a request, or an event is emitted. */
  datatype Effect<T> = Start(request: T) | Emit(event: Event)

  /** A per-request outcome notification (`resolved` or `rejected`). */
  predicate IsOutcome<T>(e: Effect<T>) {
    e.Emit? && !e.event.Completed?
  }

  /** A `completed` notification. */
  predicate IsAnnouncement<T>(e: Effect<T>) {
    e.Emit? && e.event.Completed?
  }

  /** The requests handed to the executor, in the order they were started. */
  function Started<T>(log: seq<Effect<T>>): (r: seq<T>)
    ensures |r| <= |log|
  {
    if log == [] then []
    else
      var e := log[|log| - 1];
      Started(log[..|log| - 1]) + (if e.Start? then [e.request] else [])
  }

  /** The number of outcome notifications in the log. */
  function Outcomes<T>(log: seq<Effect<T>>): (n: nat)
    ensures n + |Started(log)| <= |log|
  {
    if log == [] then 0
    else
      var e := log[|log| - 1];
      Outcomes(log[..|log| - 1]) + (if IsOutcome(e) then 1 else 0)
  }

  /** True when a `completed` event has been emitted and no request has been started since. */
  function Announced<T>(log: seq<Effect<T>>): bool {
    if log == [] then false
    else
      var e := log[|log| - 1];
      if IsAnnouncement(e) then true
      else if e.Start? then false
      else Announced(log[..|log| - 1])
  }

  /** The effects of starting `xs` one after another. */
  function StartAll<T>(xs: seq<T>): (r: seq<Effect<T>>)
    ensures |r| == |xs|
  {
    if xs == [] then [] else [Start(xs[0])] + StartAll(xs[1..])
  }

  lemma StartAllCons<T>(x: T, xs: seq<T>)
    ensures StartAll([x] + xs) == [Start(x)] + StartAll(xs)
  {
    assert ([x] + xs)[1..] == xs;
  }

  lemma {:induction false} StartAllSnoc<T>(xs: seq<T>, y: T)
    ensures StartAll(xs + [y]) == StartAll(xs) + [Start(y)]
    decreases |xs|
  {
    if xs == [] {
      assert xs + [y] == [y] + [];
      StartAllCons(y, []);
    } else {
      assert xs + [y] == [xs[0]] + (xs[1..] + [y]);
      StartAllCons(xs[0], xs[1..] + [y]);
      StartAllSnoc(xs[1..], y);
      StartAllCons(xs[0], xs[1..]);
      assert [xs[0]] + xs[1..] == xs;
    }
  }

  /** How one more effect changes the three views of the log. */
  lemma SnocEffects<T>(log: seq<Effect<T>>, e: Effect<T>)
    ensures Started(log + [e]) == Started(log) + (if e.Start? then [e.request] else [])
    ensures Outcomes(log + [e]) == Outcomes(log) + (if IsOutcome(e) then 1 else 0)
    ensures Announced(log + [e]) == (IsAnnouncement(e) || (!e.Start? && Announced(log)))
  {
    assert (log + [e])[..|log|] == log;
  }

  /** Starting a batch adds the batch, in its own order, to the started requests,
      adds no outcome and cancels any earlier announcement. */
  lemma {:induction false} StartAllEffects<T>(log: seq<Effect<T>>, xs: seq<T>)
    ensures Started(log + StartAll(xs)) == Started(log) + xs
    ensures Outcomes(log + StartAll(xs)) == Outcomes(log)
    ensures xs != [] ==> !Announced(log + StartAll(xs))
    decreases |xs|
  {
    if xs == [] {
      assert log + StartAll(xs) == log;
    } else {
      var ys, y := xs[..|xs| - 1], xs[|xs| - 1];
      assert ys + [y] == xs;
      StartAllSnoc(ys, y);
      assert log + StartAll(xs) == (log + StartAll(ys)) + [Start(y)];
      StartAllEffects(log, ys);
      SnocEffects(log + StartAll(ys), Start(y));
    }
  }

  /** In every prefix of the log, the requests in flight (started and not yet settled)
      number between zero and `parallel`. */
  predicate NeverOverParallel<T>(parallel: nat, log: seq<Effect<T>>) {
    forall i :: 0 <= i <= |log| ==>
      Outcomes(log[..i]) <= |Started(log[..i])| <= Outcomes(log[..i]) + parallel
  }

  /** Every `completed` event comes after an outcome for each request started before it. */
  predicate CompletedOnlyWhenSettled<T>(log: seq<Effect<T>>) {
    forall i :: 0 <= i < |log| && IsAnnouncement(log[i]) ==>
      |Started(log[..i])| == Outcomes(log[..i])
  }

  /** Between two `completed` events some request was started. */
  predicate CompletedOncePerEpisode<T>(log: seq<Effect<T>>) {
    forall i, j :: 0 <= i < j < |log| && IsAnnouncement(log[i]) && IsAnnouncement(log[j]) ==>
      exists m :: i < m < j && log[m].Start?
  }

  /** What every step of a queue's log keeps: after each effect the requests in flight
      number between zero and `parallel`, and a `completed` is emitted only when every
      started request has settled and no `completed` has been emitted since the last start. */
  predicate History<T>(parallel: nat, log: seq<Effect<T>>)
    decreases |log|
  {
    log == [] ||
    var init, e := log[..|log| - 1], log[|log| - 1];
    && History(parallel, init)
    && Outcomes(log) <= |Started(log)| <= Outcomes(log) + parallel
    && (IsAnnouncement(e) ==> |Started(init)| == Outcomes(init) && !Announced(init))
  }

  /** When the log is not announced, every `completed` in it is followed by a start. */
  lemma {:induction false} NotAnnouncedHasStart<T>(log: seq<Effect<T>>, i: nat)
    requires !Announced(log)
    requires i < |log| && IsAnnouncement(log[i])
    ensures exists m :: i < m < |log| && log[m].Start?
    decreases |log|
  {
    var init, e := log[..|log| - 1], log[|log| - 1];
    if e.Start? {
      assert log[|log| - 1].Start?;
    } else if i == |log| - 1 {
      assert false;
    } else {
      NotAnnouncedHasStart(init, i);
      var m :| i < m < |init| && init[m].Start?;
      assert log[m] == init[m];
    }
  }

  lemma HistorySnoc<T>(parallel: nat, log: seq<Effect<T>>, e: Effect<T>)
    requires History(parallel, log)
    requires Outcomes(log + [e]) <= |Started(log + [e])| <= Outcomes(log + [e]) + parallel
    requires IsAnnouncement(e) ==> |Started(log)| == Outcomes(log) && !Announced(log)
    ensures History(parallel, log + [e])
  {
    assert (log + [e])[..|log|] == log;
  }

  /** The step-wise History gives the three properties over the whole log. */
  lemma {:induction false} HistoryMeans<T>(parallel: nat, log: seq<Effect<T>>)
    requires History(parallel, log)
    ensures NeverOverParallel(parallel, log)
    ensures CompletedOnlyWhenSettled(log)
    ensures CompletedOncePerEpisode(log)
    decreases |log|
  {
    if log != [] {
      var init, e := log[..|log| - 1], log[|log| - 1];
      HistoryMeans(parallel, init);
      assert init + [e] == log;
      BoundSnoc(parallel, init, e);
      SettledSnoc(init, e);
      EpisodeSnoc(init, e);
    }
  }

  /** Appending one effect keeps the in-flight bound on every prefix when the new whole
      log keeps it. */
  lemma BoundSnoc<T>(parallel: nat, log: seq<Effect<T>>, e: Effect<T>)
    requires NeverOverParallel(parallel, log)
    requires Outcomes(log + [e]) <= |Started(log + [e])| <= Outcomes(log + [e]) + parallel
    ensures NeverOverParallel(parallel, log + [e])
  {
    var l := log + [e];
    forall i | 0 <= i <= |l|
      ensures Outcomes(l[..i]) <= |Started(l[..i])| <= Outcomes(l[..i]) + parallel
    {
      if i <= |log| {
        assert l[..i] == log[..i];
      } else {
        assert l[..i] == l;
      }
    }
  }

  /** Appending a `completed` when everything has settled keeps CompletedOnlyWhenSettled. */
  lemma SettledSnoc<T>(log: seq<Effect<T>>, e: Effect<T>)
    requires CompletedOnlyWhenSettled(log)
    requires IsAnnouncement(e) ==> |Started(log)| == Outcomes(log)
    ensures CompletedOnlyWhenSettled(log + [e])
  {
    var l := log + [e];
    forall i | 0 <= i < |l| && IsAnnouncement(l[i])
      ensures |Started(l[..i])| == Outcomes(l[..i])
    {
      if i < |log| {
        assert l[..i] == log[..i] && l[i] == log[i];
      } else {
        assert l[..i] == log;
      }
    }
  }

  /** Appending a `completed` only when the log is not announced keeps
      CompletedOncePerEpisode. */
  lemma EpisodeSnoc<T>(log: seq<Effect<T>>, e: Effect<T>)
    requires CompletedOncePerEpisode(log)
    requires IsAnnouncement(e) ==> !Announced(log)
    ensures CompletedOncePerEpisode(log + [e])
  {
    var l := log + [e];
    forall i, j | 0 <= i < j < |l| && IsAnnouncement(l[i]) && IsAnnouncement(l[j])
      ensures exists m :: i < m < j && l[m].Start?
    {
      assert l[i] == log[i];
      if j < |log| {
        assert l[j] == log[j];
        var m :| i < m < j && log[m].Start?;
        assert l[m] == log[m];
      } else {
        NotAnnouncedHasStart(log, i);
        var m :| i < m < |log| && log[m].Start?;
        assert l[m] == log[m];
      }
    }
  }
}
