/** `RequestQueue` of index.js: a queue that starts at most `parallel` requests at a time,
    in the order of its pending list, and announces when everything has finished.
    The HTTP call is the executor: starting a request appends `Start(x)` to the log, and
    the request's outcome arrives later through `Settle`. */
module Queue {
  import opened Trace
  import Dispatch

  /** The two failed assertions of the constructor (index.js:36-37). */
  datatype ConfigError = ParallelNotPositiveInteger | WaitTimeNotNonNegativeInteger

  datatype Result<T, E> = Ok(value: T) | Err(error: E)

  /** A checked configuration: `parallel` slots and `waitTime` milliseconds between a
      request's outcome and the next pump. */
  datatype Config = Config(parallel: nat, waitTime: nat)

  /** `Number.isInteger` on a finite JavaScript number. */
  predicate IsInteger(x: real) {
    x.Floor as real == x
  }

  /** The constructor's argument checks (index.js:36-37), in their order: `parallel` is
      checked first, so it is the error reported when both are wrong. */
  function CheckConfig(parallel: real, waitTime: real): (r: Result<Config, ConfigError>)
    ensures r.Ok? <==> IsInteger(parallel) && parallel >= 1.0 && IsInteger(waitTime) && waitTime >= 0.0
    ensures r.Ok? ==> r.value.parallel >= 1
                      && r.value.parallel as real == parallel && r.value.waitTime as real == waitTime
    ensures r == Err(ParallelNotPositiveInteger) <==> !(IsInteger(parallel) && parallel >= 1.0)
  {
    if !(IsInteger(parallel) && parallel >= 1.0) then Err(ParallelNotPositiveInteger)
    else if !(IsInteger(waitTime) && waitTime >= 0.0) then Err(WaitTimeNotNonNegativeInteger)
    else Ok(Config(parallel.Floor, waitTime.Floor))
  }

  class RequestQueue<T> {
    var requests: seq<T>
    const parallel: nat
    const waitTime: nat
    var running: nat
    var completed: bool
    /** The executor calls and emitted events, in order. */
    var log: seq<Effect<T>>
    /** Pumps scheduled by an outcome handler and not yet run. */
    ghost var owed: nat
    /** How many requests were ever added, and how many `clear` dropped. */
    ghost var pushed: nat
    ghost var cleared: nat

    ghost function Snapshot(): Dispatch.State<T>
      reads this
    {
      Dispatch.State(requests, running, completed, owed, log, pushed, cleared)
    }

    ghost predicate Valid()
      reads this
    {
      Dispatch.Inv(parallel, Snapshot())
    }

    /** index.js:33-45, once the configuration has passed CheckConfig. */
    constructor (config: Config)
      requires config.parallel >= 1
      ensures Valid() && Snapshot() == Dispatch.Initial()
      ensures parallel == config.parallel && waitTime == config.waitTime
    {
      requests := [];
      parallel := config.parallel;
      waitTime := config.waitTime;
      running := 0;
      completed := false;
      log := [];
      owed := 0;
      pushed := 0;
      cleared := 0;
      new;
      Dispatch.InitialInv<T>(parallel);
    }

    /** `_next` (index.js:51-68). */
    method Next()
      modifies this
      ensures Snapshot() == Dispatch.Pump(parallel, old(Snapshot()))
    {
      while running < parallel && requests != []
        invariant Dispatch.Pump(parallel, Snapshot()) == Dispatch.Pump(parallel, old(Snapshot()))
        decreases |requests|
      {
        ghost var before := Snapshot();
        completed := false;
        running := running + 1;
        log := log + [Start(requests[0])];
        requests := requests[1..];
        assert Snapshot() == Dispatch.Admit(before);
      }
      EmitIfCompleted();
    }

    /** `_emitIfCompleted` (index.js:74-79). */
    method EmitIfCompleted()
      modifies this
      ensures Snapshot() == Dispatch.EmitIfCompleted(old(Snapshot()))
    {
      if running == 0 && requests == [] && !completed {
        completed := true;
        log := log + [Emit(Completed)];
      }
    }

    /** `push` (index.js:97-101). */
    method Push(x: T) returns (q: RequestQueue<T>)
      requires Valid()
      modifies this
      ensures q == this && Valid()
      ensures Snapshot() == Dispatch.Push(parallel, old(Snapshot()), x)
    {
      ghost var s := Snapshot();
      requests := requests + [x];
      pushed := pushed + 1;
      ghost var t := s.(requests := s.requests + [x], pushed := s.pushed + 1);
      assert Snapshot() == t;
      Next();
      Dispatch.PushIsPump(parallel, s, x);
      Dispatch.PushKeepsInv(parallel, s, x);
      q := this;
    }

    /** `pushAll` (index.js:108-112). */
    method PushAll(xs: seq<T>) returns (q: RequestQueue<T>)
      requires Valid()
      modifies this
      ensures q == this && Valid()
      ensures Snapshot() == Dispatch.PushAll(parallel, old(Snapshot()), xs)
    {
      ghost var s := Snapshot();
      requests := requests + xs;
      pushed := pushed + |xs|;
      ghost var t := s.(requests := s.requests + xs, pushed := s.pushed + |xs|);
      assert Snapshot() == t;
      Next();
      Dispatch.PushAllIsPump(parallel, s, xs);
      Dispatch.PushAllKeepsInv(parallel, s, xs);
      q := this;
    }

    /** `size` (index.js:118-120): the pending requests only, not the running ones. */
    method Size() returns (n: nat)
      ensures n == |requests|
    {
      n := |requests|;
    }

    /** `unshift` (index.js:126-130). */
    method Unshift(x: T) returns (q: RequestQueue<T>)
      requires Valid()
      modifies this
      ensures q == this && Valid()
      ensures Snapshot() == Dispatch.Unshift(parallel, old(Snapshot()), x)
    {
      ghost var s := Snapshot();
      requests := [x] + requests;
      pushed := pushed + 1;
      ghost var t := s.(requests := [x] + s.requests, pushed := s.pushed + 1);
      assert Snapshot() == t;
      Next();
      Dispatch.UnshiftIsPump(parallel, s, x);
      Dispatch.UnshiftKeepsInv(parallel, s, x);
      q := this;
    }

    /** `unshiftAll` (index.js:136-140). */
    method UnshiftAll(xs: seq<T>) returns (q: RequestQueue<T>)
      requires Valid()
      modifies this
      ensures q == this && Valid()
      ensures Snapshot() == Dispatch.UnshiftAll(parallel, old(Snapshot()), xs)
    {
      ghost var s := Snapshot();
      requests := xs + requests;
      pushed := pushed + |xs|;
      ghost var t := s.(requests := xs + s.requests, pushed := s.pushed + |xs|);
      assert Snapshot() == t;
      Next();
      Dispatch.UnshiftAllIsPump(parallel, s, xs);
      Dispatch.UnshiftAllKeepsInv(parallel, s, xs);
      q := this;
    }

    /** `clear` (index.js:146-148): returns nothing, unlike the other mutators. */
    method Clear()
      requires Valid()
      modifies this
      ensures Valid()
      ensures Snapshot() == Dispatch.Clear(old(Snapshot()))
    {
      ghost var s := Snapshot();
      cleared := cleared + |requests|;
      requests := [];
      Dispatch.ClearKeepsInv(parallel, s);
    }

    /** A started request's outcome arrives (index.js:56-58 and 61-63): the `then` or
        `catch` handler runs up to its `_wait()`. */
    method Settle(success: bool)
      requires Valid() && running > 0
      modifies this
      ensures Valid()
      ensures Snapshot() == Dispatch.Settle(old(Snapshot()), success)
    {
      ghost var s := Snapshot();
      running := running - 1;
      log := log + [Emit(if success then Resolved else Rejected)];
      owed := owed + 1;
      Dispatch.SettleKeepsInv(parallel, s, success);
      assert Snapshot() == Dispatch.Settle(s, success);
    }

    /** The wait of an outcome handler has elapsed and its `_next` runs (index.js:59 and 64). */
    method Resume()
      requires Valid() && owed > 0
      modifies this
      ensures Valid()
      ensures Snapshot() == Dispatch.Resume(parallel, old(Snapshot()))
    {
      ghost var s := Snapshot();
      owed := owed - 1;
      assert Snapshot() == s.(owed := s.owed - 1);
      Next();
      Dispatch.ResumeKeepsInv(parallel, s);
      assert Snapshot() == Dispatch.Resume(parallel, s);
    }

    /** A whole outcome handler with nothing interleaved during its wait. */
    method Complete(success: bool)
      requires Valid() && running > 0
      modifies this
      ensures Valid()
      ensures Snapshot() == Dispatch.Resume(parallel, Dispatch.Settle(old(Snapshot()), success))
    {
      Settle(success);
      Resume();
    }
  }

  /** `new RequestQueue(parallel, waitTime)` (index.js:33-45): the constructor throws
      when an argument check fails, and no queue is created. */
  method Create<T>(parallel: real, waitTime: real) returns (r: Result<RequestQueue<T>, ConfigError>)
    ensures r.Ok? <==> CheckConfig(parallel, waitTime).Ok?
    ensures r.Err? ==> r.error == CheckConfig(parallel, waitTime).error
    ensures r.Ok? ==> fresh(r.value) && r.value.Valid() && r.value.Snapshot() == Dispatch.Initial()
                      && r.value.parallel == CheckConfig(parallel, waitTime).value.parallel
                      && r.value.waitTime == CheckConfig(parallel, waitTime).value.waitTime
  {
    match CheckConfig(parallel, waitTime)
    case Err(e) => r := Err(e);
    case Ok(config) =>
      var q := new RequestQueue<T>(config);
      r := Ok(q);
  }
}
