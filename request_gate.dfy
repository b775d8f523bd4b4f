/** The request gate of the data-access layer (`RateLimiter` in
    src/lib/database.ts): a FIFO queue drained by a single worker that keeps
    at least one second between dispatches and retries a rate-limited call
    once. Time is an abstract clock in milliseconds; every timer fires
    exactly when it is due. */
module RequestGate {
  import opened Wrappers

  const RateLimitDelay: int := 1000
  const DefaultRetryAfter: int := 60000
  const TooManyRequests: int := 429

  /** An error thrown by the backend client: its HTTP status and the
      `details.reset` instant the server may attach to a 429. */
  datatype Failure = Failure(status: int, reset: Option<int>, message: string)

  /** One call of the operation: how long it takes and how it ends. */
  datatype Attempt<V> = Attempt(latency: nat, outcome: Result<V, Failure>)

  /** A queued operation. It is called at most twice: `first` describes the
      first call and `retry` the call made after a 429. */
  datatype Task<V> = Task(first: Attempt<V>, retry: Attempt<V>)

  /** A call of an operation, at clock time `time`. */
  datatype Dispatch = Dispatch(time: int, isRetry: bool)

  /** The clock and the limiter's `lastRequest` marker. */
  datatype Gate = Gate(clock: int, lastRequest: int)

  /** What serving one task does: the new gate, the calls made, and the
      value or error handed to the caller's promise. */
  datatype Served<V> = Served(gate: Gate, dispatches: seq<Dispatch>, delivery: Result<V, Failure>)

  datatype Drained<V> = Drained(gate: Gate, dispatches: seq<Dispatch>, deliveries: seq<Result<V, Failure>>)

  /** What the caller of `execute` receives, independent of timing: the
      first call's value, the retry's value or error after a 429, or the
      first call's error otherwise. */
  function Settled<V>(t: Task<V>): (r: Result<V, Failure>)
    ensures r == t.first.outcome || r == t.retry.outcome
    ensures t.first.outcome.Ok? ==> r == t.first.outcome
    ensures r != t.first.outcome ==> t.first.outcome.error.status == TooManyRequests
    ensures t.first.outcome.Err? && t.first.outcome.error.status == TooManyRequests ==> r == t.retry.outcome
  {
    match t.first.outcome
    case Ok(v) => Ok(v)
    case Err(f) => if f.status == TooManyRequests then t.retry.outcome else Err(f)
  }

  /** The wait before the retry: until the server's reset instant when one
      is given (a reset of 0 is falsy and counts as absent), else 60 s. */
  function RetryAfter(f: Failure, now: int): (ms: int)
    ensures f.reset.Some? && f.reset.value != 0 ==> now + ms == f.reset.value
    ensures f.reset.None? || f.reset.value == 0 ==> ms == 60000
  {
    if f.reset.Some? && f.reset.value != 0 then f.reset.value - now else DefaultRetryAfter
  }

  /** A timer with a negative delay fires at once. */
  function Wait(ms: int): (w: nat)
    ensures w >= ms
    ensures ms >= 0 ==> w == ms
    ensures ms < 0 ==> w == 0
  {
    if ms < 0 then 0 else ms
  }

  /** The clock time at which a task's first call is made. */
  function DispatchTime(g: Gate): (t: int)
    ensures t >= g.clock && t >= g.lastRequest + RateLimitDelay
    ensures g.clock - g.lastRequest >= RateLimitDelay ==> t == g.clock
    ensures t == g.clock || t == g.lastRequest + RateLimitDelay
  {
    if g.clock - g.lastRequest < RateLimitDelay then g.lastRequest + RateLimitDelay else g.clock
  }

  /** Serving one task: wait out the spacing, mark `lastRequest`, call; on
      a 429 wait and call once more without touching `lastRequest`. */
  function Serve<V>(g: Gate, t: Task<V>): (r: Served<V>)
    ensures r.delivery == Settled(t)
    ensures |r.dispatches| == (if t.first.outcome.Err? && t.first.outcome.error.status == TooManyRequests then 2 else 1)
    ensures !r.dispatches[0].isRetry && forall i :: 1 <= i < |r.dispatches| ==> r.dispatches[i].isRetry
    ensures r.dispatches[0].time == DispatchTime(g) && r.gate.lastRequest == r.dispatches[0].time
    ensures forall i :: 0 <= i < |r.dispatches| ==> g.clock <= r.dispatches[i].time <= r.gate.clock
    ensures |r.dispatches| == 2 ==> r.dispatches[0].time <= r.dispatches[1].time
    ensures |r.dispatches| == 1 ==> r.gate.clock == r.dispatches[0].time + t.first.latency
    ensures |r.dispatches| == 2 ==>
              var firstEnd := r.dispatches[0].time + t.first.latency;
              var f := t.first.outcome.error;
              && r.dispatches[1].time
                   == firstEnd + (if f.reset.Some? && f.reset.value != 0
                                  then (if f.reset.value < firstEnd then 0 else f.reset.value - firstEnd)
                                  else 60000)
              && r.gate.clock == r.dispatches[1].time + t.retry.latency
  {
    var start := DispatchTime(g);
    var afterFirst := start + t.first.latency;
    match t.first.outcome
    case Ok(v) => Served(Gate(afterFirst, start), [Dispatch(start, false)], Ok(v))
    case Err(f) =>
      if f.status == TooManyRequests then
        var retryAt := afterFirst + Wait(RetryAfter(f, afterFirst));
        Served(Gate(retryAt + t.retry.latency, start), [Dispatch(start, false), Dispatch(retryAt, true)], t.retry.outcome)
      else
        Served(Gate(afterFirst, start), [Dispatch(start, false)], Err(f))
  }

  /** Draining a queue: serve the tasks one after the other, in order. */
  function Drain<V>(g: Gate, tasks: seq<Task<V>>): (r: Drained<V>)
    ensures |r.deliveries| == |tasks| && r.gate.clock >= g.clock
    decreases |tasks|
  {
    if tasks == [] then Drained(g, [], [])
    else
      var r := Serve(g, tasks[0]);
      var rest := Drain(r.gate, tasks[1..]);
      Drained(rest.gate, r.dispatches + rest.dispatches, [r.delivery] + rest.deliveries)
  }

  /** The times of the first calls, leaving out the retries. */
  function FirstCallTimes(ds: seq<Dispatch>): seq<int> {
    if ds == [] then [] else (if ds[0].isRetry then [] else [ds[0].time]) + FirstCallTimes(ds[1..])
  }

  /** Every time is at least the spacing after its predecessor, and the
      first one at least the spacing after `last`. */
  ghost predicate SpacedAfter(times: seq<int>, last: int) {
    && (|times| > 0 ==> times[0] >= last + RateLimitDelay)
    && (forall i :: 0 <= i < |times| - 1 ==> times[i + 1] >= times[i] + RateLimitDelay)
  }

  ghost predicate Chronological(ds: seq<Dispatch>) {
    forall i, j :: 0 <= i < j < |ds| ==> ds[i].time <= ds[j].time
  }

  lemma {:induction false} FirstCallTimesAppend(a: seq<Dispatch>, b: seq<Dispatch>)
    ensures FirstCallTimes(a + b) == FirstCallTimes(a) + FirstCallTimes(b)
    decreases |a|
  {
    if a == [] {
      assert a + b == b;
    } else {
      var head := if a[0].isRetry then [] else [a[0].time];
      assert FirstCallTimes(a + b) == head + FirstCallTimes(a[1..] + b) by {
        assert (a + b)[0] == a[0];
        assert (a + b)[1..] == a[1..] + b;
      }
      FirstCallTimesAppend(a[1..], b);
      AppendAssoc(head, FirstCallTimes(a[1..]), FirstCallTimes(b));
    }
  }

  /** FIFO: the i-th delivery of a drain is what the i-th task settles to. */
  lemma {:induction false} DrainDeliversInOrder<V>(g: Gate, tasks: seq<Task<V>>)
    ensures |Drain(g, tasks).deliveries| == |tasks|
    ensures forall i :: 0 <= i < |tasks| ==> Drain(g, tasks).deliveries[i] == Settled(tasks[i])
    decreases |tasks|
  {
    if tasks != [] {
      var r := Serve(g, tasks[0]);
      DrainDeliversInOrder(r.gate, tasks[1..]);
      var d := Drain(g, tasks);
      forall i | 0 <= i < |tasks| ensures d.deliveries[i] == Settled(tasks[i]) {
        if i > 0 { assert tasks[1..][i - 1] == tasks[i]; }
      }
    }
  }

  /** Every task is called once, plus once more exactly when its first call
      was rate limited. */
  lemma {:induction false} DrainCallCount<V>(g: Gate, tasks: seq<Task<V>>)
    ensures |FirstCallTimes(Drain(g, tasks).dispatches)| == |tasks|
    ensures |Drain(g, tasks).dispatches| == |tasks| + RateLimited(tasks)
    decreases |tasks|
  {
    if tasks != [] {
      var r := Serve(g, tasks[0]);
      DrainCallCount(r.gate, tasks[1..]);
      FirstCallTimesAppend(r.dispatches, Drain(r.gate, tasks[1..]).dispatches);
      if |r.dispatches| == 2 {
        assert FirstCallTimes(r.dispatches) == [r.dispatches[0].time] + FirstCallTimes(r.dispatches[1..]);
        assert r.dispatches[1..][1..] == [];
      }
    }
  }

  /** The number of tasks whose first call answers 429. */
  function RateLimited<V>(tasks: seq<Task<V>>): nat {
    if tasks == [] then 0
    else
      var limited := tasks[0].first.outcome.Err? && tasks[0].first.outcome.error.status == TooManyRequests;
      (if limited then 1 else 0) + RateLimited(tasks[1..])
  }

  /** Consecutive first calls are at least a second apart (and the first of
      them at least a second after the previous `lastRequest`); afterwards
      `lastRequest` is the time of the last FIRST call, never of a retry. */
  lemma {:induction false} DrainSpacesFirstCalls<V>(g: Gate, tasks: seq<Task<V>>)
    ensures SpacedAfter(FirstCallTimes(Drain(g, tasks).dispatches), g.lastRequest)
    ensures var f := FirstCallTimes(Drain(g, tasks).dispatches);
            Drain(g, tasks).gate.lastRequest == if f == [] then g.lastRequest else f[|f| - 1]
    decreases |tasks|
  {
    if tasks != [] {
      var r := Serve(g, tasks[0]);
      var rest := Drain(r.gate, tasks[1..]);
      DrainSpacesFirstCalls(r.gate, tasks[1..]);
      FirstCallTimesAppend(r.dispatches, rest.dispatches);
      assert FirstCallTimes(r.dispatches) == [r.dispatches[0].time] by {
        if |r.dispatches| == 2 {
          assert r.dispatches[1..][1..] == [];
        }
      }
      var f := FirstCallTimes(Drain(g, tasks).dispatches);
      var f' := FirstCallTimes(rest.dispatches);
      assert f == [r.gate.lastRequest] + f';
      forall i | 0 <= i < |f| - 1 ensures f[i + 1] >= f[i] + RateLimitDelay {
        if i > 0 { assert f[i] == f'[i - 1] && f[i + 1] == f'[i]; }
      }
    }
  }

  /** All calls, first calls and retries, happen in clock order, none before
      the clock at which draining began and none after it ends. */
  lemma {:induction false} DrainIsChronological<V>(g: Gate, tasks: seq<Task<V>>)
    ensures Chronological(Drain(g, tasks).dispatches)
    ensures forall i :: 0 <= i < |Drain(g, tasks).dispatches| ==>
              g.clock <= Drain(g, tasks).dispatches[i].time <= Drain(g, tasks).gate.clock
    ensures g.clock <= Drain(g, tasks).gate.clock
    decreases |tasks|
  {
    if tasks != [] {
      var r := Serve(g, tasks[0]);
      var rest := Drain(r.gate, tasks[1..]);
      DrainIsChronological(r.gate, tasks[1..]);
      assert Chronological(r.dispatches);
      assert Drain(g, tasks).dispatches == r.dispatches + rest.dispatches;
      ChronologicalConcat(r.dispatches, rest.dispatches, g.clock, r.gate.clock, rest.gate.clock);
    }
  }

  lemma AppendAssoc<T>(a: seq<T>, b: seq<T>, c: seq<T>)
    ensures a + b + c == a + (b + c)
  {
  }

  /** Two chronological runs of calls, the second starting no earlier than
      the first ends, make one. */
  lemma ChronologicalConcat(a: seq<Dispatch>, b: seq<Dispatch>, lo: int, mid: int, hi: int)
    requires Chronological(a) && Chronological(b)
    requires forall i :: 0 <= i < |a| ==> lo <= a[i].time <= mid
    requires forall i :: 0 <= i < |b| ==> mid <= b[i].time <= hi
    requires lo <= mid <= hi
    ensures Chronological(a + b)
    ensures forall i :: 0 <= i < |a + b| ==> lo <= (a + b)[i].time <= hi
  {
    var ds := a + b;
    forall i, j | 0 <= i < j < |ds| ensures ds[i].time <= ds[j].time {
      if j < |a| {
        assert ds[i] == a[i] && ds[j] == a[j];
      } else if i < |a| {
        assert ds[i] == a[i] && ds[j] == b[j - |a|];
      } else {
        assert ds[i] == b[i - |a|] && ds[j] == b[j - |a|];
      }
    }
    forall i | 0 <= i < |ds| ensures lo <= ds[i].time <= hi {
      if i < |a| { assert ds[i] == a[i]; } else { assert ds[i] == b[i - |a|]; }
    }
  }

  /** The retry does not move `lastRequest`: a call queued behind a retried
      one can go out at the very instant of the retry. Here the first task
      is called at 5000, answers 429 with a reset at 6500 and is retried at
      6500; the second task's first call is also made at 6500. */
  lemma RetryDoesNotSpaceTheNextCall(v: int)
    ensures var retried := Task(Attempt(0, Err(Failure(429, Some(6500), "Too Many Requests"))), Attempt(0, Ok(v)));
            var next := Task(Attempt(0, Ok(v)), Attempt(0, Ok(v)));
            Drain(Gate(5000, 0), [retried, next]).dispatches
              == [Dispatch(5000, false), Dispatch(6500, true), Dispatch(6500, false)]
  {
    var retried := Task(Attempt(0, Err(Failure(429, Some(6500), "Too Many Requests"))), Attempt(0, Ok(v)));
    var next := Task(Attempt(0, Ok(v)), Attempt(0, Ok(v)));
    var r := Serve(Gate(5000, 0), retried);
    assert r.dispatches == [Dispatch(5000, false), Dispatch(6500, true)];
    assert r.gate == Gate(6500, 5000);
    var r2 := Serve(r.gate, next);
    assert r2.dispatches == [Dispatch(6500, false)];
    assert [retried, next][1..] == [next];
    assert [next][1..] == [];
    assert Drain(r2.gate, [next][1..]).dispatches == [];
    assert Drain(r.gate, [next]).dispatches == [Dispatch(6500, false)];
  }

  /** The limiter: the clock it observes, its three fields, the calls made
      and the values and errors handed back to callers, in order. */
  class RateLimiter<V> {
    var clock: int
    var lastRequest: int
    var queue: seq<Task<V>>
    var processing: bool
    var dispatches: seq<Dispatch>
    var delivered: seq<Result<V, Failure>>

    constructor (now: int)
      ensures clock == now && lastRequest == 0 && queue == [] && !processing
      ensures dispatches == [] && delivered == []
    {
      clock := now;
      lastRequest := 0;
      queue := [];
      processing := false;
      dispatches := [];
      delivered := [];
    }

    function State(): Gate
      reads this
    {
      Gate(clock, lastRequest)
    }

    /** The body of the closure that `execute` queues. */
    method RunTask(t: Task<V>)
      modifies this
      ensures var r := Serve(old(State()), t);
              && State() == r.gate
              && dispatches == old(dispatches) + r.dispatches
              && delivered == old(delivered) + [r.delivery]
      ensures queue == old(queue) && processing == old(processing)
    {
      var now := clock;
      var timeSinceLastRequest := now - lastRequest;
      if timeSinceLastRequest < RateLimitDelay {
        clock := clock + (RateLimitDelay - timeSinceLastRequest);
      }
      lastRequest := clock;
      dispatches := dispatches + [Dispatch(clock, false)];
      clock := clock + t.first.latency;
      match t.first.outcome {
        case Ok(v) =>
          delivered := delivered + [Ok(v)];
        case Err(e) =>
          if e.status == TooManyRequests {
            var retryAfter := RetryAfter(e, clock);
            clock := clock + Wait(retryAfter);
            dispatches := dispatches + [Dispatch(clock, true)];
            clock := clock + t.retry.latency;
            delivered := delivered + [t.retry.outcome];
          } else {
            delivered := delivered + [Err(e)];
          }
      }
    }

    /** Returns at once when a drain is already running or nothing is
      queued; otherwise serves the queue to empty, in order. */
    method ProcessQueue()
      modifies this
      ensures old(processing) || old(queue) == [] ==>
                State() == old(State()) && queue == old(queue) && processing == old(processing)
                && dispatches == old(dispatches) && delivered == old(delivered)
      ensures !old(processing) ==>
                var d := Drain(old(State()), old(queue));
                && queue == [] && !processing && State() == d.gate
                && dispatches == old(dispatches) + d.dispatches
                && delivered == old(delivered) + d.deliveries
    {
      if processing || |queue| == 0 {
        return;
      }
      processing := true;
      ghost var d := Drain(State(), queue);
      while |queue| > 0
        invariant processing
        invariant Drain(State(), queue).gate == d.gate
        invariant dispatches + Drain(State(), queue).dispatches == old(dispatches) + d.dispatches
        invariant delivered + Drain(State(), queue).deliveries == old(delivered) + d.deliveries
        decreases |queue|
      {
        var task := queue[0];
        ghost var rest := queue[1..];
        ghost var before := State();
        ghost var dispatchedBefore := dispatches;
        ghost var deliveredBefore := delivered;
        assert queue == [task] + rest;
        queue := queue[1..];
        RunTask(task);
        ghost var r := Serve(before, task);
        ghost var tail := Drain(r.gate, rest);
        assert Drain(before, [task] + rest) == Drained(tail.gate, r.dispatches + tail.dispatches, [r.delivery] + tail.deliveries);
        AppendAssoc(dispatchedBefore, r.dispatches, tail.dispatches);
        AppendAssoc(deliveredBefore, [r.delivery], tail.deliveries);
      }
      processing := false;
    }

    /** `execute`: queue the task and start draining. From an idle limiter
        the caller receives exactly what the task settles to. */
    method Execute(t: Task<V>)
      modifies this
      ensures !old(processing) ==>
                var d := Drain(old(State()), old(queue) + [t]);
                && queue == [] && !processing && State() == d.gate
                && dispatches == old(dispatches) + d.dispatches
                && delivered == old(delivered) + d.deliveries
      ensures !old(processing) && old(queue) == [] ==> delivered == old(delivered) + [Settled(t)]
      ensures old(processing) ==>
                && queue == old(queue) + [t] && processing && State() == old(State())
                && dispatches == old(dispatches) && delivered == old(delivered)
    {
      queue := queue + [t];
      ProcessQueue();
      if !old(processing) {
        DrainDeliversInOrder(old(State()), old(queue) + [t]);
      }
    }

    /** Several `execute` calls made in one turn of the event loop: the
        first call's drain serves all of their tasks, the later calls'
        `processQueue` return at once. */
    method ExecuteBatch(ts: seq<Task<V>>)
      modifies this
      ensures !old(processing) ==>
                var d := Drain(old(State()), old(queue) + ts);
                && queue == [] && !processing && State() == d.gate
                && dispatches == old(dispatches) + d.dispatches
                && delivered == old(delivered) + d.deliveries
      ensures old(processing) ==>
                && queue == old(queue) + ts && processing && State() == old(State())
                && dispatches == old(dispatches) && delivered == old(delivered)
    {
      queue := queue + ts;
      ProcessQueue();
    }
  }
}
