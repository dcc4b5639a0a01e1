/**
 * Exactly when the scheduler thread can die: its backoff panics at attempt 64, so a run that
 * panics exists for a request if and only if the request allows more than 64 retries.
 */
module SchedulerPanic {
  import opened Types
  import opened Backoff
  import opened Jobs
  import opened SchedulerSpec
  import opened SchedulerInvariant
  import opened SchedulerTheorems

  /** No request above 64 retries, no panic. */
  lemma PanicNeedsManyRetries(s: State)
    requires Reachable(s) && s.panicked
    ensures exists id :: id in s.out.downloads && s.out.downloads[id].request.retries > 64
  {
    ReachableIsInv(s);
  }

  lemma Single(s: State, a: Action)
    requires Enabled(s, a)
    ensures Legal(s, [a]) && Exec(s, [a]) == Apply(s, a)
  {
    assert [a][1..] == [];
  }

  /** One download, queued, after `n` failures, on an otherwise idle scheduler. */
  ghost predicate AfterFailures(s: State, request: Request, n: u32) {
    && s.jobs == map[0 := JobView(0, request, n, JobState.Queued)]
    && s.ready == [0]
    && s.delayed == multiset{}
    && s.workers == multiset{}
    && s.maxConcurrent == 1
    && !s.root && !s.draining && !s.panicked
  }

  lemma Begins(request: Request) returns (s: State, acts: seq<Action>)
    ensures Legal(Initial(1), acts) && Exec(Initial(1), acts) == s && AfterFailures(s, request, 0)
  {
    var a := Action.Command(Enqueue(0, request), [], map[]);
    Single(Initial(1), a);
    s, acts := Apply(Initial(1), a), [a];
  }

  /** The same download with its worker out. */
  ghost predicate Out(s: State, request: Request, n: u32) {
    && s.jobs == map[0 := JobView(0, request, n, JobState.Running)]
    && s.ready == [] && s.delayed == multiset{} && s.workers == multiset{0} && s.maxConcurrent == 1
    && !s.root && !s.draining && !s.panicked
  }

  /** The same download waiting for its timer. */
  ghost predicate Waiting(s: State, request: Request, n: u32) {
    && s.jobs == map[0 := JobView(0, request, n, JobState.Retrying(n))]
    && s.ready == [] && s.delayed == multiset{(0, n)} && s.workers == multiset{} && s.maxConcurrent == 1
    && !s.root && !s.draining && !s.panicked
  }

  const FAILURE := WorkerDone(0, Err(Network), None)

  lemma Dispatches(s: State, request: Request, n: u32)
    requires AfterFailures(s, request, n)
    ensures Enabled(s, TryStart) && Out(Apply(s, TryStart), request, n)
  {
  }

  lemma Fails(s: State, request: Request, n: u32)
    requires Out(s, request, n) && n < 64 < request.retries
    ensures Enabled(s, FAILURE) && Waiting(Apply(s, FAILURE), request, n + 1)
  {
    DelayExactly(n);
    assert ArmFor(JobState.Running, Err(Network)) == FailsAndRetries;
  }

  lemma Panics(s: State, request: Request)
    requires Out(s, request, 64) && request.retries > 64
    ensures Enabled(s, FAILURE)
    ensures var r := Apply(s, FAILURE);
      r.panicked && 0 !in r.jobs && 0 in r.out.downloads && r.out.downloads[0].results == s.out.Of(0).results
  {
    DelayExactly(64);
    assert ArmFor(JobState.Running, Err(Network)) == FailsAndRetries;
  }

  lemma TimesOut(s: State, request: Request, n: u32)
    requires Waiting(s, request, n)
    ensures Enabled(s, TimerFired(0, n)) && AfterFailures(Apply(s, TimerFired(0, n)), request, n)
  {
  }

  /** Dispatch, network error, timer: the download is queued again, one attempt later. */
  lemma FailsOnce(s: State, request: Request, n: u32) returns (r: State, acts: seq<Action>)
    requires AfterFailures(s, request, n) && n < 64 < request.retries
    ensures Legal(s, acts) && Exec(s, acts) == r && AfterFailures(r, request, n + 1)
  {
    hide Apply, Enabled, AfterFailures, Out, Waiting;
    var timer := TimerFired(0, n + 1);
    Dispatches(s, request, n);
    var running := Apply(s, TryStart);
    Fails(running, request, n);
    var waiting := Apply(running, FAILURE);
    TimesOut(waiting, request, n + 1);
    r := Apply(waiting, timer);
    Single(s, TryStart);
    ExecAppend(s, [TryStart], FAILURE);
    ExecAppend(s, [TryStart] + [FAILURE], timer);
    acts := [TryStart] + [FAILURE] + [timer];
  }

  lemma {:induction false} FailsOften(request: Request, n: u32) returns (s: State, acts: seq<Action>)
    requires n <= 64 < request.retries
    ensures Legal(Initial(1), acts) && Exec(Initial(1), acts) == s && AfterFailures(s, request, n)
    decreases n
  {
    if n == 0 {
      s, acts := Begins(request);
    } else {
      var mid, before := FailsOften(request, n - 1);
      var r, more := FailsOnce(mid, request, n - 1);
      ExecConcat(Initial(1), before, more);
      s, acts := r, before + more;
    }
  }

  /** Any request above 64 retries can kill the scheduler thread: 65 network errors do. */
  lemma PanicHappens(request: Request) returns (s: State, acts: seq<Action>)
    requires request.retries > 64
    ensures Legal(Initial(1), acts) && s == Exec(Initial(1), acts) && s.panicked
    ensures 0 in s.out.downloads && s.out.downloads[0].results == [] && 0 !in s.jobs
  {
    hide Apply, Enabled, AfterFailures, Out;
    var mid, before := FailsOften(request, 64);
    Dispatches(mid, request, 64);
    var running := Apply(mid, TryStart);
    ExecAppend(Initial(1), before, TryStart);
    Panics(running, request);
    s := Apply(running, FAILURE);
    acts := before + [TryStart] + [FAILURE];
    ExecAppend(Initial(1), before + [TryStart], FAILURE);
    Unanswered(running, before + [TryStart], request);
  }

  lemma Unanswered(s: State, acts: seq<Action>, request: Request)
    requires Legal(Initial(1), acts) && Exec(Initial(1), acts) == s && Out(s, request, 64)
    ensures s.out.Of(0).results == []
  {
    assert Leads(1, acts, s);
    ResultsAndReplies(s);
  }
}
