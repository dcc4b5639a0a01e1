/** What the invariant means for the scheduler's clients, over every run. */
module SchedulerTheorems {
  import opened Types
  import opened Backoff
  import opened Lifecycle
  import opened Jobs
  import opened SchedulerSpec
  import opened SchedulerInvariant

  /** Every state some run of a fresh scheduler leads to. */
  ghost predicate Reachable(s: State) {
    exists maxConcurrent: nat, acts :: Leads(maxConcurrent, acts, s)
  }

  ghost predicate Leads(maxConcurrent: nat, acts: seq<Action>, s: State) {
    Legal(Initial(maxConcurrent), acts) && Exec(Initial(maxConcurrent), acts) == s
  }

  lemma ReachableIsInv(s: State)
    requires Reachable(s)
    ensures Inv(s)
  {
    hide Inv;
    var maxConcurrent: nat, acts :| Leads(maxConcurrent, acts, s);
    InitialInv(maxConcurrent);
    ReachableInv(Initial(maxConcurrent), acts);
  }

  lemma InitialIsReachable(maxConcurrent: nat)
    ensures Reachable(Initial(maxConcurrent))
  {
    assert Leads(maxConcurrent, [], Initial(maxConcurrent));
  }

  lemma ReachableOn(s: State, acts: seq<Action>)
    requires Reachable(s) && Legal(s, acts)
    ensures Reachable(Exec(s, acts))
  {
    hide Apply, Enabled;
    var maxConcurrent: nat, before :| Leads(maxConcurrent, before, s);
    ExecConcat(Initial(maxConcurrent), before, acts);
    assert Leads(maxConcurrent, before + acts, Exec(s, acts));
  }

  lemma ReachableNext(s: State, a: Action)
    requires Reachable(s) && Enabled(s, a)
    ensures Reachable(Apply(s, a))
  {
    hide Apply, Enabled;
    var maxConcurrent: nat, before :| Leads(maxConcurrent, before, s);
    ExecAppend(Initial(maxConcurrent), before, a);
    assert Leads(maxConcurrent, before + [a], Apply(s, a));
  }

  // ----- where jobs are

  /**
   * The queue lists exactly the queued jobs, each once; there is exactly one worker for each
   * job that needs one and none besides; every job waiting to retry waits for exactly one
   * timer, the one carrying its own attempt number.
   */
  lemma Placement(s: State)
    requires Reachable(s) && !s.panicked
    ensures Distinct(s.ready)
    ensures forall id :: id in s.ready ==> id in s.jobs && s.jobs[id].state.Queued?
    ensures !s.root ==> forall id :: id in s.jobs && s.jobs[id].state.Queued? ==> id in s.ready
    ensures forall id: Id :: s.workers[id] == if id in s.jobs && s.jobs[id].state.InFlight() then 1 else 0
    ensures forall id :: id in s.jobs && s.jobs[id].state.Retrying? ==>
      s.jobs[id].state.attempt == s.jobs[id].attempt && s.delayed[(id, s.jobs[id].attempt)] == 1
    ensures forall id :: id in s.jobs && s.jobs[id].state.InFlight() ==> (id in s.stops <==> !s.jobs[id].state.Running?)
  {
    hide HistoryOk, FinishedOk;
    ReachableIsInv(s);
    forall id: Id
      ensures s.workers[id] == if id in s.jobs && s.jobs[id].state.InFlight() then 1 else 0
      ensures id in s.jobs && s.jobs[id].state.Retrying? ==>
        s.jobs[id].state.attempt == s.jobs[id].attempt && s.delayed[(id, s.jobs[id].attempt)] == 1
      ensures id in s.jobs && s.jobs[id].state.InFlight() ==> (id in s.stops <==> !s.jobs[id].state.Running?)
    {
      assert IdOk(s, id);
    }
  }

  // ----- results and replies

  /**
   * The event announces the result: completed if and only if it is Ok, cancelled if and only if
   * it is that error, and otherwise failed with the very error.
   */
  ghost predicate Announces(e: EventKind, outcome: Outcome) {
    && (e.Completed? <==> outcome.Ok?)
    && (e.Cancelled? <==> outcome == Err(Error.Cancelled))
    && (outcome.Err? && outcome.error != Error.Cancelled ==> e == Failed(outcome.error))
  }

  /**
   * A download the scheduler was given has no result while its job lives and exactly one
   * afterwards; a pause or resume request has at most one answer, and one without an answer
   * is a pause that waits for a worker to stop.
   */
  lemma ResultsAndReplies(s: State)
    requires Reachable(s) && !s.panicked
    ensures forall id :: id in s.jobs ==> id in s.out.downloads
    ensures forall id :: id in s.out.downloads ==> |s.out.downloads[id].results| == if id in s.jobs then 0 else 1
    ensures forall a :: a in s.out.acks ==> |s.out.acks[a].replies| <= 1
    ensures forall a :: a in s.out.acks && s.out.acks[a].replies == [] ==>
      var c := s.out.acks[a];
      c.pausing && c.target in s.jobs && s.jobs[c.target].state.Pausing? && a in s.jobs[c.target].state.waiters
  {
    ReachableIsInv(s);
    forall id | id in s.out.downloads
      ensures |s.out.downloads[id].results| == if id in s.jobs then 0 else 1
    {
      assert IdOk(s, id);
    }
    forall id | id in s.jobs
      ensures id in s.out.downloads
    {
      assert IdOk(s, id);
    }
    assert forall a :: a in s.out.acks ==> AckOk(s, a);
  }

  /** Once the drain loop has run dry, every download has its result and every request its answer. */
  lemma NothingIsLost(s: State)
    requires Reachable(s) && !s.panicked && s.draining && s.workers == multiset{}
    ensures s.jobs == map[] && s.ready == [] && s.delayed == multiset{}
    ensures forall id :: id in s.out.downloads ==> |s.out.downloads[id].results| == 1
    ensures forall a :: a in s.out.acks ==> |s.out.acks[a].replies| == 1
  {
    hide HistoryOk, FinishedOk;
    ReachableIsInv(s);
    ResultsAndReplies(s);
    forall id | id in s.jobs
      ensures s.workers[id] == 1
    {
      assert IdOk(s, id);
    }
  }

  /** Each turn of the drain loop takes one worker away and starts none. */
  lemma DrainShrinks(s: State, a: Action)
    requires Reachable(s) && s.draining && Enabled(s, a) && a.WorkerDone?
    ensures Apply(s, a).draining && !Apply(s, a).panicked
    ensures Apply(s, a).workers == s.workers - multiset{a.id}
    ensures |Apply(s, a).workers| == |s.workers| - 1
  {
    hide HistoryOk, FinishedOk, AckOk, ReadyOk;
    ReachableIsInv(s);
    assert IdOk(s, a.id);
    assert s.jobs[a.id].state.Cancelling?;
    assert ArmFor(s.jobs[a.id].state, a.end).Completes? || ArmFor(s.jobs[a.id].state, a.end).CancelsNow?;
  }

  /**
   * Even if the thread has died: every download has at most one result, its log is one the
   * automaton accepts and ends with the event that goes with the result exactly if there is
   * one, and no request has more than one answer.
   */
  lemma RecordStaysInOrder(s: State)
    requires Reachable(s)
    ensures forall id :: id in s.out.downloads ==>
      var h := s.out.downloads[id];
      && |h.results| <= 1
      && !Replay(h.events).Illegal? && h.events != []
      && (h.results == [] <==> !h.events[|h.events| - 1].Terminal())
      && (h.results != [] ==> Announces(h.events[|h.events| - 1], h.results[0]))
    ensures forall a :: a in s.out.acks ==> |s.out.acks[a].replies| <= 1
  {
    hide Core;
    ReachableIsInv(s);
    if !s.panicked {
      CoreInOrder(s);
    }
    forall id | id in s.out.downloads
      ensures var h := s.out.downloads[id];
        && |h.results| <= 1
        && !Replay(h.events).Illegal? && h.events != []
        && (h.results == [] <==> !h.events[|h.events| - 1].Terminal())
        && (h.results != [] ==> Announces(h.events[|h.events| - 1], h.results[0]))
    {
      assert LogFits(s.out.downloads[id]);
      LegalLogShape(s.out.downloads[id].events);
    }
  }

  // ----- event logs

  /**
   * Replaying a download's events always gives the tag of its job; the log opens with Queued,
   * nothing follows a terminal event, and a finished download's last event is the one that
   * goes with the result its owner received.
   */
  lemma EventLog(s: State, id: Id)
    requires Reachable(s) && !s.panicked && id in s.out.downloads
    ensures var h := s.out.downloads[id];
      && |h.events| > 0 && h.events[0].Queued?
      && (forall i :: 0 <= i < |h.events| - 1 ==> !h.events[i].Terminal())
      && (id in s.jobs ==> Replay(h.events).Live? && Replay(h.events).tag == s.jobs[id].state.ToTag())
      && (id in s.jobs ==> !h.events[|h.events| - 1].Terminal())
      && (id !in s.jobs ==> |h.results| == 1 && Announces(h.events[|h.events| - 1], h.results[0]))
  {
    ReachableIsInv(s);
    assert IdOk(s, id);
    LegalLogShape(s.out.downloads[id].events);
  }

  /**
   * The retry timers of a download are the retries it announced, with strictly increasing
   * attempt numbers: no timer is ever started twice. Each delay is the capped power of two,
   * within ten seconds; delays never shrink and add up to at most the budget of the request.
   */
  lemma RetrySchedule(s: State, id: Id)
    requires Reachable(s) && !s.panicked && id in s.out.downloads
    ensures var h := s.out.downloads[id];
      && Increasing(h.timers)
      && (Replay(h.events).Live? || Replay(h.events).Ended?)
      && Replay(h.events).retries == h.timers
      && TotalDelayMs(h.events) <= BudgetMs(h.request.retries)
      && (forall i, j :: 0 <= i < j < |h.events| && h.events[i].RetryScheduled? && h.events[j].RetryScheduled? ==>
            h.events[i].attempt < h.events[j].attempt)
      && (forall i :: 0 <= i < |h.events| && h.events[i].RetryScheduled? ==>
            && h.events[i].attempt >= 1 && h.events[i].nextDelayMs <= 10_000
            && (h.request.retries <= 0x8000_0000 ==> h.events[i].nextDelayMs == CappedMs(h.events[i].attempt - 1)))
      && (h.request.retries <= 0x8000_0000 ==>
            forall i, j :: 0 <= i < j < |h.events| && h.events[i].RetryScheduled? && h.events[j].RetryScheduled? ==>
              h.events[i].nextDelayMs <= h.events[j].nextDelayMs)
  {
    ReachableIsInv(s);
    RetryFacts(s, id);
    var h := s.out.downloads[id];
    LegalLogShape(h.events);
    hide Replay, Inv, TotalDelayMs;
    forall i | 0 <= i < |h.events| && h.events[i].RetryScheduled?
      ensures 1 <= h.events[i].attempt <= h.request.retries && h.events[i].nextDelayMs <= 10_000
      ensures h.request.retries <= 0x8000_0000 ==> h.events[i].nextDelayMs == CappedMs(h.events[i].attempt - 1)
    {
      RetryListed(h.events, i);
      assert h.timers[|h.timers| - 1] in h.timers;
      EachDelay(h.events, i);
    }
    forall i, j | 0 <= i < j < |h.events| && h.events[i].RetryScheduled? && h.events[j].RetryScheduled?
      ensures h.events[i].attempt < h.events[j].attempt
      ensures h.request.retries <= 0x8000_0000 ==> h.events[i].nextDelayMs <= h.events[j].nextDelayMs
    {
      RetriesIncrease(h.events, i, j);
      if h.request.retries <= 0x8000_0000 {
        DelaysGrow(h.events, i, j);
      }
    }
  }

  lemma RetryFacts(s: State, id: Id)
    requires Inv(s) && !s.panicked && id in s.out.downloads
    ensures var h := s.out.downloads[id];
      && Increasing(h.timers) && (forall k :: k in h.timers ==> k <= h.request.retries)
      && (Replay(h.events).Live? || Replay(h.events).Ended?)
      && Replay(h.events).retries == h.timers
      && Replay(h.events).waitMs <= BudgetMs(h.request.retries)
  {
    assert IdOk(s, id);
    if id in s.jobs {
      BudgetMonotone(s.jobs[id].attempt, s.jobs[id].request.retries);
    }
  }

  // ----- timers and attempts

  lemma RetryingLast(es: seq<EventKind>)
    requires Replay(es).Live? && Replay(es).tag.Retrying?
    ensures Replay(es).retries != [] && Replay(es).retries[|Replay(es).retries| - 1] == Replay(es).tag.attempt
  {
  }

  /**
   * A timer that fires requeues its download only if it is the last timer started for it, the
   * one of the retry the job is waiting for; any other timer does nothing but disappear.
   */
  lemma StaleTimersAreInert(s: State, id: Id, attempt: nat)
    requires Reachable(s) && Enabled(s, TimerFired(id, attempt))
    ensures id in s.out.downloads && attempt in s.out.downloads[id].timers
    ensures var r := Apply(s, TimerFired(id, attempt));
      if && id in s.jobs && s.jobs[id].state.Retrying?
         && attempt == s.out.downloads[id].timers[|s.out.downloads[id].timers| - 1]
      then r.ready == s.ready + [id] && r.jobs == s.jobs[id := s.jobs[id].(state := JobState.Queued)]
      else r == s.(delayed := s.delayed - multiset{(id, attempt)})
  {
    hide Reachable;
    ReachableIsInv(s);
    assert IdOk(s, id);
    hide Core, Replay;
    if id in s.jobs && s.jobs[id].state.Retrying? {
      RetryingLast(s.out.downloads[id].events);
    }
  }

  function CleanStops(ends: seq<WorkerEnd>): nat {
    if ends == [] then 0
    else CleanStops(ends[..|ends| - 1]) + (if IsCleanStop(ends[|ends| - 1]) then 1 else 0)
  }

  lemma {:induction false} StopsAndFailures(ends: seq<WorkerEnd>)
    requires forall e :: e in ends ==> IsCleanStop(e) || IsFailure(e)
    ensures CleanStops(ends) + Failures(ends) == |ends|
  {
    if ends != [] {
      var front := ends[..|ends| - 1];
      assert forall e :: e in front ==> e in ends;
      StopsAndFailures(front);
    }
  }

  /**
   * Every dispatch of a live job is accounted for: it ended in a failure that used up one
   * attempt, in a clean pause, or its worker is still out. The attempt never passes the limit
   * and no download sees more than one failing worker beyond its retries.
   */
  lemma AttemptsAddUp(s: State, id: Id)
    requires Reachable(s) && !s.panicked && id in s.out.downloads
    ensures var h := s.out.downloads[id];
      && Failures(h.ends) <= h.request.retries + 1
      && (id in s.jobs ==>
            && s.jobs[id].request == h.request
            && s.jobs[id].attempt <= h.request.retries
            && Failures(h.ends) == s.jobs[id].attempt
            && Starts(h.events) == s.jobs[id].attempt + CleanStops(h.ends) + s.workers[id])
      && (id !in s.jobs ==> Starts(h.events) == |h.ends|)
  {
    ReachableIsInv(s);
    assert IdOk(s, id);
    var h := s.out.downloads[id];
    LegalLogShape(h.events);
    if id in s.jobs {
      StopsAndFailures(h.ends);
    }
  }

  /**
   * A returning worker always finds its job, never in a state without an arm of its own, and
   * the general retry arm is only entered for a running job.
   */
  lemma UnreachableArms(s: State, a: Action)
    requires Reachable(s) && a.WorkerDone? && Enabled(s, a)
    ensures a.id in s.jobs
    ensures ArmFor(s.jobs[a.id].state, a.end) != Invalid
    ensures ArmFor(s.jobs[a.id].state, a.end).FailsAndRetries? ==> s.jobs[a.id].state.Running?
    ensures ArmFor(s.jobs[a.id].state, a.end).StoppedByRoot? ==> a.id !in s.stops
  {
    ReachableIsInv(s);
    ReachableArms(s, a.id, a.end);
  }

  // ----- dispatch

  function Slots(s: State): nat {
    if |s.workers| < s.maxConcurrent then
      if s.maxConcurrent - |s.workers| < |s.ready| then s.maxConcurrent - |s.workers| else |s.ready|
    else 0
  }

  /** `r` is `s` after the first `n` ids of the queue were started, in order. */
  ghost predicate StartedFirst(s: State, r: State, n: nat)
    requires n <= |s.ready|
  {
    && r.ready == s.ready[n..]
    && r.started == s.started + s.ready[..n]
    && r.workers == s.workers + multiset(s.ready[..n])
    && r.jobs.Keys == s.jobs.Keys
    && (forall id :: id in s.jobs && id in s.ready[..n] ==> r.jobs[id] == s.jobs[id].(state := JobState.Running))
    && (forall id :: id in s.jobs && id !in s.ready[..n] ==> r.jobs[id] == s.jobs[id])
    && r.maxConcurrent == s.maxConcurrent
  }

  lemma StartOne(s: State)
    requires Core(s) && !s.root && s.ready != []
    ensures StartedFirst(s, DispatchFront(s), 1)
    ensures Core(DispatchFront(s)) && !DispatchFront(s).root
    ensures |DispatchFront(s).workers| == |s.workers| + 1 && DispatchFront(s).maxConcurrent == s.maxConcurrent
    ensures |DispatchFront(s).ready| == |s.ready| - 1
  {
    DispatchKeeps(s, DispatchFront(s));
    hide HistoryOk, FinishedOk, IdOk, AckOk;
    assert s.ready[..1] == [s.ready[0]];
    assert s.ready[0] in s.ready;
  }

  lemma StartedNone(s: State)
    ensures StartedFirst(s, s, 0)
  {
    assert s.ready[..0] == [];
  }

  lemma StartedMore(s: State, mid: State, r: State, n: nat)
    requires s.ready != [] && StartedFirst(s, mid, 1) && n <= |mid.ready| && StartedFirst(mid, r, n)
    ensures StartedFirst(s, r, n + 1)
  {
    assert s.ready[..n + 1] == s.ready[..1] + mid.ready[..n];
    assert s.ready[n + 1..] == mid.ready[n..];
    assert multiset(s.ready[..n + 1]) == multiset(s.ready[..1]) + multiset(mid.ready[..n]);
    forall id | id in s.jobs && id in s.ready[..n + 1]
      ensures r.jobs[id] == s.jobs[id].(state := JobState.Running)
    {
      assert id in s.ready[..1] || id in mid.ready[..n];
    }
  }

  /**
   * The dispatch loop starts exactly as many of the waiting ids as there are free places,
   * from the front of the queue and in its order, and leaves no place free while an id waits.
   */
  lemma {:induction false} DispatchInOrder(s: State)
    requires Core(s) && !s.root
    ensures StartedFirst(s, TryDispatch(s), Slots(s))
    ensures TryDispatch(s).ready == [] || |TryDispatch(s).workers| >= s.maxConcurrent
    ensures |TryDispatch(s).workers| == |s.workers| + Slots(s)
    decreases |s.ready|
  {
    hide Core, StartedFirst, DispatchFront;
    if |s.workers| < s.maxConcurrent && s.ready != [] {
      var mid := DispatchFront(s);
      StartOne(s);
      DispatchInOrder(mid);
      assert Slots(s) == Slots(mid) + 1;
      StartedMore(s, mid, TryDispatch(s), Slots(mid));
    } else {
      StartedNone(s);
    }
  }

  lemma {:induction false} CancelEachStartsNone(s: State, order: seq<Id>, discards: map<Id, Error>)
    ensures CancelEach(s, order, discards).workers == s.workers
  {
    hide OnCancel;
    if order != [] {
      var front := order[..|order| - 1];
      CancelEachStartsNone(s, front, discards);
      CancelStartsNone(CancelEach(s, front, discards), order[|order| - 1], DiscardOf(discards, order[|order| - 1]));
    }
  }

  lemma PauseStartsNone(s: State, id: Id, ack: Ack)
    ensures OnPause(s, id, ack).workers == s.workers
  {
    hide JobView.PauseOut, Without, Record.Receive, Record.Answer, Record.Emit;
  }

  lemma ResumeStartsNone(s: State, id: Id, ack: Ack)
    ensures OnResume(s, id, ack).workers == s.workers
  {
    hide Record.Receive, Record.Answer, Record.Emit;
  }

  lemma CancelStartsNone(s: State, id: Id, discard: Option<Error>)
    ensures OnCancel(s, id, discard).workers == s.workers
  {
    hide JobView.FinalizeOut, Without, Record.Emit, Record.AnswerAll;
  }

  lemma CommandStartsNone(s: State, cmd: SchedulerSpec.Command, order: seq<Id>, discards: map<Id, Error>)
    ensures HandleCmd(s, cmd, order, discards).workers == s.workers
  {
    hide OnPause, OnResume, OnCancel;
    match cmd
    case CancelAll => CancelEachStartsNone(s, order, discards);
    case PauseJob(id, ack) => PauseStartsNone(s, id, ack);
    case ResumeJob(id, ack) => ResumeStartsNone(s, id, ack);
    case CancelJob(id) => CancelStartsNone(s, id, DiscardOf(discards, id));
    case _ =>
  }

  lemma ReturnStartsNone(s: State, id: Id, end: WorkerEnd, discard: Option<Error>)
    ensures OnWorker(s, id, end, discard).workers == s.workers
  {
  }

  /** No step raises the number of workers above the limit in force, or above what it was. */
  lemma ConcurrencyBound(s: State, a: Action)
    requires Enabled(s, a)
    ensures |Apply(s, a).workers| <= if |s.workers| < s.maxConcurrent then s.maxConcurrent else |s.workers|
  {
    hide OnWorker, HandleCmd;
    match a
    case RootCancelled =>
    case Command(cmd, order, discards) => CommandStartsNone(s, cmd, order, discards);
    case WorkerDone(id, end, discard) => ReturnStartsNone(s.(workers := s.workers - multiset{id}), id, end, discard);
    case TimerFired(id, attempt) =>
    case TryStart =>
    case Shutdown(order, discards) => CancelEachStartsNone(s, order, discards);
  }
}
