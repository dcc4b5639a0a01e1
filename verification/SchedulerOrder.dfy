/** First come, first served: how every step moves the ready queue, and what that means over runs. */
module SchedulerOrder {
  import opened Types
  import opened Jobs
  import opened SchedulerSpec
  import opened SchedulerInvariant
  import opened SchedulerTheorems
  import opened ReadyQueue
  import opened SchedulerChanges
  import opened SchedulerCancels
  import opened SchedulerEffects
  import opened SchedulerReturns

  /** What one step does to the queue and to the list of starts. */
  ghost predicate QueueMoves(s: State, r: State) {
    && KeepsOrder(s.ready, r.ready)
    && (forall id :: id in r.ready && id !in s.ready ==>
          && id in r.jobs && r.jobs[id].state.Queued?
          && (id in s.jobs ==> s.jobs[id].state.Paused? || s.jobs[id].state.Retrying?))
    && (r.started == s.started || (s.ready != [] && r.started == s.started + [s.ready[0]] && r.ready == s.ready[1..]))
  }

  lemma CommandMoves(s: State, cmd: SchedulerSpec.Command, order: seq<Id>, discards: map<Id, Error>)
    requires Reachable(s) && Enabled(s, Action.Command(cmd, order, discards))
    ensures QueueMoves(s, Apply(s, Action.Command(cmd, order, discards)))
  {
    hide Reachable, Becomes, TakenOut, KeepsOrder, CancelledEntry, OnPause, OnResume, OnCancel, OnCancelAll;
    SameKeepsOrder(s.ready);
    var r := Apply(s, Action.Command(cmd, order, discards));
    match cmd
    case Enqueue(id, request) =>
      EnqueueEffect(s, id, request);
      EntryKeepsOrder(s.ready, id);
    case PauseJob(id, ack) =>
      PauseEffect(s, id, ack);
      if id in s.jobs && (s.jobs[id].state.Queued? || s.jobs[id].state.Retrying?) {
        TakenOutKeepsOrder(s.ready, r.ready, id);
      }
    case ResumeJob(id, ack) => ResumeMoves(s, id, ack);
    case CancelJob(id) =>
      CancelEffect(s, id, discards);
      TakenOutKeepsOrder(s.ready, r.ready, id);
    case CancelAll =>
      CancelAllEffect(s, order, discards);
      EmptyKeepsOrder(s.ready);
    case SetMaxConcurrent(_) =>
  }

  lemma ResumeMoves(s: State, id: Id, ack: Ack)
    requires Reachable(s) && Enabled(s, Action.Command(ResumeJob(id, ack), [], map[]))
    ensures QueueMoves(s, Apply(s, Action.Command(ResumeJob(id, ack), [], map[])))
  {
    hide Reachable, KeepsOrder, OnResume;
    SameKeepsOrder(s.ready);
    ResumeEffect(s, id, ack);
    if id in s.jobs && s.jobs[id].state.Paused? {
      EntryKeepsOrder(s.ready, id);
    }
  }

  lemma TimerMoves(s: State, id: Id, attempt: nat)
    requires Reachable(s) && Enabled(s, TimerFired(id, attempt))
    ensures QueueMoves(s, Apply(s, TimerFired(id, attempt)))
  {
    hide Reachable, KeepsOrder, OnRetryElapsed;
    SameKeepsOrder(s.ready);
    TimerEffect(s, id, attempt);
    if id in s.jobs && s.jobs[id].state == JobState.Retrying(attempt) {
      EntryKeepsOrder(s.ready, id);
    }
  }

  lemma StartMoves(s: State)
    requires Reachable(s) && Enabled(s, TryStart)
    ensures QueueMoves(s, Apply(s, TryStart))
  {
    hide Reachable, KeepsOrder, DispatchFront, Becomes;
    StartEffect(s);
    assert s.ready[1..] == s.ready[..0] + s.ready[0 + 1..];
    LeavingKeepsOrder(s.ready, s.ready[1..], 0);
  }

  /**
   * Every step of the scheduler only takes ids out of the queue or puts newly queued ones at its
   * end, and starts none but its front.
   */
  lemma StepMovesQueue(s: State, a: Action)
    requires Reachable(s) && Enabled(s, a)
    ensures QueueMoves(s, Apply(s, a))
  {
    hide Reachable, KeepsOrder, QueueMoves, CancelledEntry;
    hide OnWorker, OnRetryElapsed, OnCancelAll, DispatchFront, HandleCmd;
    match a
    case RootCancelled => NothingMoves(s, Apply(s, a));
    case Command(cmd, order, discards) => CommandMoves(s, cmd, order, discards);
    case WorkerDone(id, end, discard) =>
      ReturnEffect(s, id, end, discard);
      NothingMoves(s, Apply(s, a));
    case TimerFired(id, attempt) => TimerMoves(s, id, attempt);
    case TryStart => StartMoves(s);
    case Shutdown(order, discards) =>
      ShutdownEffect(s, order, discards);
      EmptyKeepsOrder(s.ready);
      AllGone(s, Apply(s, a));
  }

  lemma NothingMoves(s: State, r: State)
    requires r.ready == s.ready && r.started == s.started
    ensures QueueMoves(s, r)
  {
    SameKeepsOrder(s.ready);
  }

  lemma AllGone(s: State, r: State)
    requires r.ready == [] && r.started == s.started && KeepsOrder(s.ready, [])
    ensures QueueMoves(s, r)
  {
  }

  /** `a` is waiting all through this run. */
  ghost predicate WaitsThrough(s: State, acts: seq<Action>, a: Id)
    requires Legal(s, acts)
    decreases |acts|
  {
    a in s.ready && (acts == [] || WaitsThrough(Apply(s, acts[0]), acts[1..], a))
  }

  lemma Overtakes(s: State, r: State, a: Id, b: Id)
    requires QueueMoves(s, r) && Distinct(s.ready) && Distinct(r.ready) && a != b
    requires a in s.ready && a in r.ready && (b in s.ready ==> Ahead(s.ready, a, b))
    ensures b in r.ready ==> Ahead(r.ready, a, b)
  {
    if b in r.ready && b in s.ready {
      if !Ahead(r.ready, a, b) {
        Ordered(r.ready, a, b);
        assert Ahead(s.ready, b, a);
        NotBoth(s.ready, a, b);
      }
    }
  }

  /** What is behind something else is not what a step starts. */
  lemma StartsNoneBehind(s: State, r: State, a: Id, b: Id)
    requires QueueMoves(s, r) && Distinct(s.ready)
    requires a in s.ready && a != b && (b in s.ready ==> Ahead(s.ready, a, b))
    ensures s.started <= r.started && (forall k :: |s.started| <= k < |r.started| ==> r.started[k] != b)
  {
    hide KeepsOrder;
    if r.started != s.started {
      assert s.ready[0] in s.ready;
    }
  }

  lemma QueueDistinct(s: State)
    requires Reachable(s) && !s.panicked
    ensures Distinct(s.ready)
  {
    ReachableIsInv(s);
  }

  lemma PanicIsLast(s: State, acts: seq<Action>)
    requires Legal(s, acts) && acts != []
    ensures !s.panicked
  {
  }

  /**
   * While one download waits in the queue, no download behind it, and none that is queued later,
   * is started before it, however long the run.
   */
  lemma {:induction false} FirstComeFirstServed(s: State, acts: seq<Action>, a: Id, b: Id)
    requires Reachable(s) && Legal(s, acts) && WaitsThrough(s, acts, a) && a != b
    requires b in s.ready ==> Ahead(s.ready, a, b)
    ensures var r := Exec(s, acts);
      s.started <= r.started && forall k :: |s.started| <= k < |r.started| ==> r.started[k] != b
    decreases |acts|
  {
    hide Reachable, Enabled, Apply, QueueMoves, Distinct, Ahead;
    if acts != [] {
      var mid := Apply(s, acts[0]);
      StepMovesQueue(s, acts[0]);
      ReachableNext(s, acts[0]);
      PanicIsLast(s, acts);
      QueueDistinct(s);
      StartsNoneBehind(s, mid, a, b);
      if acts[1..] != [] {
        PanicIsLast(mid, acts[1..]);
        QueueDistinct(mid);
        Overtakes(s, mid, a, b);
        FirstComeFirstServed(mid, acts[1..], a, b);
      }
    }
  }
}
