/**
 * Exactly when the ready queue loses a queued job: the dispatch loop takes an id off the queue
 * before it looks at the root token.
 */
module SchedulerQueue {
  import opened Types
  import opened Jobs
  import opened SchedulerSpec
  import opened SchedulerInvariant
  import opened SchedulerTheorems
  import opened ReadyQueue
  import opened SchedulerChanges
  import opened SchedulerCancels
  import opened SchedulerEffects
  import opened SchedulerReturns
  import opened SchedulerOrder

  /** Every queued job is in the queue. */
  ghost predicate Listed(s: State) {
    forall id :: id in s.jobs && s.jobs[id].state.Queued? ==> id in s.ready
  }

  lemma CommandLists(s: State, cmd: SchedulerSpec.Command, order: seq<Id>, discards: map<Id, Error>)
    requires Reachable(s) && Listed(s) && Enabled(s, Action.Command(cmd, order, discards))
    ensures Listed(Apply(s, Action.Command(cmd, order, discards)))
  {
    hide Reachable, TakenOut, KeepsOrder, OnPause, OnResume, OnCancel, OnCancelAll, Heard;
    var r := Apply(s, Action.Command(cmd, order, discards));
    match cmd
    case Enqueue(id, request) => EnqueueEffect(s, id, request);
    case PauseJob(id, ack) =>
      PauseEffect(s, id, ack);
      if id in s.jobs && (s.jobs[id].state.Queued? || s.jobs[id].state.Retrying?) {
        TakenOutKeepsOrder(s.ready, r.ready, id);
      }
    case ResumeJob(id, ack) => ResumeEffect(s, id, ack);
    case CancelJob(id) =>
      CancelEffect(s, id, discards);
      TakenOutKeepsOrder(s.ready, r.ready, id);
      OthersListed(s, r, id);
    case CancelAll =>
      CancelAllEffect(s, order, discards);
      NoneQueued(s, r, discards);
    case SetMaxConcurrent(_) =>
  }

  lemma OthersListed(s: State, r: State, id: Id)
    requires Listed(s) && OnlyAt(s, r, id) && (forall x :: x in s.ready && x != id ==> x in r.ready)
    requires id in r.jobs ==> !r.jobs[id].state.Queued?
    ensures Listed(r)
  {
    forall x | x in r.jobs && r.jobs[x].state.Queued?
      ensures x in r.ready
    {
      assert SameAt(s, r, x);
    }
  }

  /** Cancelling everything leaves nothing that waits. */
  lemma NoneQueued(s: State, r: State, discards: map<Id, Error>)
    requires AllCancelled(s, r, discards)
    ensures Listed(r)
  {
    forall id | id in r.jobs
      ensures r.jobs[id].state.Cancelling?
    {
      assert CancelledEntry(s, r, id, if id in discards then Some(discards[id]) else None);
    }
  }

  /** Neither a worker's return nor a timer leaves a queued job out. */
  lemma ReturnLists(s: State, id: Id, end: WorkerEnd, discard: Option<Error>)
    requires Reachable(s) && Listed(s) && Enabled(s, WorkerDone(id, end, discard))
    ensures Listed(Apply(s, WorkerDone(id, end, discard)))
  {
    hide Reachable, OnWorker, Heard, Answers;
    ReturnEffect(s, id, end, discard);
  }

  /**
   * From a reachable state in which every queued job is listed, a step leaves one out exactly
   * if it is a round of the dispatch loop after the root token was cancelled.
   */
  lemma UnlistsExactly(s: State, a: Action)
    requires Reachable(s) && Listed(s) && Enabled(s, a)
    ensures !Listed(Apply(s, a)) <==> a.TryStart? && s.root
  {
    hide Reachable, OnWorker, OnCancelAll, HandleCmd, DispatchFront, OnRetryElapsed, Heard;
    QueueDistinct(s);
    match a
    case RootCancelled =>
    case Command(cmd, order, discards) => CommandLists(s, cmd, order, discards);
    case WorkerDone(id, end, discard) => ReturnLists(s, id, end, discard);
    case TimerFired(id, attempt) => TimerEffect(s, id, attempt);
    case TryStart =>
      StartEffect(s);
      FrontLeaves(s.ready);
    case Shutdown(order, discards) =>
      ShutdownEffect(s, order, discards);
      NoneQueued(s, Apply(s, a), discards);
  }

  /** And for any request there is a run to such a step. */
  lemma UnlistedHappens(request: Request) returns (s: State)
    ensures Reachable(s) && 0 in s.jobs && s.jobs[0].state.Queued? && 0 !in s.ready
  {
    hide Reachable;
    InitialIsReachable(1);
    var enqueue := Action.Command(Enqueue(0, request), [], map[]);
    ReachableNext(Initial(1), enqueue);
    var s1 := Apply(Initial(1), enqueue);
    ReachableNext(s1, RootCancelled);
    var s2 := Apply(s1, RootCancelled);
    ReachableNext(s2, TryStart);
    s := Apply(s2, TryStart);
  }
}
