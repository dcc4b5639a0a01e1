/** What the senders of requests may rely on, over every run. */
module SchedulerClients {
  import opened Types
  import opened Jobs
  import opened SchedulerSpec
  import opened SchedulerInvariant
  import opened SchedulerTheorems
  import opened ReadyQueue
  import opened SchedulerChanges
  import opened SchedulerCancels
  import opened SchedulerEffects
  import opened SchedulerReturns

  // ----- answers to requests

  /**
   * A pause is answered at once unless a worker has to stop first, in which case it waits
   * with the job; an answer given at once is Ok exactly if the job is now paused.
   */
  lemma PauseAnswer(s: State, id: Id, ack: Ack)
    requires Reachable(s) && Enabled(s, Action.Command(PauseJob(id, ack), [], map[]))
    ensures var r := Apply(s, Action.Command(PauseJob(id, ack), [], map[]));
      && ack in r.out.acks
      && (if id in s.jobs && (s.jobs[id].state.Running? || s.jobs[id].state.Pausing?) then
            && r.out.acks[ack].replies == []
            && id in r.jobs && r.jobs[id].state.Pausing?
            && r.jobs[id].state.waiters == s.jobs[id].state.Waiting() + [ack]
            && id in r.stops
          else
            && |r.out.acks[ack].replies| == 1
            && (r.out.acks[ack].replies[0].Ok? <==> id in r.jobs && r.jobs[id].state.Paused?))
  {
    hide Reachable, OnPause, Heard, TakenOut;
    PauseEffect(s, id, ack);
    if id in s.jobs {
      ReachableIsInv(s);
      Known(s, id);
    }
  }

  /** A resume is always answered at once, with Ok exactly if the job is now waiting, running or about to retry. */
  lemma ResumeAnswer(s: State, id: Id, ack: Ack)
    requires Enabled(s, Action.Command(ResumeJob(id, ack), [], map[]))
    ensures var r := Apply(s, Action.Command(ResumeJob(id, ack), [], map[]));
      && ack in r.out.acks && |r.out.acks[ack].replies| == 1
      && (r.out.acks[ack].replies[0].Ok? <==>
            id in r.jobs && (r.jobs[id].state.Queued? || r.jobs[id].state.Running? || r.jobs[id].state.Retrying?))
  {
    hide OnResume;
    ResumeLogged(s, id, ack);
  }

  /**
   * When the worker of a pausing job comes back, everyone who waited is told in that step:
   * Ok if the job is now paused, otherwise what its owner is told.
   */
  lemma WaitersHearTheEnd(s: State, a: Action, ack: Ack)
    requires Reachable(s) && Enabled(s, a) && a.WorkerDone? && a.id in s.jobs
    requires s.jobs[a.id].state.Pausing? && ack in s.jobs[a.id].state.waiters
    ensures var r := Apply(s, a);
      && ack in r.out.acks
      && (if a.id in r.jobs then
            r.jobs[a.id].state.Paused? && r.out.acks[ack].replies == [Ok(())]
          else
            && a.id in r.out.downloads && |r.out.downloads[a.id].results| == 1
            && (match r.out.downloads[a.id].results[0]
                case Ok(_) => r.out.acks[ack].replies == [Ok(())]
                case Err(e) => r.out.acks[ack].replies == [Err(e)]))
  {
    hide Reachable, OnWorker, Heard;
    ReturnEffect(s, a.id, a.end, a.discard);
    ReachableIsInv(s);
    Known(s, a.id);
    hide Core;
    EndsWith(s.out.downloads[a.id], a.end, Apply(s, a).out.downloads[a.id]);
  }

  /** A history that was given one result has that result. */
  lemma EndsWith(h: History, end: WorkerEnd, after: History)
    requires h.results == []
    ensures forall outcome ::
      after == Heard(h, News([Ending(outcome)], [outcome], [end], [])) ==> after.results == [outcome]
  {
  }

  // ----- cancellation

  /**
   * Cancelling is final: no step queues, retries, pauses or changes the job in any other way.
   * Only its own worker ends it, with Ok if the worker had already finished and otherwise with
   * what the cleanup of the partial file answered.
   */
  lemma CancelIsFinal(s: State, a: Action, id: Id)
    requires Reachable(s) && Enabled(s, a) && id in s.jobs && s.jobs[id].state.Cancelling?
    ensures var r := Apply(s, a);
      if a.WorkerDone? && a.id == id then
        && id !in r.jobs && id !in r.ready
        && id in r.out.downloads
        && r.out.downloads[id].results ==
             [if a.end.Ok? && a.end.value.Finished? then Ok(a.end.value.result) else Discarded(a.discard)]
      else
        id in r.jobs && r.jobs[id] == s.jobs[id]
  {
    hide Reachable, OnWorker, HandleCmd, OnRetryElapsed, DispatchFront, OnCancelAll, Heard, TakenOut;
    ReachableIsInv(s);
    Known(s, id);
    hide Core;
    match a
    case RootCancelled =>
    case Command(cmd, order, discards) => CommandSpares(s, cmd, order, discards, id);
    case WorkerDone(other, end, discard) =>
      ReturnEffect(s, other, end, discard);
      EndsWith(s.out.downloads[id], end, Apply(s, a).out.downloads[id]);
    case TimerFired(other, attempt) => TimerEffect(s, other, attempt);
    case TryStart => StartEffect(s);
    case Shutdown(order, discards) =>
      ShutdownEffect(s, order, discards);
      assert CancelledEntry(s, Apply(s, a), id, if id in discards then Some(discards[id]) else None);
  }

  lemma CommandSpares(s: State, cmd: SchedulerSpec.Command, order: seq<Id>, discards: map<Id, Error>, id: Id)
    requires Reachable(s) && Enabled(s, Action.Command(cmd, order, discards))
    requires id in s.jobs && s.jobs[id].state.Cancelling?
    ensures var r := Apply(s, Action.Command(cmd, order, discards)); id in r.jobs && r.jobs[id] == s.jobs[id]
  {
    hide Reachable, OnPause, OnResume, OnCancel, OnCancelAll, Heard, TakenOut;
    var r := Apply(s, Action.Command(cmd, order, discards));
    match cmd
    case Enqueue(other, request) => EnqueueEffect(s, other, request);
    case PauseJob(other, ack) => PauseEffect(s, other, ack);
    case ResumeJob(other, ack) => ResumeEffect(s, other, ack);
    case CancelJob(other) =>
      CancelEffect(s, other, discards);
      if other != id {
        assert SameAt(s, r, id);
      }
    case CancelAll =>
      CancelAllEffect(s, order, discards);
      assert CancelledEntry(s, r, id, if id in discards then Some(discards[id]) else None);
    case SetMaxConcurrent(_) =>
  }

  // ----- when a pause is confirmed

  predicate Confirmed(out: Record, a: Ack) {
    a in out.acks && out.acks[a].pausing && Ok(()) in out.acks[a].replies
  }

  /** The download a request is about is paused, or has completed successfully. */
  ghost predicate AtRest(s: State, id: Id) {
    || (id in s.jobs && s.jobs[id].state.Paused?)
    || (&& id !in s.jobs && id in s.out.downloads
        && |s.out.downloads[id].results| == 1 && s.out.downloads[id].results[0].Ok?)
  }

  /** Every pause confirmed between `s` and `r` is one whose download is at rest in `r`. */
  ghost predicate ConfirmsAtRest(s: State, r: State) {
    forall a :: Confirmed(r.out, a) && !Confirmed(s.out, a) ==> AtRest(r, r.out.acks[a].target)
  }

  /**
   * A pause is confirmed only in the step after which its download is paused or has completed.
   */
  lemma PauseConfirmedAtRest(s: State, a: Action)
    requires Reachable(s) && Enabled(s, a)
    ensures ConfirmsAtRest(s, Apply(s, a))
  {
    hide Reachable, OnWorker, HandleCmd, OnRetryElapsed, DispatchFront, OnCancelAll, Heard, TakenOut;
    match a
    case RootCancelled =>
    case Command(cmd, order, discards) => CommandConfirms(s, cmd, order, discards);
    case WorkerDone(id, end, discard) => ReturnConfirms(s, id, end, discard);
    case TimerFired(id, attempt) => TimerEffect(s, id, attempt);
    case TryStart => StartEffect(s);
    case Shutdown(order, discards) => ShutdownEffect(s, order, discards);
  }

  lemma CommandConfirms(s: State, cmd: SchedulerSpec.Command, order: seq<Id>, discards: map<Id, Error>)
    requires Reachable(s) && Enabled(s, Action.Command(cmd, order, discards))
    ensures ConfirmsAtRest(s, Apply(s, Action.Command(cmd, order, discards)))
  {
    hide Reachable, OnPause, OnResume, OnCancel, OnCancelAll, Heard, TakenOut;
    match cmd
    case Enqueue(id, request) => EnqueueEffect(s, id, request);
    case PauseJob(id, ack) => PauseEffect(s, id, ack);
    case ResumeJob(id, ack) => ResumeEffect(s, id, ack);
    case CancelJob(id) => CancelEffect(s, id, discards);
    case CancelAll => CancelAllEffect(s, order, discards);
    case SetMaxConcurrent(_) =>
  }

  lemma ReturnConfirms(s: State, id: Id, end: WorkerEnd, discard: Option<Error>)
    requires Reachable(s) && Enabled(s, WorkerDone(id, end, discard))
    ensures ConfirmsAtRest(s, Apply(s, WorkerDone(id, end, discard)))
  {
    hide Reachable, OnWorker, Heard;
    ReturnEffect(s, id, end, discard);
    ReachableIsInv(s);
    Known(s, id);
    hide Core;
    EndsWith(s.out.downloads[id], end, Apply(s, WorkerDone(id, end, discard)).out.downloads[id]);
  }
}
