/**
 * What each enqueue, pause, resume, timer and start does, written out: the job, its events, the
 * answers, the queue and the timers afterwards, and that nothing else changes. None of it is
 * said in terms of the machine's own arms.
 */
module SchedulerEffects {
  import opened Types
  import opened Jobs
  import opened SchedulerSpec
  import opened SchedulerInvariant
  import opened SchedulerTheorems
  import opened ReadyQueue
  import opened SchedulerChanges

  // ----- commands

  /** A new download enters at the end of the queue, with its first event and nothing else. */
  lemma EnqueueEffect(s: State, id: Id, request: Request)
    requires Reachable(s) && Enabled(s, Action.Command(Enqueue(id, request), [], map[]))
    ensures id !in s.jobs && id !in s.ready
    ensures Apply(s, Action.Command(Enqueue(id, request), [], map[])) == s.(
      jobs := s.jobs[id := JobView(id, request, 0, JobState.Queued)],
      ready := s.ready + [id],
      out := s.out.(downloads := s.out.downloads[id := History(request, [EventKind.Queued], [], [], [])]))
  {
    ReachableIsInv(s);
    assert IdOk(s, id);
    assert NO_HISTORY.events + [EventKind.Queued] == [EventKind.Queued];
    assert s.out.downloads[id := NO_HISTORY.(request := request)][
        id := History(request, [EventKind.Queued], [], [], [])]
      == s.out.downloads[id := History(request, [EventKind.Queued], [], [], [])];
  }

  lemma LimitEffect(s: State, limit: nat)
    requires Enabled(s, Action.Command(SetMaxConcurrent(limit), [], map[]))
    ensures Apply(s, Action.Command(SetMaxConcurrent(limit), [], map[])) == s.(maxConcurrent := limit)
  {
  }

  /**
   * A pause: a job without a worker is paused at once and out of the queue; a running one is
   * told to stop and the request waits for it; one that is stopping already gets one more
   * request to answer; in all other cases nothing changes but the answer.
   */
  lemma PauseEffect(s: State, id: Id, ack: Ack)
    requires Reachable(s) && Enabled(s, Action.Command(PauseJob(id, ack), [], map[]))
    ensures var r := Apply(s, Action.Command(PauseJob(id, ack), [], map[]));
      && SameSettings(s, r) && SameWorkers(s, r) && !r.panicked
      && (if id !in s.jobs then Unmoved(s, r, ack, AckCell(id, true, [Err(Unknown)]))
          else
            var j := s.jobs[id];
            match j.state
            case Paused => Unmoved(s, r, ack, AckCell(id, true, [Ok(())]))
            case Cancelling => Unmoved(s, r, ack, AckCell(id, true, [Err(InvalidRequest)]))
            case Running =>
              && Becomes(s, r, id, Some(j.(state := JobState.Pausing([ack]))), News([PauseStarted], [], [], []))
              && r.ready == s.ready && r.stops == s.stops + {id}
              && r.out.acks == s.out.acks[ack := AckCell(id, true, [])]
            case Pausing(waiters) =>
              && Becomes(s, r, id, Some(j.(state := JobState.Pausing(waiters + [ack]))), News([], [], [], []))
              && r.ready == s.ready && r.stops == s.stops
              && r.out.acks == s.out.acks[ack := AckCell(id, true, [])]
            case _ =>
              && Becomes(s, r, id, Some(j.(state := JobState.Paused)), News([EventKind.Paused], [], [], []))
              && TakenOut(s.ready, r.ready, id) && r.stops == s.stops
              && r.out.acks == s.out.acks[ack := AckCell(id, true, [Ok(())])])
  {
    ReachableIsInv(s);
    if id !in s.jobs {
      PauseLogged(s, id, ack, Err(Unknown));
    } else {
      Known(s, id);
      hide Core;
      match s.jobs[id].state
      case Paused => PauseLogged(s, id, ack, Ok(()));
      case Cancelling => PauseLogged(s, id, ack, Err(InvalidRequest));
      case Running => PauseRunningEffect(s, id, ack);
      case Pausing(_) => PauseAgainEffect(s, id, ack);
      case _ => PauseIdleEffect(s, id, ack);
    }
  }

  /** Only the one request's entry is new. */
  ghost predicate Unmoved(s: State, r: State, ack: Ack, cell: AckCell) {
    r == s.(out := s.out.(acks := s.out.acks[ack := cell]))
  }

  lemma PauseRunningEffect(s: State, id: Id, ack: Ack)
    requires id in s.jobs && id in s.out.downloads && s.jobs[id].state.Running?
    ensures var r := OnPause(s, id, ack);
      && SameSettings(s, r) && SameWorkers(s, r) && r.panicked == s.panicked
      && Becomes(s, r, id, Some(s.jobs[id].(state := JobState.Pausing([ack]))), News([PauseStarted], [], [], []))
      && r.ready == s.ready && r.stops == s.stops + {id}
      && r.out.acks == s.out.acks[ack := AckCell(id, true, [])]
  {
    var p := s.(out := s.out.Receive(ack, id, true));
    EventBecomes(p, id, JobState.Pausing([ack]), PauseStarted);
  }

  lemma PauseAgainEffect(s: State, id: Id, ack: Ack)
    requires id in s.jobs && id in s.out.downloads && s.jobs[id].state.Pausing?
    ensures var r := OnPause(s, id, ack); var waiters := s.jobs[id].state.waiters;
      && SameSettings(s, r) && SameWorkers(s, r) && r.panicked == s.panicked
      && Becomes(s, r, id, Some(s.jobs[id].(state := JobState.Pausing(waiters + [ack]))), News([], [], [], []))
      && r.ready == s.ready && r.stops == s.stops
      && r.out.acks == s.out.acks[ack := AckCell(id, true, [])]
  {
    assert Heard(s.out.downloads[id], News([], [], [], [])) == s.out.downloads[id];
  }

  lemma PauseIdleEffect(s: State, id: Id, ack: Ack)
    requires id in s.jobs && id in s.out.downloads && s.jobs[id].id == id && Distinct(s.ready) && ack !in s.out.acks
    requires s.jobs[id].state.Queued? || s.jobs[id].state.Retrying?
    requires id in s.ready ==> s.jobs[id].state.Queued?
    ensures var r := OnPause(s, id, ack);
      && SameSettings(s, r) && SameWorkers(s, r) && r.panicked == s.panicked
      && Becomes(s, r, id, Some(s.jobs[id].(state := JobState.Paused)), News([EventKind.Paused], [], [], []))
      && TakenOut(s.ready, r.ready, id) && r.stops == s.stops
      && r.out.acks == s.out.acks[ack := AckCell(id, true, [Ok(())])]
  {
    var p := if s.jobs[id].state.Queued? then s.(ready := Without(s.ready, id)) else s;
    WithoutTakesOut(s.ready, id);
    ParkedReply(p, id, s.jobs[id], ack);
    ParkedBecomes(p, id, s.jobs[id]);
    hide Parked, Without, TakenOut;
    assert p.out == s.out && p.jobs == s.jobs;
    var r := OnPause(s, id, ack);
    assert r == Logged(Parked(p, id, s.jobs[id]), ack, id, true, Ok(()));
    hide OnPause;
    SilentPark(p, id, s.jobs[id]);
  }

  lemma SilentPark(s: State, id: Id, j: JobView)
    requires !j.state.Pausing?
    ensures var r := Parked(s, id, j);
      && SameSettings(s, r) && SameWorkers(s, r) && r.panicked == s.panicked
      && r.ready == s.ready && r.stops == s.stops && r.out.acks == s.out.acks
  {
    TellsNobody(s, Ok(()));
  }

  /** A resume puts a paused job at the end of the queue and otherwise only answers. */
  lemma ResumeEffect(s: State, id: Id, ack: Ack)
    requires Reachable(s) && Enabled(s, Action.Command(ResumeJob(id, ack), [], map[]))
    ensures var r := Apply(s, Action.Command(ResumeJob(id, ack), [], map[]));
      if id !in s.jobs then Unmoved(s, r, ack, AckCell(id, false, [Err(Unknown)]))
      else
        var j := s.jobs[id];
        match j.state
        case Paused =>
          && SameSettings(s, r) && SameWorkers(s, r) && !r.panicked
          && Becomes(s, r, id, Some(j.(state := JobState.Queued)), News([EventKind.Queued], [], [], []))
          && id !in s.ready && r.ready == s.ready + [id] && r.stops == s.stops
          && r.out.acks == s.out.acks[ack := AckCell(id, false, [Ok(())])]
        case Pausing(_) => Unmoved(s, r, ack, AckCell(id, false, [Err(InvalidRequest)]))
        case Cancelling => Unmoved(s, r, ack, AckCell(id, false, [Err(InvalidRequest)]))
        case _ => Unmoved(s, r, ack, AckCell(id, false, [Ok(())]))
  {
    ReachableIsInv(s);
    ResumeLogged(s, id, ack);
    if id in s.jobs {
      Known(s, id);
      hide Core, OnResume;
      if s.jobs[id].state.Paused? {
        EventBecomes(s, id, JobState.Queued, EventKind.Queued);
      }
    }
  }

  // ----- timers and starts

  /** The timer a job waits for puts it at the end of the queue; any other only disappears. */
  lemma TimerEffect(s: State, id: Id, attempt: nat)
    requires Reachable(s) && Enabled(s, TimerFired(id, attempt))
    ensures var r := Apply(s, TimerFired(id, attempt));
      if id in s.jobs && s.jobs[id].state == JobState.Retrying(attempt) then
        && SameSettings(s, r) && !r.panicked
        && Becomes(s, r, id, Some(s.jobs[id].(state := JobState.Queued)), News([EventKind.Queued], [], [], []))
        && id !in s.ready && r.ready == s.ready + [id]
        && r.delayed == s.delayed - multiset{(id, attempt)}
        && r.workers == s.workers && r.stops == s.stops && r.out.acks == s.out.acks
      else r == s.(delayed := s.delayed - multiset{(id, attempt)})
  {
    ReachableIsInv(s);
    if id in s.jobs && s.jobs[id].state == JobState.Retrying(attempt) {
      Known(s, id);
      hide Core;
      EventBecomes(s.(delayed := s.delayed - multiset{(id, attempt)}), id, JobState.Queued, EventKind.Queued);
    }
  }

  /**
   * A round of the dispatch loop starts the front of the queue, with an uncancelled stop token;
   * after the root was cancelled it only takes it off.
   */
  lemma StartEffect(s: State)
    requires Reachable(s) && Enabled(s, TryStart)
    ensures s.ready[0] in s.jobs && s.jobs[s.ready[0]].state.Queued?
    ensures var r := Apply(s, TryStart); var id := s.ready[0];
      if s.root then r == s.(ready := s.ready[1..])
      else
        && r.ready == s.ready[1..] && r.started == s.started + [id] && r.workers == s.workers + multiset{id}
        && Becomes(s, r, id, Some(s.jobs[id].(state := JobState.Running)), News([Started], [], [], []))
        && r.stops == s.stops - {id}
        && r.delayed == s.delayed && r.out.acks == s.out.acks
        && r.maxConcurrent == s.maxConcurrent && r.root == s.root && r.draining == s.draining && !r.panicked
  {
    ReachableIsInv(s);
    var id := s.ready[0];
    assert id in s.ready;
    Known(s, id);
    hide Core;
    if !s.root {
      EventBecomes(s, id, JobState.Running, Started);
    }
  }
}
