/**
 * The scheduler itself: an object updated in place by commands, returning workers and timers.
 * Every method is proved to do to the tables exactly what the state machine's step does to
 * their value.
 */
module SchedulerImplementation {
  import opened Types
  import opened Backoff
  import opened Jobs
  import Spec = SchedulerSpec
  import Theorems = SchedulerTheorems

  /** What one turn of the main loop waits for. */
  datatype Next =
    | Command(cmd: Spec.Command)
    | Worker(id: Id, end: WorkerEnd)
    | Retry(id: Id, attempt: nat)
    | Stop

  class Scheduler {
    var maxConcurrent: nat
    var jobs: map<Id, Job>
    var ready: seq<Id>
    var delayed: multiset<(Id, nat)>
    var workers: multiset<Id>
    var stops: set<Id>
    var root: bool
    var draining: bool
    var panicked: bool
    ghost var started: seq<Id>
    const tx: Channels

    /** Jobs are filed under their own id, so no two entries share an object. */
    ghost predicate Valid()
      reads this, jobs.Values
    {
      forall id :: id in jobs ==> jobs[id].id == id
    }

    ghost function Views(): map<Id, JobView>
      reads this`jobs, jobs.Values
    {
      map id | id in jobs :: jobs[id].View()
    }

    ghost function View(): Spec.State
      reads this, tx, jobs.Values
    {
      Spec.State(maxConcurrent, Views(), ready, delayed, workers, stops, root, draining, panicked, started, tx.out)
    }

    /** Changing one job object changes one entry of the table's value. */
    twostate lemma OneJobChanged(id: Id)
      requires old(Valid()) && jobs == old(jobs) && id in jobs && jobs[id].id == id
      requires forall i :: i in jobs && jobs[i] != jobs[id] ==> unchanged(jobs[i])
      ensures Valid() && Views() == old(Views())[id := jobs[id].View()]
    {
    }

    twostate lemma OneJobRemoved(id: Id)
      requires old(Valid()) && jobs == old(jobs) - {id} && id in old(jobs)
      requires forall i :: i in jobs && jobs[i] != old(jobs)[id] ==> unchanged(jobs[i])
      ensures Valid() && Views() == old(Views()) - {id}
      ensures jobs.Values <= old(jobs).Values
    {
    }

    lemma InTable(id: Id)
      ensures id in Views() <==> id in jobs
    {
    }

    twostate lemma ViewOf(id: Id)
      requires old(Valid()) && id in old(jobs)
      ensures id in old(Views()) && old(Views())[id] == old(jobs[id].View())
    {
    }

    constructor (maxConcurrent: nat)
      requires maxConcurrent > 0
      ensures Valid() && fresh(tx) && jobs == map[] && View() == Spec.Initial(maxConcurrent)
    {
      this.maxConcurrent := maxConcurrent;
      jobs, ready, delayed, workers, stops := map[], [], multiset{}, multiset{}, {};
      root, draining, panicked, started := false, false, false, [];
      var channels := new Channels();
      tx := channels;
    }

    method Schedule(job: Job)
      requires Valid()
      modifies this`jobs, this`ready, tx
      ensures jobs == old(jobs)[job.id := job] && Valid()
      ensures View() == Spec.Schedule(old(View()), job.View())
    {
      tx.out := tx.out.Emit(job.id, EventKind.Queued);
      jobs := jobs[job.id := job];
      ready := ready + [job.id];
      assert Views() == old(Views())[job.id := job.View()];
    }

    /** Ends a job already taken out of the table, once its partial file was cleaned up or not. */
    method FinishCancelled(job: Job, discard: Option<Error>)
      modifies job`state, tx
      ensures tx.out == old(job.View()).FinalizeOut(old(tx.out), Spec.Discarded(discard))
    {
      match discard {
        case None => job.Finalize(tx, Err(Error.Cancelled));
        case Some(e) => job.Finalize(tx, Err(e));
      }
    }

    method OnDispatch(id: Id)
      requires Valid()
      modifies this, tx, jobs.Values
      ensures Valid() && jobs == old(jobs)
      ensures View() == Spec.OnDispatch(old(View()), id)
      ensures ready == old(ready)
    {
      if id !in jobs || !jobs[id].state.Queued? {
        return;
      }
      stops := stops - {id};
      jobs[id].state := JobState.Running;
      tx.out := tx.out.Emit(id, Started);
      workers := workers + multiset{id};
      started := started + [id];
      assert Views() == old(Views())[id := jobs[id].View()];
    }

    method OnRetryElapsed(id: Id, attempt: nat)
      requires Valid()
      modifies this, tx, jobs.Values
      ensures Valid() && jobs == old(jobs)
      ensures View() == Spec.OnRetryElapsed(old(View()), id, attempt)
    {
      if id !in jobs || jobs[id].state != JobState.Retrying(attempt) {
        return;
      }
      jobs[id].state := JobState.Queued;
      ready := ready + [id];
      tx.out := tx.out.Emit(id, EventKind.Queued);
      assert Views() == old(Views())[id := jobs[id].View()];
    }

    /** Answers a request without touching any table. */
    method Reply(ack: Ack, reply: Reply)
      requires Valid()
      modifies tx
      ensures Valid() && View() == Spec.Replied(old(View()), ack, reply)
    {
      hide Views, Record.Answer;
      tx.out := tx.out.Answer(ack, reply);
      assert Views() == old(Views());
    }

    /** Notes down a request that has come in. */
    method Receive(ack: Ack, id: Id, pausing: bool)
      requires Valid()
      modifies tx
      ensures Valid() && View() == old(View()).(out := old(View()).out.Receive(ack, id, pausing))
    {
      hide Views, Record.Receive;
      tx.out := tx.out.Receive(ack, id, pausing);
      assert Views() == old(Views());
    }

    /** Notes down how a worker ended. */
    method Collect(id: Id, end: WorkerEnd)
      requires Valid()
      modifies tx
      ensures Valid() && View() == old(View()).(out := old(View()).out.Collect(id, end))
    {
      hide Views, Record.Collect;
      tx.out := tx.out.Collect(id, end);
      assert Views() == old(Views());
    }

    /** Pausing a job without a worker takes effect at once. */
    method PauseIdle(id: Id, ack: Ack)
      requires Valid() && id in jobs && !jobs[id].state.InFlight()
      modifies this`ready, tx, jobs[id]
      ensures Valid()
      ensures View() == Spec.Replied(
        Spec.Parked(
          old(View()).(ready := if old(jobs[id].state).Queued? then Spec.Without(old(ready), id) else old(ready)),
          id, old(jobs[id].View())),
        ack, Ok(()))
    {
      hide Views, Spec.Without, JobView.PauseOut;
      var job := jobs[id];
      if job.state.Queued? {
        ready := Spec.Without(ready, id);
      }
      job.Pause(tx);
      tx.out := tx.out.Answer(ack, Ok(()));
      OneJobChanged(id);
      ViewOf(id);
    }

    /** Pausing a running job asks its worker to stop and keeps the request until it has. */
    method PauseRunning(id: Id, ack: Ack)
      requires Valid() && id in jobs && jobs[id].state.Running?
      modifies this`stops, tx, jobs[id]
      ensures Valid()
      ensures View() ==
        Spec.SetState(old(View()), id, JobState.Pausing([ack]), PauseStarted).(stops := old(stops) + {id})
    {
      hide Views;
      stops := stops + {id};
      jobs[id].state := JobState.Pausing([ack]);
      tx.out := tx.out.Emit(id, PauseStarted);
      OneJobChanged(id);
      ViewOf(id);
    }

    method PauseAgain(id: Id, ack: Ack)
      requires Valid() && id in jobs && jobs[id].state.Pausing?
      modifies jobs[id]
      ensures Valid()
      ensures View() == old(View()).(jobs := old(Views())[
        id := old(jobs[id].View()).(state := JobState.Pausing(old(jobs[id].state.waiters) + [ack]))])
    {
      hide Views;
      jobs[id].state := JobState.Pausing(jobs[id].state.waiters + [ack]);
      OneJobChanged(id);
      ViewOf(id);
    }

    method OnPause(id: Id, ack: Ack)
      requires Valid()
      modifies this, tx, jobs.Values
      ensures Valid() && jobs == old(jobs)
      ensures View() == Spec.OnPause(old(View()), id, ack)
    {
      hide Views, Spec.Without, Spec.Parked, Spec.SetState, Spec.Replied, Record.Receive;
      if id in jobs {
        ViewOf(id);
      }
      InTable(id);
      Receive(ack, id, true);
      if id !in jobs {
        Reply(ack, Err(Unknown));
        return;
      }
      match jobs[id].state {
        case Queued => PauseIdle(id, ack);
        case Retrying(_) => PauseIdle(id, ack);
        case Running => PauseRunning(id, ack);
        case Pausing(_) => PauseAgain(id, ack);
        case Paused => Reply(ack, Ok(()));
        case Cancelling => Reply(ack, Err(InvalidRequest));
      }
    }

    method Requeue(id: Id)
      requires Valid() && id in jobs
      modifies this`ready, tx, jobs[id]
      ensures Valid()
      ensures View() == Spec.Requeued(old(View()), id)
    {
      hide Views;
      jobs[id].state := JobState.Queued;
      ready := ready + [id];
      tx.out := tx.out.Emit(id, EventKind.Queued);
      OneJobChanged(id);
      ViewOf(id);
    }

    method OnResume(id: Id, ack: Ack)
      requires Valid()
      modifies this, tx, jobs.Values
      ensures Valid() && jobs == old(jobs)
      ensures View() == Spec.OnResume(old(View()), id, ack)
    {
      hide Views, Spec.Requeued, Spec.Replied, Record.Receive;
      if id in jobs {
        ViewOf(id);
      }
      InTable(id);
      Receive(ack, id, false);
      if id !in jobs {
        Reply(ack, Err(Unknown));
        return;
      }
      match jobs[id].state {
        case Paused =>
          Requeue(id);
          Reply(ack, Ok(()));
        case Queued => Reply(ack, Ok(()));
        case Running => Reply(ack, Ok(()));
        case Retrying(_) => Reply(ack, Ok(()));
        case Pausing(_) => Reply(ack, Err(InvalidRequest));
        case Cancelling => Reply(ack, Err(InvalidRequest));
      }
    }

    /** Asks the worker of a running job to stop, or tells the waiters of a pausing one. */
    method CancelInFlight(id: Id)
      requires Valid() && id in jobs && (jobs[id].state.Running? || jobs[id].state.Pausing?)
      modifies this`stops, tx, jobs[id]
      ensures Valid()
      ensures View() == Spec.OnCancel(old(View()), id, None)
    {
      hide Views, Spec.Finish, Spec.Without;
      var job := jobs[id];
      if job.state.Running? {
        stops := stops + {id};
      } else {
        job.ResolvePauseWaiters(tx, Err(Error.Cancelled));
      }
      job.state := JobState.Cancelling;
      tx.out := tx.out.Emit(id, CancellationStarted);
      OneJobChanged(id);
      ViewOf(id);
    }

    /** Takes a job out of the table and ends it with the answer of the cleanup. */
    method RemoveAndCancel(id: Id, discard: Option<Error>)
      requires Valid() && id in jobs
      modifies this`jobs, tx, jobs[id]
      ensures Valid() && jobs == old(jobs) - {id} && jobs.Values <= old(jobs).Values
      ensures View() == Spec.Finish(old(View()), id, Spec.Discarded(discard))
    {
      hide Views, JobView.FinalizeOut;
      var job := jobs[id];
      jobs := jobs - {id};
      FinishCancelled(job, discard);
      OneJobRemoved(id);
      ViewOf(id);
    }

    method OnCancel(id: Id, discard: Option<Error>)
      requires Valid()
      modifies this, tx, jobs.Values
      ensures Valid() && jobs.Values <= old(jobs).Values
      ensures View() == Spec.OnCancel(old(View()), id, discard)
    {
      hide Views, Spec.Without, Spec.Finish;
      InTable(id);
      if id !in jobs {
        return;
      }
      ViewOf(id);
      match jobs[id].state {
        case Running => CancelInFlight(id);
        case Pausing(_) => CancelInFlight(id);
        case Cancelling =>
        case _ =>
          ready := Spec.Without(ready, id);
          assert View() == old(View()).(ready := Spec.Without(old(ready), id));
          RemoveAndCancel(id, discard);
          assert View() ==
            Spec.Finish(old(View()).(ready := Spec.Without(old(ready), id)), id, Spec.Discarded(discard));
      }
    }

    /** Takes a job out of the table and ends it. */
    method RemoveAndFinalize(id: Id, outcome: Outcome)
      requires Valid() && id in jobs
      modifies this`jobs, tx, jobs[id]
      ensures Valid() && jobs == old(jobs) - {id} && jobs.Values <= old(jobs).Values
      ensures View() == Spec.Finish(old(View()), id, outcome)
    {
      hide Views, JobView.FinalizeOut;
      var job := jobs[id];
      jobs := jobs - {id};
      job.Finalize(tx, outcome);
      OneJobRemoved(id);
      ViewOf(id);
    }

    /** A pausing job whose worker has stopped, after counting a failure or not. */
    method Park(id: Id, failed: bool)
      requires Valid() && id in jobs && (failed ==> jobs[id].attempt < jobs[id].request.retries)
      modifies tx, jobs[id]
      ensures Valid()
      ensures View() == Spec.Parked(old(View()), id,
        if failed then old(jobs[id].View()).(attempt := old(jobs[id].attempt) + 1) else old(jobs[id].View()))
    {
      hide Views, JobView.PauseOut;
      var job := jobs[id];
      if failed {
        job.attempt := job.attempt + 1;
      }
      job.Pause(tx);
      OneJobChanged(id);
      ViewOf(id);
    }

    /** Starts the timer of the next attempt; the thread dies if its delay cannot be computed. */
    method RetryLater(id: Id)
      requires Valid() && id in jobs && jobs[id].attempt < jobs[id].request.retries
      modifies this, tx, jobs[id]
      ensures Valid() && jobs.Values <= old(jobs).Values
      ensures id in old(View()).jobs && old(View()).jobs[id].attempt < 0xFFFF_FFFF
      ensures View() == Spec.RetryLater(old(View()), id)
    {
      hide Views, ExponentialBackoff.NextDelayMs;
      var job := jobs[id];
      InTable(id);
      ViewOf(id);
      match BACKOFF_STRATEGY.NextDelayMs(job.attempt) {
        case None =>
          jobs := jobs - {id};
          panicked := true;
          OneJobRemoved(id);
        case Some(delayMs) =>
          job.Retry(tx, delayMs);
          delayed := delayed + multiset{(id, job.attempt)};
          tx.out := tx.out.StartTimer(id, job.attempt);
          OneJobChanged(id);
      }
    }

    /** The arms for a worker that came back with an error, its job not being cancelled. */
    method OnWorkerError(id: Id, error: Error)
      requires Valid() && id in jobs && !jobs[id].state.Cancelling?
      modifies this, tx, jobs.Values
      ensures Valid() && jobs.Values <= old(jobs).Values
      ensures id in old(View()).jobs && old(View()).jobs[id] == old(jobs[id].View())
      ensures var j := old(jobs[id].View());
        if !error.IsRetryable() || j.attempt >= j.request.retries then
          View() == Spec.Finish(old(View()), id, Err(error))
        else if j.state.Pausing? then View() == Spec.Parked(old(View()), id, j.(attempt := j.attempt + 1))
        else j.attempt < 0xFFFF_FFFF && View() == Spec.RetryLater(old(View()), id)
    {
      hide Views, Spec.Finish, Spec.Parked, Spec.RetryLater;
      InTable(id);
      ViewOf(id);
      var job := jobs[id];
      if !error.IsRetryable() || job.attempt >= job.request.retries {
        RemoveAndFinalize(id, Err(error));
      } else if job.state.Pausing? {
        Park(id, true);
      } else {
        RetryLater(id);
      }
    }

    method OnWorker(id: Id, end: WorkerEnd, discard: Option<Error>)
      requires Valid()
      modifies this, tx, jobs.Values
      ensures Valid() && jobs.Values <= old(jobs).Values
      ensures View() == Spec.OnWorker(old(View()), id, end, discard)
    {
      hide Views, Spec.Finish, Spec.Parked, Spec.RetryLater, Record.Collect;
      InTable(id);
      if id !in jobs {
        return;
      }
      ViewOf(id);
      Collect(id, end);
      var st := jobs[id].state;
      if end.Ok? && end.value.Finished? {
        RemoveAndFinalize(id, Ok(end.value.result));
      } else if st.Cancelling? {
        RemoveAndCancel(id, discard);
      } else if end.Err? {
        OnWorkerError(id, end.error);
      } else if st.Pausing? {
        Park(id, false);
      } else if st.Running? {
        RemoveAndCancel(id, discard);
      } else {
        RemoveAndFinalize(id, Err(Unknown));
      }
    }

    method TransitionJob(id: Id, event: Spec.JobEvent, discard: Option<Error>)
      requires Valid()
      modifies this, tx, jobs.Values
      ensures Valid() && jobs.Values <= old(jobs).Values
      ensures View() == Spec.Transition(old(View()), id, event, discard)
    {
      hide Views, Spec.OnDispatch, Spec.OnRetryElapsed, Spec.OnPause, Spec.OnResume, Spec.OnCancel, Spec.OnWorker;
      match event {
        case Dispatch => OnDispatch(id);
        case RetryElapsed(attempt) => OnRetryElapsed(id, attempt);
        case Pause(ack) => OnPause(id, ack);
        case Resume(ack) => OnResume(id, ack);
        case Cancel => OnCancel(id, discard);
        case Worker(end) => OnWorker(id, end, discard);
      }
    }

    /** A walk over `keys` that has visited `order` and still has `ids` to go. */
    ghost predicate Walking(keys: set<Id>, ids: set<Id>, order: seq<Id>) {
      && Spec.Distinct(order) && ids <= keys
      && (forall id :: id in order ==> id in keys && id !in ids)
      && (forall id :: id in keys && id !in ids ==> id in order)
    }

    lemma WalkOn(keys: set<Id>, ids: set<Id>, order: seq<Id>, id: Id)
      requires Walking(keys, ids, order) && id in ids
      ensures Walking(keys, ids - {id}, order + [id])
      ensures (order + [id])[..|order|] == order
    {
    }

    /** Cancels every job, in whatever order the table is walked. */
    method CancelEachJob(discards: map<Id, Error>) returns (ghost order: seq<Id>)
      requires Valid()
      modifies this, tx, jobs.Values
      ensures Valid() && jobs.Values <= old(jobs).Values
      ensures Walking(old(jobs).Keys, {}, order)
      ensures View() == Spec.CancelEach(old(View()), order, discards)
    {
      hide Views, Spec.OnCancel, Walking;
      var ids := jobs.Keys;
      order := [];
      WalkStart(ids);
      while ids != {}
        invariant Valid() && jobs.Values <= old(jobs).Values
        invariant Walking(old(jobs).Keys, ids, order)
        invariant View() == Spec.CancelEach(old(View()), order, discards)
        decreases |ids|
      {
        var id :| id in ids;
        WalkOn(old(jobs).Keys, ids, order, id);
        ids := ids - {id};
        OnCancel(id, Spec.DiscardOf(discards, id));
        order := order + [id];
      }
    }

    /** Cancels every job and empties both waiting lists. */
    method CancelAll(discards: map<Id, Error>) returns (ghost order: seq<Id>)
      requires Valid()
      modifies this, tx, jobs.Values
      ensures Valid() && jobs.Values <= old(jobs).Values
      ensures Spec.Walks(order, old(Views()))
      ensures View() == Spec.OnCancelAll(old(View()), order, discards)
    {
      hide Views, Spec.CancelEach, Walking;
      order := CancelEachJob(discards);
      WalkDone(old(jobs).Keys, order);
      ready := [];
      delayed := multiset{};
      TableKeys();
    }

    lemma WalkStart(keys: set<Id>)
      ensures Walking(keys, keys, [])
    {
    }

    lemma WalkDone(keys: set<Id>, order: seq<Id>)
      requires Walking(keys, {}, order)
      ensures Spec.Distinct(order) && (forall id :: id in order <==> id in keys)
    {
    }

    twostate lemma TableKeys()
      ensures old(Views()).Keys == old(jobs).Keys
    {
    }

    method HandleCmd(cmd: Spec.Command, discards: map<Id, Error>) returns (ghost order: seq<Id>)
      requires Valid()
      modifies this, tx, jobs.Values
      ensures Valid() && fresh(jobs.Values - old(jobs.Values))
      ensures cmd.CancelAll? ==> Spec.Walks(order, old(Views()))
      ensures View() == Spec.HandleCmd(old(View()), cmd, order, discards)
    {
      hide Views, Spec.OnDispatch, Spec.OnRetryElapsed, Spec.OnPause, Spec.OnResume;
      hide Spec.OnCancel, Spec.OnWorker, Spec.OnCancelAll, Spec.Schedule;
      order := [];
      match cmd {
        case Enqueue(id, request) =>
          tx.out := tx.out.Admit(id, request);
          var job := new Job(id, request);
          Schedule(job);
        case PauseJob(id, ack) => TransitionJob(id, Spec.JobEvent.Pause(ack), None);
        case ResumeJob(id, ack) => TransitionJob(id, Spec.JobEvent.Resume(ack), None);
        case CancelJob(id) => TransitionJob(id, Spec.JobEvent.Cancel, Spec.DiscardOf(discards, id));
        case CancelAll => order := CancelAll(discards);
        case SetMaxConcurrent(limit) => maxConcurrent := limit;
      }
    }

    /** The root token may be cancelled by another thread at any moment; it never recovers. */
    method ObserveRoot()
      modifies this`root
      ensures old(root) ==> root
    {
      var cancelled: bool := *;
      root := root || cancelled;
    }

    /** Takes the front id off the queue and, unless the root token is cancelled, starts it. */
    method StartFront()
      requires Valid() && ready != []
      modifies this, tx, jobs.Values
      ensures Valid() && jobs == old(jobs)
      ensures ready == old(ready)[1..]
      ensures View() == Spec.DispatchFront(old(View()))
    {
      hide Views, Spec.OnDispatch;
      var id := ready[0];
      ready := ready[1..];
      if root {
        return;
      }
      OnDispatch(id);
    }

    /**
     * Starts waiting jobs while there are free places. The steps taken are steps of the state
     * machine; if the root token was left alone they are the whole dispatch loop.
     */
    method TryDispatch() returns (ghost acts: seq<Spec.Action>)
      requires Valid() && !panicked && !draining
      modifies this, tx, jobs.Values
      ensures Valid() && jobs == old(jobs) && !panicked && !draining
      ensures Spec.Legal(old(View()), acts) && View() == Spec.Exec(old(View()), acts)
      ensures !root ==> View() == Spec.TryDispatch(old(View()))
      ensures root || ready == [] || |workers| >= maxConcurrent
    {
      hide Views, Spec.Legal, Spec.Exec, Spec.Enabled, Spec.Apply, Spec.DispatchFront;
      acts := [];
      NoSteps(View());
      while |workers| < maxConcurrent && ready != []
        invariant Valid() && jobs == old(jobs) && !panicked && !draining
        invariant Spec.Legal(old(View()), acts) && View() == Spec.Exec(old(View()), acts)
        invariant !root ==> Spec.TryDispatch(View()) == Spec.TryDispatch(old(View()))
        decreases |ready|
      {
        ghost var before := View();
        ObserveRoot();
        if root {
          RootStep(before);
          Spec.ExecAppend(old(View()), acts, Spec.RootCancelled);
          acts := acts + [Spec.RootCancelled];
        }
        StartStep(View());
        Spec.ExecAppend(old(View()), acts, Spec.TryStart);
        acts := acts + [Spec.TryStart];
        StartFront();
        if root {
          return;
        }
      }
    }

    static lemma NoSteps(s: Spec.State)
      ensures Spec.Legal(s, []) && Spec.Exec(s, []) == s
    {
    }

    static lemma RootStep(s: Spec.State)
      requires !s.panicked
      ensures Spec.Enabled(s, Spec.RootCancelled) && Spec.Apply(s, Spec.RootCancelled) == s.(root := true)
    {
    }

    static lemma StartStep(s: Spec.State)
      requires !s.panicked && !s.draining && |s.workers| < s.maxConcurrent && s.ready != []
      ensures Spec.Enabled(s, Spec.TryStart) && Spec.Apply(s, Spec.TryStart) == Spec.DispatchFront(s)
      ensures !Spec.DispatchFront(s).panicked && !Spec.DispatchFront(s).draining
      ensures Spec.DispatchFront(s).root == s.root
      ensures !s.root ==> Spec.TryDispatch(s) == Spec.TryDispatch(Spec.DispatchFront(s))
    {
    }

    /** What the main loop can be woken by: fresh commands, workers that are out, timers that run. */
    predicate Possible(next: Next)
      reads this, tx
    {
      match next
      case Command(cmd) =>
        (match cmd
         case Enqueue(id, _) => id !in tx.out.downloads
         case PauseJob(_, ack) => ack !in tx.out.acks
         case ResumeJob(_, ack) => ack !in tx.out.acks
         case CancelJob(_) => true
         case CancelAll => true
         case SetMaxConcurrent(limit) => limit > 0)
      case Worker(id, _) => id in workers
      case Retry(id, attempt) => (id, attempt) in delayed
      case Stop => true
    }

    /** Waits for the next thing to happen; which one it is, is up to the environment. */
    method Select() returns (next: Next)
      ensures Possible(next)
    {
      next := *;
      if !Possible(next) {
        next := Stop;
      }
    }

    /** The step for the event itself, before any waiting job is started. */
    method React(next: Next) returns (ghost a: Spec.Action)
      requires Valid() && !panicked && !draining && !next.Stop? && Possible(next)
      modifies this, tx, jobs.Values
      ensures Valid() && fresh(jobs.Values - old(jobs.Values))
      ensures Spec.Enabled(old(View()), a) && View() == Spec.Apply(old(View()), a)
      ensures !draining
    {
      hide Views, Spec.Transition, Spec.HandleCmd;
      ghost var before := View();
      var discards: map<Id, Error> := *;
      var discard: Option<Error> := *;
      match next {
        case Command(cmd) =>
          ghost var order := HandleCmd(cmd, discards);
          a := Spec.Action.Command(cmd, order, discards);
          TableKeys();
        case Worker(id, end) =>
          workers := workers - multiset{id};
          a := Spec.WorkerDone(id, end, discard);
          TransitionJob(id, Spec.JobEvent.Worker(end), discard);
        case Retry(id, attempt) =>
          delayed := delayed - multiset{(id, attempt)};
          a := Spec.TimerFired(id, attempt);
          TransitionJob(id, Spec.RetryElapsed(attempt), None);
      }
      KeepsRunning(before, a);
    }

    static lemma KeepsRunning(s: Spec.State, a: Spec.Action)
      requires Spec.Enabled(s, a) && !s.draining && !a.Shutdown?
      ensures !Spec.Apply(s, a).draining
    {
      if a.Command? && a.cmd.CancelAll? {
        NeverDrains(s, a.order, a.discards);
      }
    }

    static lemma {:induction false} NeverDrains(s: Spec.State, order: seq<Id>, discards: map<Id, Error>)
      ensures Spec.CancelEach(s, order, discards).draining == s.draining
      ensures Spec.CancelEach(s, order, discards).panicked == s.panicked
    {
      if order != [] {
        NeverDrains(s, order[..|order| - 1], discards);
      }
    }

    /** One turn of the main loop: the event, then every start it makes room for. */
    method Turn(next: Next) returns (ghost acts: seq<Spec.Action>)
      requires Valid() && !panicked && !draining && !next.Stop? && Possible(next)
      modifies this, tx, jobs.Values
      ensures Valid() && fresh(jobs.Values - old(jobs.Values)) && !draining
      ensures Spec.Legal(old(View()), acts) && View() == Spec.Exec(old(View()), acts)
      ensures panicked || root || ready == [] || |workers| >= maxConcurrent
    {
      hide Views, Spec.Enabled, Spec.Apply, Spec.TryDispatch, Spec.Legal, Spec.Exec;
      ghost var a := React(next);
      acts := [a];
      OneStep(old(View()), a);
      if !panicked {
        ghost var more := TryDispatch();
        Spec.ExecConcat(old(View()), [a], more);
        acts := acts + more;
      }
    }

    static lemma OneStep(s: Spec.State, a: Spec.Action)
      requires Spec.Enabled(s, a)
      ensures Spec.Legal(s, [a]) && Spec.Exec(s, [a]) == Spec.Apply(s, a)
    {
      assert [a][1..] == [];
    }

    /** Waits for the workers that are still out, one by one, until none is left. */
    method Drain()
      requires Valid() && draining && !panicked && Theorems.Reachable(View())
      modifies this, tx, jobs.Values
      ensures Valid() && draining && !panicked && Theorems.Reachable(View())
      ensures workers == multiset{}
    {
      hide Views, Spec.Transition, Theorems.Reachable, Spec.Enabled, Spec.Apply;
      while workers != multiset{}
        invariant Valid() && draining && !panicked && Theorems.Reachable(View())
        invariant jobs.Values <= old(jobs).Values
        decreases |workers|
      {
        var id :| id in workers;
        var end: WorkerEnd := *;
        var discard: Option<Error> := *;
        ghost var before := View();
        ghost var a := Spec.WorkerDone(id, end, discard);
        ReturnStep(before, id, end, discard);
        Theorems.DrainShrinks(before, a);
        Theorems.ReachableNext(before, a);
        workers := workers - multiset{id};
        TransitionJob(id, Spec.JobEvent.Worker(end), discard);
        assert View() == Spec.Apply(before, a);
      }
    }

    static lemma ReturnStep(s: Spec.State, id: Id, end: WorkerEnd, discard: Option<Error>)
      requires !s.panicked && id in s.workers
      ensures var a := Spec.WorkerDone(id, end, discard);
        && Spec.Enabled(s, a)
        && Spec.Apply(s, a) ==
             Spec.Transition(s.(workers := s.workers - multiset{id}), id, Spec.JobEvent.Worker(end), discard)
    {
    }

    /** Leaves the main loop: no more commands, and every job is cancelled. */
    method BeginShutdown()
      requires Valid() && !draining && !panicked && Theorems.Reachable(View())
      modifies this, tx, jobs.Values
      ensures Valid() && draining && !panicked && Theorems.Reachable(View())
      ensures jobs.Values <= old(jobs).Values
    {
      hide Views, Spec.OnCancelAll, Theorems.Reachable, Spec.Walks;
      var discards: map<Id, Error> := *;
      ghost var order := CancelAll(discards);
      draining := true;
      ghost var a := Spec.Shutdown(order, discards);
      assert View() == Spec.Apply(old(View()), a);
      Theorems.ReachableNext(old(View()), a);
      DrainsAlive(old(View()), order, discards);
    }

    static lemma DrainsAlive(s: Spec.State, order: seq<Id>, discards: map<Id, Error>)
      ensures Spec.OnCancelAll(s, order, discards).panicked == s.panicked
    {
      NeverDrains(s, order, discards);
    }

    /**
     * The scheduler's whole life, with any finite number of turns of the main loop. Unless the
     * thread dies in between, it ends with no job left, every download it was given has
     * exactly one result and every request it received exactly one answer.
     */
    method Run()
      requires Valid() && !draining && !panicked && Theorems.Reachable(View())
      modifies this, tx, jobs.Values
      ensures Valid() && Theorems.Reachable(View())
      ensures panicked ==> exists id :: id in tx.out.downloads && tx.out.downloads[id].request.retries > 64
      ensures !panicked ==> jobs == map[] && workers == multiset{} && ready == [] && delayed == multiset{}
      ensures !panicked ==> forall id :: id in tx.out.downloads ==> |tx.out.downloads[id].results| == 1
      ensures !panicked ==> forall ack :: ack in tx.out.acks ==> |tx.out.acks[ack].replies| == 1
    {
      hide Views, Theorems.Reachable;
      var turns: nat := *;
      while turns > 0
        invariant Valid() && !draining && !panicked && Theorems.Reachable(View())
        invariant fresh(jobs.Values - old(jobs.Values))
      {
        var next := Select();
        if next.Stop? {
          break;
        }
        ghost var before := View();
        ghost var acts := Turn(next);
        Theorems.ReachableOn(before, acts);
        if panicked {
          PanickedView(View());
          return;
        }
        turns := turns - 1;
      }
      BeginShutdown();
      Drain();
      Theorems.NothingIsLost(View());
      TableIsEmpty();
    }

    static lemma PanickedView(s: Spec.State)
      requires Theorems.Reachable(s) && s.panicked
      ensures exists id :: id in s.out.downloads && s.out.downloads[id].request.retries > 64
    {
      Theorems.ReachableIsInv(s);
    }

    lemma TableIsEmpty()
      ensures Views() == map[] ==> jobs == map[]
    {
      assert Views().Keys == jobs.Keys;
    }
  }

  /** How a manager uses a scheduler: a new one, run to its end. */
  method Serve(maxConcurrent: nat) returns (scheduler: Scheduler)
    requires maxConcurrent > 0
    ensures scheduler.Valid() && Theorems.Reachable(scheduler.View())
    ensures scheduler.panicked ==>
      exists id :: id in scheduler.tx.out.downloads && scheduler.tx.out.downloads[id].request.retries > 64
    ensures !scheduler.panicked ==>
      && scheduler.jobs == map[] && scheduler.workers == multiset{}
      && scheduler.ready == [] && scheduler.delayed == multiset{}
    ensures !scheduler.panicked ==>
      forall id :: id in scheduler.tx.out.downloads ==> |scheduler.tx.out.downloads[id].results| == 1
    ensures !scheduler.panicked ==>
      forall ack :: ack in scheduler.tx.out.acks ==> |scheduler.tx.out.acks[ack].replies| == 1
  {
    hide Theorems.Reachable;
    scheduler := new Scheduler(maxConcurrent);
    Theorems.InitialIsReachable(maxConcurrent);
    scheduler.Run();
  }
}
