/**
 * Scheduler and transfers together: one world for each destination, its steps taken by the one
 * worker the scheduler has out for it, its files cleaned up when the scheduler cancels.
 */
module Composition {
  import opened Types
  import opened Jobs
  import S = SchedulerSpec
  import SInv = SchedulerInvariant
  import STheorems = SchedulerTheorems
  import Changes = SchedulerChanges
  import Effects = SchedulerEffects
  import Cancels = SchedulerCancels
  import Returns = SchedulerReturns
  import T = TransferSpec
  import Accounting = TransferAccounting
  import TInv = TransferInvariant

  datatype System = System(s: S.State, worlds: map<Destination, T.World>)

  datatype Step =
    | Schedule(a: S.Action, halfway: set<Destination>)  // failed cleanups that still removed the partial file
    | Work(id: Id, step: T.Action)
    | Elapse(d: Destination)
    | Crash(maxConcurrent: nat, halfway: set<Destination>, cleaned: set<Destination>)

  function DestOf(s: S.State, id: Id): Destination
    requires id in s.jobs
  {
    s.jobs[id].request.destination
  }

  /** This scheduler step runs the cleanup of `id`'s partial file. */
  predicate Cleans(s: S.State, a: S.Action, id: Id)
    requires S.Enabled(s, a)
  {
    id in s.jobs &&
    match a
    case Command(_, _, _) => id !in S.Apply(s, a).jobs
    case Shutdown(_, _) => id !in S.Apply(s, a).jobs
    case WorkerDone(other, end, _) =>
      other == id && (var arm := S.ArmFor(s.jobs[id].state, end); arm.CancelsNow? || arm.StoppedByRoot?)
    case _ => false
  }

  function CleanupOf(a: S.Action, id: Id): Option<Error> {
    match a
    case Command(_, _, discards) => S.DiscardOf(discards, id)
    case Shutdown(_, discards) => S.DiscardOf(discards, id)
    case WorkerDone(_, _, discard) => discard
    case _ => None
  }

  /** Cleanups fail with input/output errors only. */
  predicate CleanupsFailWithIo(a: S.Action) {
    match a
    case Command(_, _, discards) => forall id | id in discards :: discards[id].Io?
    case Shutdown(_, discards) => forall id | id in discards :: discards[id].Io?
    case WorkerDone(_, _, discard) => discard.Some? ==> discard.value.Io?
    case _ => true
  }

  function Returned(s: S.State, a: S.Action, w: T.World, d: Destination): T.World {
    if a.WorkerDone? && a.id in s.jobs && DestOf(s, a.id) == d then w.(phase := T.Idle) else w
  }

  ghost function AfterSchedule(sys: System, a: S.Action, halfway: set<Destination>, d: Destination): T.World
    requires S.Enabled(sys.s, a) && d in sys.worlds
  {
    var w := Returned(sys.s, a, sys.worlds[d], d);
    if exists id :: Cleans(sys.s, a, id) && DestOf(sys.s, id) == d then
      var id :| Cleans(sys.s, a, id) && DestOf(sys.s, id) == d;
      T.Cleaned(w, CleanupOf(a, id), d in halfway)
    else w
  }

  /** A crash may come anywhere in a cleanup, and in one of many destinations. */
  function AfterCrash(w: T.World, partGone: bool, bothGone: bool): T.World {
    T.Cleaned(w.(phase := T.Idle), if bothGone then None else Some(Io), partGone)
  }

  /** A worker's own steps. */
  predicate ByWorker(a: T.Action) {
    !(a.Deliver? || a.DiscardPart? || a.DiscardManifest? || a.Advance? || a.Crash?)
  }

  /** One url for each destination, and one live job. */
  ghost predicate Admissible(sys: System, a: S.Action) {
    a.Command? && a.cmd.Enqueue? ==>
      && a.cmd.request.destination in sys.worlds
      && sys.worlds[a.cmd.request.destination].url == a.cmd.request.url
      && forall id :: id in sys.s.jobs ==> DestOf(sys.s, id) != a.cmd.request.destination
  }

  ghost predicate Enabled(sys: System, step: Step) {
    match step
    case Schedule(a, _) =>
      && S.Enabled(sys.s, a) && CleanupsFailWithIo(a)
      && Admissible(sys, a)
      && (a.WorkerDone? ==>
            && a.id in sys.s.jobs && DestOf(sys.s, a.id) in sys.worlds
            && sys.worlds[DestOf(sys.s, a.id)].phase == T.Done(a.end))
    case Work(id, a) =>
      && !sys.s.panicked && id in sys.s.workers && id in sys.s.jobs && DestOf(sys.s, id) in sys.worlds
      && T.Enabled(sys.worlds[DestOf(sys.s, id)], a) && ByWorker(a)
      && (a.Begin? ==> a.overwrite == sys.s.jobs[id].request.overwrite)
      && (a.StopSeen? ==> id in sys.s.stops || sys.s.root)
    case Elapse(d) => d in sys.worlds && T.Enabled(sys.worlds[d], T.Advance)
    case Crash(_, _, _) => true
  }

  ghost function Apply(sys: System, step: Step): System
    requires Enabled(sys, step)
  {
    match step
    case Schedule(a, halfway) =>
      System(S.Apply(sys.s, a), map d | d in sys.worlds :: AfterSchedule(sys, a, halfway, d))
    case Work(id, a) =>
      var d := DestOf(sys.s, id);
      sys.(worlds := sys.worlds[d := T.Apply(sys.worlds[d], a)])
    case Elapse(d) => sys.(worlds := sys.worlds[d := T.Apply(sys.worlds[d], T.Advance)])
    case Crash(maxConcurrent, halfway, cleaned) =>
      System(S.Initial(maxConcurrent),
        map d | d in sys.worlds :: AfterCrash(sys.worlds[d], d in halfway, d in cleaned))
  }

  // ----- the invariant

  /** A worker on its way to report that it stopped. */
  predicate Stopping(p: T.Phase) {
    || p == T.Done(Ok(Stopped))
    || (p.Streaming? && (p.at == T.Syncing(T.OnStop) || p.at == T.Saving(T.OnStop)))
  }

  /** Offsets, lengths and records agree with the disk, whatever the server is like. */
  ghost predicate WorldOk(sys: System, d: Destination)
    requires d in sys.worlds
  {
    Accounting.Consistent(sys.worlds[d]) && sys.worlds[d].path == d
  }

  ghost predicate JobsOk(sys: System) {
    && (forall id :: id in sys.s.jobs ==>
          DestOf(sys.s, id) in sys.worlds && sys.worlds[DestOf(sys.s, id)].url == sys.s.jobs[id].request.url)
    && (forall i, j :: i in sys.s.jobs && j in sys.s.jobs && i != j ==> DestOf(sys.s, i) != DestOf(sys.s, j))
  }

  ghost predicate HasWriter(sys: System, d: Destination) {
    exists id :: id in sys.s.jobs && id in sys.s.workers && DestOf(sys.s, id) == d
  }

  /** Files are only being written to where a worker is out. */
  ghost predicate WritersOk(sys: System) {
    forall d :: d in sys.worlds && !sys.worlds[d].phase.Idle? ==> HasWriter(sys, d)
  }

  ghost predicate StopsOk(sys: System) {
    forall id ::
      && id in sys.s.jobs && id in sys.s.workers
      && DestOf(sys.s, id) in sys.worlds && Stopping(sys.worlds[DestOf(sys.s, id)].phase)
      ==> id in sys.s.stops || sys.s.root
  }

  /** A worker on its way to publish, whose destination is still what it found. */
  predicate Fetching(p: T.Phase) {
    p.Asking? || p.Opening? || (p.Streaming? && !p.at.FinalRemove?)
  }

  /** A worker that got past an existing destination was allowed to overwrite it. */
  ghost predicate OverwriteOk(sys: System) {
    forall id ::
      && id in sys.s.jobs && id in sys.s.workers && DestOf(sys.s, id) in sys.worlds
      && Fetching(sys.worlds[DestOf(sys.s, id)].phase) && sys.worlds[DestOf(sys.s, id)].disk.dest.Some?
      ==> sys.s.jobs[id].request.overwrite
  }

  ghost predicate Inv(sys: System) {
    && STheorems.Reachable(sys.s)
    && (forall d :: d in sys.worlds ==> WorldOk(sys, d))
    && (!sys.s.panicked ==> JobsOk(sys) && WritersOk(sys) && StopsOk(sys) && OverwriteOk(sys))
  }

  /** Between two jobs a destination is at rest. */
  lemma NoWriterNoPhase(sys: System, id: Id)
    requires JobsOk(sys) && WritersOk(sys) && id in sys.s.jobs && id !in sys.s.workers
    ensures DestOf(sys.s, id) in sys.worlds && sys.worlds[DestOf(sys.s, id)].phase.Idle?
  {
  }

  // ----- how the scheduler's steps move its tables

  ghost predicate KeepsWorkers(s: S.State, r: S.State, gone: set<Id>) {
    && (forall id :: id in s.workers && id !in gone ==>
          id in r.workers && id in r.jobs && (id in s.stops ==> id in r.stops))
    && (s.root ==> r.root)
  }

  ghost predicate KeepsRequests(s: S.State, r: S.State, admitted: map<Id, Request>) {
    forall id :: id in r.jobs ==>
      if id in s.jobs then r.jobs[id].request == s.jobs[id].request
      else id in admitted && r.jobs[id].request == admitted[id]
  }

  ghost predicate StartsOnlyQueued(s: S.State, r: S.State) {
    forall id :: id in r.workers && id !in s.workers ==> id in s.jobs && s.jobs[id].state.Queued?
  }

  ghost predicate Frame(s: S.State, r: S.State, gone: set<Id>, admitted: map<Id, Request>) {
    KeepsWorkers(s, r, gone) && KeepsRequests(s, r, admitted) && StartsOnlyQueued(s, r)
  }

  function GoneIn(a: S.Action): set<Id> {
    if a.WorkerDone? then {a.id} else {}
  }

  function AdmittedIn(a: S.Action): map<Id, Request> {
    if a.Command? && a.cmd.Enqueue? then map[a.cmd.id := a.cmd.request] else map[]
  }

  predicate WorkersHaveJobs(s: S.State) {
    forall id :: id in s.workers ==> id in s.jobs && s.jobs[id].state.InFlight()
  }

  lemma SameFrame(s: S.State, r: S.State)
    requires WorkersHaveJobs(s) && r.jobs == s.jobs && r.workers == s.workers && r.stops == s.stops
    requires s.root ==> r.root
    ensures Frame(s, r, {}, map[])
  {
  }

  /** A change of one job that keeps its request and its worker. */
  lemma ChangeFrame(s: S.State, r: S.State, id: Id, j: JobView, news: Changes.News)
    requires WorkersHaveJobs(s) && Changes.Becomes(s, r, id, Some(j), news) && j.request == s.jobs[id].request
    requires r.workers == s.workers && s.stops <= r.stops && r.root == s.root
    ensures Frame(s, r, {}, map[])
  {
  }

  lemma CancelFrame(s: S.State, r: S.State, id: Id, discard: Option<Error>)
    requires WorkersHaveJobs(s) && id in s.jobs && id in s.out.downloads
    requires SInv.OnlyAt(s, r, id) && Cancels.CancelledEntry(s, r, id, discard)
    requires r.workers == s.workers && r.root == s.root
    ensures Frame(s, r, {}, map[])
  {
    hide Changes.Heard;
    forall i: Id | i != id
      ensures (i in s.jobs <==> i in r.jobs) && (i in s.jobs ==> s.jobs[i] == r.jobs[i])
      ensures i in s.stops <==> i in r.stops
    {
      assert SInv.SameAt(s, r, i);
    }
  }

  lemma AllCancelledFrame(s: S.State, r: S.State, discards: map<Id, Error>)
    requires WorkersHaveJobs(s) && Cancels.AllCancelled(s, r, discards)
    ensures Frame(s, r, {}, map[])
  {
    hide Changes.Heard;
    forall id | id in s.jobs
      ensures id in s.out.downloads
      ensures Cancels.CancelledEntry(s, r, id, if id in discards then Some(discards[id]) else None)
    {
    }
  }

  lemma PauseFrame(s: S.State, id: Id, ack: Ack)
    requires STheorems.Reachable(s) && WorkersHaveJobs(s)
    requires S.Enabled(s, S.Action.Command(S.PauseJob(id, ack), [], map[]))
    ensures Frame(s, S.OnPause(s, id, ack), {}, map[])
  {
    hide STheorems.Reachable, Changes.Becomes, Frame, S.OnPause, WorkersHaveJobs;
    Effects.PauseEffect(s, id, ack);
    var r := S.OnPause(s, id, ack);
    if id in s.jobs {
      var j := s.jobs[id];
      match j.state
      case Paused => SameFrame(s, r);
      case Cancelling => SameFrame(s, r);
      case Running =>
        ChangeFrame(s, r, id, j.(state := JobState.Pausing([ack])), Changes.News([PauseStarted], [], [], []));
      case Pausing(waiters) =>
        ChangeFrame(s, r, id, j.(state := JobState.Pausing(waiters + [ack])), Changes.News([], [], [], []));
      case _ =>
        ChangeFrame(s, r, id, j.(state := JobState.Paused), Changes.News([EventKind.Paused], [], [], []));
    } else {
      SameFrame(s, r);
    }
  }

  lemma ResumeFrame(s: S.State, id: Id, ack: Ack)
    requires STheorems.Reachable(s) && WorkersHaveJobs(s)
    requires S.Enabled(s, S.Action.Command(S.ResumeJob(id, ack), [], map[]))
    ensures Frame(s, S.OnResume(s, id, ack), {}, map[])
  {
    hide STheorems.Reachable, Changes.Becomes, Frame, S.OnResume, WorkersHaveJobs;
    Effects.ResumeEffect(s, id, ack);
    var r := S.OnResume(s, id, ack);
    if id in s.jobs && s.jobs[id].state.Paused? {
      var news := Changes.News([EventKind.Queued], [], [], []);
      ChangeFrame(s, r, id, s.jobs[id].(state := JobState.Queued), news);
    } else {
      SameFrame(s, r);
    }
  }

  lemma CommandFrame(s: S.State, cmd: S.Command, order: seq<Id>, discards: map<Id, Error>)
    requires STheorems.Reachable(s) && WorkersHaveJobs(s) && S.Enabled(s, S.Action.Command(cmd, order, discards))
    ensures Frame(s, S.HandleCmd(s, cmd, order, discards), {}, AdmittedIn(S.Action.Command(cmd, order, discards)))
  {
    hide STheorems.Reachable, WorkersHaveJobs, Frame, S.OnPause, S.OnResume, S.OnCancel, S.CancelEach;
    hide SInv.OnlyAt, Cancels.CancelledEntry, Cancels.AllCancelled, Cancels.NoneConfirmed;
    match cmd
    case PauseJob(id, ack) => PauseFrame(s, id, ack);
    case ResumeJob(id, ack) => ResumeFrame(s, id, ack);
    case CancelJob(id) =>
      Cancels.CancelEffect(s, id, discards);
      var r := S.OnCancel(s, id, S.DiscardOf(discards, id));
      if id in s.jobs {
        CancelFrame(s, r, id, S.DiscardOf(discards, id));
      } else {
        SameFrame(s, r);
      }
    case CancelAll =>
      Cancels.CancelAllEffect(s, order, discards);
      AllCancelledFrame(s, S.OnCancelAll(s, order, discards), discards);
    case Enqueue(id, request) => EnqueueFrame(s, id, request);
    case SetMaxConcurrent(limit) => SameFrame(s, s.(maxConcurrent := limit));
  }

  lemma EnqueueFrame(s: S.State, id: Id, request: Request)
    requires STheorems.Reachable(s) && WorkersHaveJobs(s)
    requires S.Enabled(s, S.Action.Command(S.Enqueue(id, request), [], map[]))
    ensures Frame(s, S.HandleCmd(s, S.Enqueue(id, request), [], map[]), {}, map[id := request])
  {
    hide STheorems.Reachable, S.HandleCmd;
    Effects.EnqueueEffect(s, id, request);
  }

  lemma ReturnFrame(s: S.State, id: Id, end: WorkerEnd, discard: Option<Error>)
    requires STheorems.Reachable(s) && WorkersHaveJobs(s) && S.Enabled(s, S.WorkerDone(id, end, discard))
    ensures Frame(s, S.Apply(s, S.WorkerDone(id, end, discard)), {id}, map[])
  {
    hide STheorems.Reachable, S.Apply;
    Returns.ReturnEffect(s, id, end, discard);
  }

  lemma TimerFrame(s: S.State, id: Id, attempt: nat)
    requires STheorems.Reachable(s) && WorkersHaveJobs(s) && S.Enabled(s, S.TimerFired(id, attempt))
    ensures Frame(s, S.Apply(s, S.TimerFired(id, attempt)), {}, map[])
  {
    hide STheorems.Reachable, S.Apply;
    Effects.TimerEffect(s, id, attempt);
  }

  lemma StartFrame(s: S.State)
    requires STheorems.Reachable(s) && WorkersHaveJobs(s) && S.Enabled(s, S.TryStart)
    ensures Frame(s, S.Apply(s, S.TryStart), {}, map[])
  {
    hide STheorems.Reachable, S.Apply;
    Effects.StartEffect(s);
  }

  lemma StepFrame(s: S.State, a: S.Action)
    requires STheorems.Reachable(s) && S.Enabled(s, a)
    ensures WorkersHaveJobs(s) && Frame(s, S.Apply(s, a), GoneIn(a), AdmittedIn(a))
  {
    hide STheorems.Reachable, S.HandleCmd, S.OnWorker, S.OnRetryElapsed, S.DispatchFront, S.CancelEach;
    hide Cancels.CancelledEntry;
    STheorems.Placement(s);
    match a
    case RootCancelled => SameFrame(s, S.Apply(s, a));
    case Command(cmd, order, discards) => CommandFrame(s, cmd, order, discards);
    case WorkerDone(id, end, discard) => ReturnFrame(s, id, end, discard);
    case TimerFired(id, attempt) => TimerFrame(s, id, attempt);
    case TryStart => StartFrame(s);
    case Shutdown(order, discards) =>
      Cancels.ShutdownEffect(s, order, discards);
      AllCancelledFrame(s, S.Apply(s, a), discards);
  }

  // ----- every step keeps the invariant

  /** Only the stop signal sets a worker on its way to report that it stopped. */
  lemma StoppingStarts(w: T.World, a: T.Action)
    requires T.Enabled(w, a) && ByWorker(a) && Stopping(T.Apply(w, a).phase)
    ensures a.StopSeen? || Stopping(w.phase)
  {
  }

  /** A worker only gets under way where there is no destination or it may overwrite it. */
  lemma FetchingStarts(w: T.World, a: T.Action)
    requires T.Enabled(w, a) && ByWorker(a) && Fetching(T.Apply(w, a).phase) && T.Apply(w, a).disk.dest.Some?
    ensures w.disk.dest.Some? && (a == T.Begin(true) || Fetching(w.phase))
  {
  }

  lemma WorldMoves(w: T.World, a: T.Action)
    requires T.Enabled(w, a)
    ensures T.Leads(w, T.Apply(w, a))
  {
    T.LeadsNowhere(w);
    T.LeadsOn(w, w, a);
  }

  /** Whatever legal steps lead to is in order if their start was. */
  lemma WorldStaysOk(w: T.World, r: T.World)
    requires Accounting.Consistent(w) && T.Leads(w, r)
    ensures Accounting.Consistent(r) && r.path == w.path && r.url == w.url
  {
    Accounting.LeadsCounts(w, r);
    Accounting.LeadsMovesOn(w, r);
  }

  lemma WorkKeeps(sys: System, id: Id, a: T.Action)
    requires Inv(sys) && Enabled(sys, Work(id, a))
    ensures Inv(Apply(sys, Work(id, a)))
  {
    hide STheorems.Reachable, Accounting.Consistent, T.Enabled, T.Apply, T.Leads, Stopping, Fetching;
    var d := DestOf(sys.s, id);
    var w := sys.worlds[d];
    var r := Apply(sys, Work(id, a));
    assert WorldOk(sys, d);
    WorldMoves(w, a);
    WorldStaysOk(w, T.Apply(w, a));
    forall e | e in r.worlds
      ensures WorldOk(r, e)
    {
      assert WorldOk(sys, e);
    }
    forall e | e in r.worlds && !r.worlds[e].phase.Idle?
      ensures HasWriter(r, e)
    {
      if e != d {
        assert HasWriter(sys, e);
      }
    }
    if Stopping(r.worlds[d].phase) {
      StoppingStarts(w, a);
    }
    if Fetching(r.worlds[d].phase) && r.worlds[d].disk.dest.Some? {
      FetchingStarts(w, a);
    }
  }

  lemma ElapseKeeps(sys: System, d: Destination)
    requires Inv(sys) && Enabled(sys, Elapse(d))
    ensures Inv(Apply(sys, Elapse(d)))
  {
    hide STheorems.Reachable, Accounting.Consistent, T.Leads;
    var r := Apply(sys, Elapse(d));
    assert WorldOk(sys, d);
    WorldMoves(sys.worlds[d], T.Advance);
    WorldStaysOk(sys.worlds[d], r.worlds[d]);
    assert r.worlds[d].phase == sys.worlds[d].phase;
    forall e | e in r.worlds
      ensures WorldOk(r, e)
    {
      assert WorldOk(sys, e);
    }
    forall e | !sys.s.panicked && e in r.worlds && !r.worlds[e].phase.Idle?
      ensures HasWriter(r, e)
    {
      assert HasWriter(sys, e);
    }
  }

  lemma CrashedWorld(w: T.World, partGone: bool, bothGone: bool)
    ensures T.Leads(w, AfterCrash(w, partGone, bothGone))
  {
    hide T.Leads;
    WorldMoves(w, T.Crash);
    var crashed := T.Apply(w, T.Crash);
    CleanedWorld(crashed, if bothGone then None else Some(Io), partGone);
    T.LeadsFurther(w, crashed, AfterCrash(w, partGone, bothGone));
  }

  lemma CrashKeeps(sys: System, maxConcurrent: nat, halfway: set<Destination>, cleaned: set<Destination>)
    requires Inv(sys)
    ensures Inv(Apply(sys, Crash(maxConcurrent, halfway, cleaned)))
  {
    hide STheorems.Reachable, Accounting.Consistent, T.Leads;
    var r := Apply(sys, Crash(maxConcurrent, halfway, cleaned));
    STheorems.InitialIsReachable(maxConcurrent);
    forall d | d in r.worlds
      ensures WorldOk(r, d)
    {
      assert WorldOk(sys, d);
      CrashedWorld(sys.worlds[d], d in halfway, d in cleaned);
      WorldStaysOk(sys.worlds[d], r.worlds[d]);
    }
  }

  lemma CleanedWorld(w: T.World, cleanup: Option<Error>, partGone: bool)
    requires w.phase.Idle?
    ensures T.Leads(w, T.Cleaned(w, cleanup, partGone))
  {
    T.LeadsNowhere(w);
    T.LeadsOn(w, w, T.DiscardPart);
    T.LeadsOn(w, T.Apply(w, T.DiscardPart), T.DiscardManifest);
  }

  lemma ReturnedWorld(sys: System, a: S.Action, d: Destination)
    requires d in sys.worlds
    requires a.WorkerDone? && a.id in sys.s.jobs && DestOf(sys.s, a.id) == d ==> sys.worlds[d].phase.Done?
    ensures T.Leads(sys.worlds[d], Returned(sys.s, a, sys.worlds[d], d))
  {
    hide T.Leads;
    T.LeadsNowhere(sys.worlds[d]);
    if a.WorkerDone? && a.id in sys.s.jobs && DestOf(sys.s, a.id) == d {
      WorldMoves(sys.worlds[d], T.Deliver);
    }
  }

  /** Cleanup only ever touches files nobody is writing. */
  lemma CleansAtRest(sys: System, a: S.Action, id: Id)
    requires Inv(sys) && Enabled(sys, Schedule(a, {})) && Cleans(sys.s, a, id)
    ensures DestOf(sys.s, id) in sys.worlds
    ensures Returned(sys.s, a, sys.worlds[DestOf(sys.s, id)], DestOf(sys.s, id)).phase.Idle?
  {
    hide WorldOk, S.ArmFor, STheorems.Reachable;
    if !a.WorkerDone? {
      assert id !in sys.s.workers by {
        StepFrame(sys.s, a);
      }
      NoWriterNoPhase(sys, id);
    }
  }

  lemma ScheduledWorld(sys: System, a: S.Action, halfway: set<Destination>, d: Destination)
    requires Inv(sys) && Enabled(sys, Schedule(a, {})) && d in sys.worlds
    ensures T.Leads(sys.worlds[d], AfterSchedule(sys, a, halfway, d))
    ensures AfterSchedule(sys, a, halfway, d).phase == Returned(sys.s, a, sys.worlds[d], d).phase
  {
    hide Inv, T.Leads, S.Apply;
    ReturnedWorld(sys, a, d);
    if exists id :: Cleans(sys.s, a, id) && DestOf(sys.s, id) == d {
      var w := Returned(sys.s, a, sys.worlds[d], d);
      forall id | Cleans(sys.s, a, id) && DestOf(sys.s, id) == d
        ensures T.Leads(sys.worlds[d], T.Cleaned(w, CleanupOf(a, id), d in halfway))
      {
        CleansAtRest(sys, a, id);
        CleanedWorld(w, CleanupOf(a, id), d in halfway);
        T.LeadsFurther(sys.worlds[d], w, T.Cleaned(w, CleanupOf(a, id), d in halfway));
      }
    }
  }

  /** What a scheduler step starts from and how it moves the tables. */
  lemma ScheduleFrame(sys: System, a: S.Action)
    requires Inv(sys) && Enabled(sys, Schedule(a, {}))
    ensures !sys.s.panicked && JobsOk(sys) && WritersOk(sys) && StopsOk(sys) && OverwriteOk(sys)
    ensures forall id :: id in sys.s.workers ==> id in sys.s.jobs
    ensures Frame(sys.s, S.Apply(sys.s, a), GoneIn(a), AdmittedIn(a))
  {
    hide WorldOk, JobsOk, WritersOk, StopsOk, OverwriteOk, Frame, S.Apply, STheorems.Reachable;
    StepFrame(sys.s, a);
  }

  lemma ScheduleKeepsJobs(sys: System, a: S.Action, r: System)
    requires JobsOk(sys) && Admissible(sys, a)
    requires KeepsRequests(sys.s, r.s, AdmittedIn(a)) && r.worlds.Keys == sys.worlds.Keys
    requires forall d :: d in r.worlds ==> r.worlds[d].url == sys.worlds[d].url
    ensures JobsOk(r)
  {
    forall id | id in r.s.jobs
      ensures DestOf(r.s, id) in r.worlds && r.worlds[DestOf(r.s, id)].url == r.s.jobs[id].request.url
      ensures id !in sys.s.jobs ==>
        a.Command? && a.cmd.Enqueue? && a.cmd.id == id && r.s.jobs[id].request == a.cmd.request
      ensures id in sys.s.jobs ==> DestOf(r.s, id) == DestOf(sys.s, id)
    {
    }
  }

  lemma ScheduleKeepsWriters(sys: System, a: S.Action, r: System)
    requires WritersOk(sys) && Frame(sys.s, r.s, GoneIn(a), AdmittedIn(a)) && r.worlds.Keys == sys.worlds.Keys
    requires forall d :: d in r.worlds ==> r.worlds[d].phase == Returned(sys.s, a, sys.worlds[d], d).phase
    ensures WritersOk(r)
  {
    forall d | d in r.worlds && !r.worlds[d].phase.Idle?
      ensures HasWriter(r, d)
    {
      assert HasWriter(sys, d);
      var id :| id in sys.s.jobs && id in sys.s.workers && DestOf(sys.s, id) == d;
      assert id in r.s.jobs && id in r.s.workers && DestOf(r.s, id) == d;
    }
  }

  /** Whoever is out after a scheduler step, and under way, was out for the same request before. */
  lemma StillOut(sys: System, a: S.Action, r: System, id: Id)
    requires JobsOk(sys) && WritersOk(sys) && Frame(sys.s, r.s, GoneIn(a), AdmittedIn(a))
    requires (forall i :: i in sys.s.workers ==> i in sys.s.jobs) && (a.WorkerDone? ==> a.id in sys.s.jobs)
    requires id in r.s.jobs && id in r.s.workers && DestOf(r.s, id) in sys.worlds
    requires !Returned(sys.s, a, sys.worlds[DestOf(r.s, id)], DestOf(r.s, id)).phase.Idle?
    ensures id in sys.s.jobs && id in sys.s.workers && r.s.jobs[id].request == sys.s.jobs[id].request
    ensures (id in sys.s.stops ==> id in r.s.stops) && (sys.s.root ==> r.s.root)
  {
    if id !in sys.s.workers {
      NoWriterNoPhase(sys, id);
    }
  }

  lemma ScheduleKeepsSignals(sys: System, a: S.Action, r: System)
    requires JobsOk(sys) && WritersOk(sys) && StopsOk(sys) && OverwriteOk(sys)
    requires Frame(sys.s, r.s, GoneIn(a), AdmittedIn(a)) && r.worlds.Keys == sys.worlds.Keys
    requires (forall i :: i in sys.s.workers ==> i in sys.s.jobs) && (a.WorkerDone? ==> a.id in sys.s.jobs)
    requires forall d :: d in r.worlds ==>
      && r.worlds[d].phase == Returned(sys.s, a, sys.worlds[d], d).phase
      && r.worlds[d].disk.dest == sys.worlds[d].disk.dest
    ensures StopsOk(r) && OverwriteOk(r)
  {
    hide JobsOk, WritersOk, Frame;
    forall id |
      && id in r.s.jobs && id in r.s.workers
      && DestOf(r.s, id) in r.worlds && !r.worlds[DestOf(r.s, id)].phase.Idle?
      ensures id in sys.s.jobs && id in sys.s.workers && r.s.jobs[id].request == sys.s.jobs[id].request
      ensures (id in sys.s.stops ==> id in r.s.stops) && (sys.s.root ==> r.s.root)
    {
      StillOut(sys, a, r, id);
    }
  }

  lemma DestStays(sys: System, a: S.Action, halfway: set<Destination>, d: Destination)
    requires S.Enabled(sys.s, a) && d in sys.worlds
    ensures AfterSchedule(sys, a, halfway, d).disk.dest == sys.worlds[d].disk.dest
  {
    hide S.Enabled, Cleans;
  }

  lemma ScheduleKeeps(sys: System, a: S.Action, halfway: set<Destination>)
    requires Inv(sys) && Enabled(sys, Schedule(a, halfway))
    ensures Inv(Apply(sys, Schedule(a, halfway)))
  {
    hide STheorems.Reachable, Accounting.Consistent, T.Leads, S.Apply, S.Enabled, AfterSchedule;
    hide JobsOk, WritersOk, StopsOk, OverwriteOk;
    var r := Apply(sys, Schedule(a, halfway));
    STheorems.ReachableNext(sys.s, a);
    forall d | d in r.worlds
      ensures WorldOk(r, d)
      ensures r.worlds[d].url == sys.worlds[d].url && r.worlds[d].phase == Returned(sys.s, a, sys.worlds[d], d).phase
      ensures r.worlds[d].disk.dest == sys.worlds[d].disk.dest
    {
      DestStays(sys, a, halfway, d);
      assert WorldOk(sys, d);
      ScheduledWorld(sys, a, halfway, d);
      WorldStaysOk(sys.worlds[d], r.worlds[d]);
    }
    hide KeepsWorkers, KeepsRequests, StartsOnlyQueued;
    ScheduleFrame(sys, a);
    ScheduleKeepsJobs(sys, a, r);
    ScheduleKeepsWriters(sys, a, r);
    ScheduleKeepsSignals(sys, a, r);
  }

  lemma StepKeeps(sys: System, step: Step)
    requires Inv(sys) && Enabled(sys, step)
    ensures Inv(Apply(sys, step))
  {
    hide Inv;
    match step
    case Schedule(a, halfway) => ScheduleKeeps(sys, a, halfway);
    case Work(id, a) => WorkKeeps(sys, id, a);
    case Elapse(d) => ElapseKeeps(sys, d);
    case Crash(maxConcurrent, halfway, cleaned) => CrashKeeps(sys, maxConcurrent, halfway, cleaned);
  }

  ghost predicate Legal(sys: System, steps: seq<Step>)
    decreases |steps|
  {
    steps == [] || (Enabled(sys, steps[0]) && Legal(Apply(sys, steps[0]), steps[1..]))
  }

  ghost function Exec(sys: System, steps: seq<Step>): System
    requires Legal(sys, steps)
    decreases |steps|
  {
    if steps == [] then sys else Exec(Apply(sys, steps[0]), steps[1..])
  }

  lemma {:induction false} RunKeeps(sys: System, steps: seq<Step>)
    requires Inv(sys) && Legal(sys, steps)
    ensures Inv(Exec(sys, steps))
    decreases |steps|
  {
    hide Inv, Enabled, Apply;
    if steps != [] {
      StepKeeps(sys, steps[0]);
      RunKeeps(Apply(sys, steps[0]), steps[1..]);
    }
  }

  /** Every step of the whole system takes each destination along legal steps of its own. */
  lemma StepLeads(sys: System, step: Step, d: Destination)
    requires Inv(sys) && Enabled(sys, step) && d in sys.worlds
    ensures d in Apply(sys, step).worlds
    ensures T.Leads(sys.worlds[d], Apply(sys, step).worlds[d])
  {
    hide Inv, T.Leads, S.Apply, S.Enabled, AfterSchedule, T.Enabled, T.Apply;
    match step
    case Schedule(a, halfway) => ScheduledWorld(sys, a, halfway, d);
    case Work(id, a) =>
      T.LeadsNowhere(sys.worlds[d]);
      WorldMoves(sys.worlds[DestOf(sys.s, id)], a);
    case Elapse(e) =>
      T.LeadsNowhere(sys.worlds[d]);
      WorldMoves(sys.worlds[e], T.Advance);
    case Crash(_, halfway, cleaned) => CrashedWorld(sys.worlds[d], d in halfway, d in cleaned);
  }

  /** A new scheduler over any set of destinations, with any files in them and any servers behind. */
  ghost predicate Start(sys: System) {
    && sys.s == S.Initial(sys.s.maxConcurrent)
    && forall d :: d in sys.worlds ==> sys.worlds[d].path == d && Accounting.AtRest(sys.worlds[d])
  }

  lemma StartIsInv(sys: System)
    requires Start(sys)
    ensures Inv(sys)
  {
    STheorems.InitialIsReachable(sys.s.maxConcurrent);
    assert forall d :: d in sys.worlds ==> WorldOk(sys, d);
  }

  /** Some run of the whole system leads here. */
  ghost predicate Reached(sys: System) {
    exists start, steps :: RunTo(start, steps, sys)
  }

  ghost predicate RunTo(start: System, steps: seq<Step>, sys: System) {
    Start(start) && Legal(start, steps) && Exec(start, steps) == sys
  }

  lemma ReachedIsInv(sys: System)
    requires Reached(sys)
    ensures Inv(sys)
  {
    hide Inv, Start, Legal, Exec;
    var start, steps :| RunTo(start, steps, sys);
    StartIsInv(start);
    RunKeeps(start, steps);
  }

  /** Some run in which this destination began with nothing to resume, on an honest server. */
  ghost predicate ReachedSafely(sys: System, d: Destination) {
    exists start, steps :: RunTo(start, steps, sys) && d in start.worlds && TInv.Fresh(start.worlds[d])
  }

  lemma {:induction false} RunLeads(sys: System, steps: seq<Step>, d: Destination)
    requires Inv(sys) && Legal(sys, steps) && d in sys.worlds
    ensures d in Exec(sys, steps).worlds && T.Leads(sys.worlds[d], Exec(sys, steps).worlds[d])
    decreases |steps|
  {
    hide Inv, Enabled, Apply, T.Leads;
    T.LeadsNowhere(sys.worlds[d]);
    if steps != [] {
      var next := Apply(sys, steps[0]);
      StepKeeps(sys, steps[0]);
      StepLeads(sys, steps[0], d);
      RunLeads(next, steps[1..], d);
      T.LeadsFurther(sys.worlds[d], next.worlds[d], Exec(sys, steps).worlds[d]);
    }
  }

  /** What is proved of one destination on its own holds of each one in the whole system. */
  lemma ReachedSafelyIsSafe(sys: System, d: Destination)
    requires ReachedSafely(sys, d)
    ensures d in sys.worlds && TInv.ReachedSafely(sys.worlds[d]) && TInv.Inv(sys.worlds[d])
  {
    hide Inv, Start, Legal, Exec, TInv.Fresh, TInv.Inv, TInv.KeepsBytes, T.Leads;
    var start, steps :| RunTo(start, steps, sys) && d in start.worlds && TInv.Fresh(start.worlds[d]);
    StartIsInv(start);
    RunLeads(start, steps, d);
    TInv.ReachedSafelyIsInv(sys.worlds[d]);
  }
}
