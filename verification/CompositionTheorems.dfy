/** What a download's owner may conclude from the result, over every run of the whole system. */
module CompositionTheorems {
  import opened Types
  import opened Jobs
  import S = SchedulerSpec
  import SInv = SchedulerInvariant
  import STheorems = SchedulerTheorems
  import T = TransferSpec
  import Accounting = TransferAccounting
  import TInv = TransferInvariant
  import TTheorems = TransferTheorems
  import Requests = TransferRequests
  import Effects = SchedulerEffects
  import Changes = SchedulerChanges
  import Cancels = SchedulerCancels
  import Returns = SchedulerReturns
  import opened Composition

  /** While a destination's files are being written, exactly one worker is out for it. */
  lemma SingleWriter(sys: System, d: Destination)
    requires Reached(sys) && !sys.s.panicked && d in sys.worlds && !sys.worlds[d].phase.Idle?
    ensures exists id :: id in sys.s.jobs && DestOf(sys.s, id) == d && sys.s.workers[id] == 1
    ensures forall i, j ::
      && i in sys.s.jobs && i in sys.s.workers && DestOf(sys.s, i) == d
      && j in sys.s.jobs && j in sys.s.workers && DestOf(sys.s, j) == d
      ==> i == j
  {
    hide WorldOk, STheorems.Reachable;
    ReachedIsInv(sys);
    STheorems.Placement(sys.s);
    assert HasWriter(sys, d);
  }

  // ----- how a job can leave the table, and with which result

  /** Someone asked for this download to end: by cancelling it, or everything, or shutting down. */
  predicate CancelAsked(s: S.State, a: S.Action, id: Id) {
    || s.root || a.Shutdown? || (id in s.jobs && s.jobs[id].state.Cancelling?)
    || (a.Command? && (a.cmd.CancelAll? || a.cmd == S.CancelJob(id)))
  }

  /** A worker's own reasons never look like a cancellation, and it only stops when told to. */
  lemma WorkerEndFacts(sys: System, a: S.Action)
    requires Inv(sys) && Enabled(sys, Schedule(a, {})) && a.WorkerDone?
    ensures a.end != Err(Error.Cancelled)
    ensures a.end.Ok? && a.end.value.Finished? ==>
      var w := sys.worlds[DestOf(sys.s, a.id)];
      && a.end.value.result.path == w.path
      && w.disk.dest.Some? && |w.disk.dest.value| == a.end.value.result.bytes
    ensures a.end == Ok(Stopped) ==> a.id in sys.s.stops || sys.s.root
  {
    assert WorldOk(sys, DestOf(sys.s, a.id));
  }

  /** The result a leaving download gets, and why. */
  ghost predicate ResultFits(s: S.State, a: S.Action, id: Id, outcome: Outcome)
    requires S.Enabled(s, a)
  {
    && (outcome.Ok? ==> a.WorkerDone? && a.id == id && a.end == Ok(Finished(outcome.value)))
    && (outcome == Err(Error.Cancelled) ==> Cleans(s, a, id) && CleanupOf(a, id).None? && CancelAsked(s, a, id))
  }

  /** The download is out of the table, with this one result. */
  ghost predicate LeavesWith(r: S.State, id: Id, outcome: Outcome) {
    id !in r.jobs && id in r.out.downloads && r.out.downloads[id].results == [outcome]
  }

  lemma CancelFits(s: S.State, r: S.State, id: Id, discard: Option<Error>)
    requires STheorems.Reachable(s) && !s.panicked && id in s.jobs && id in s.out.downloads
    requires Cancels.CancelledEntry(s, r, id, discard) && id !in r.jobs
    ensures LeavesWith(r, id, S.Discarded(discard))
  {
    hide STheorems.Reachable;
    STheorems.ResultsAndReplies(s);
  }

  lemma CommandFits(s: S.State, cmd: S.Command, order: seq<Id>, discards: map<Id, Error>, id: Id)
    requires STheorems.Reachable(s) && S.Enabled(s, S.Action.Command(cmd, order, discards))
    requires id in s.jobs && id !in S.HandleCmd(s, cmd, order, discards).jobs
    ensures cmd.CancelAll? || cmd == S.CancelJob(id)
    ensures LeavesWith(S.HandleCmd(s, cmd, order, discards), id, S.Discarded(S.DiscardOf(discards, id)))
  {
    hide STheorems.Reachable, Cancels.CancelledEntry, S.OnPause, S.OnResume, S.OnCancel, S.CancelEach;
    match cmd
    case Enqueue(_, _) =>
    case SetMaxConcurrent(_) =>
    case PauseJob(other, ack) => Effects.PauseEffect(s, other, ack);
    case ResumeJob(other, ack) => Effects.ResumeEffect(s, other, ack);
    case CancelJob(other) =>
      Cancels.CancelEffect(s, other, discards);
      assert SInv.SameAt(s, S.OnCancel(s, other, S.DiscardOf(discards, other)), id) || other == id;
      CancelFits(s, S.OnCancel(s, id, S.DiscardOf(discards, id)), id, S.DiscardOf(discards, id));
    case CancelAll =>
      Cancels.CancelAllEffect(s, order, discards);
      CancelFits(s, S.OnCancelAll(s, order, discards), id, S.DiscardOf(discards, id));
  }

  /** The only ways for the own worker's return to end a download. */
  lemma ReturnLeaves(s: S.State, a: S.Action, id: Id) returns (outcome: Outcome)
    requires STheorems.Reachable(s) && S.Enabled(s, a) && a.WorkerDone? && id in s.jobs
    requires var r := S.Apply(s, a); !r.panicked && id !in r.jobs
    ensures a.id == id && LeavesWith(S.Apply(s, a), id, outcome)
    ensures
      if a.end.Ok? && a.end.value.Finished? then outcome == Ok(a.end.value.result)
      else if a.end.Ok? || s.jobs[id].state.Cancelling? then outcome == S.Discarded(a.discard)
      else outcome == Err(a.end.error)
    ensures s.jobs[id].state.Pausing? ==> a.end != Ok(Stopped)
  {
    hide STheorems.Reachable, S.Apply, Changes.Answers;
    Returns.ReturnEffect(s, a.id, a.end, a.discard);
    STheorems.ResultsAndReplies(s);
    outcome :=
      if a.end.Ok? && a.end.value.Finished? then Ok(a.end.value.result)
      else if a.end.Ok? || s.jobs[a.id].state.Cancelling? then S.Discarded(a.discard)
      else Err(a.end.error);
    assert Returns.Ends(s, S.Apply(s, a), a.id, a.end, outcome);
  }

  lemma ReturnFits(sys: System, a: S.Action, id: Id) returns (outcome: Outcome)
    requires Inv(sys) && Enabled(sys, Schedule(a, {})) && a.WorkerDone? && id in sys.s.jobs
    requires var r := S.Apply(sys.s, a); !r.panicked && id !in r.jobs
    ensures LeavesWith(S.Apply(sys.s, a), id, outcome) && ResultFits(sys.s, a, id, outcome)
  {
    hide STheorems.Reachable, WorldOk, JobsOk, WritersOk, StopsOk, OverwriteOk, S.Apply, LeavesWith;
    WorkerEndFacts(sys, a);
    STheorems.Placement(sys.s);
    outcome := ReturnLeaves(sys.s, a, id);
  }

  lemma LeaveFits(sys: System, a: S.Action, id: Id) returns (outcome: Outcome)
    requires Inv(sys) && Enabled(sys, Schedule(a, {})) && id in sys.s.jobs
    requires var r := S.Apply(sys.s, a); !r.panicked && id !in r.jobs
    ensures LeavesWith(S.Apply(sys.s, a), id, outcome) && ResultFits(sys.s, a, id, outcome)
  {
    hide STheorems.Reachable, S.OnWorker, S.HandleCmd, S.CancelEach, WorldOk, JobsOk, WritersOk, StopsOk;
    hide Cancels.CancelledEntry;
    outcome := S.Discarded(CleanupOf(a, id));
    match a
    case RootCancelled =>
    case Command(cmd, order, discards) => CommandFits(sys.s, cmd, order, discards, id);
    case WorkerDone(_, _, _) =>
      outcome := ReturnFits(sys, a, id);
    case TimerFired(other, attempt) => Effects.TimerEffect(sys.s, other, attempt);
    case TryStart => Effects.StartEffect(sys.s);
    case Shutdown(order, discards) =>
      Cancels.ShutdownEffect(sys.s, order, discards);
      CancelFits(sys.s, S.Apply(sys.s, a), id, S.DiscardOf(discards, id));
  }

  /** The files of a cancelled download after its cleanup. */
  lemma CleanedAway(sys: System, a: S.Action, halfway: set<Destination>, id: Id)
    requires Inv(sys) && Enabled(sys, Schedule(a, halfway)) && Cleans(sys.s, a, id) && CleanupOf(a, id).None?
    ensures DestOf(sys.s, id) in sys.worlds
    ensures var w := AfterSchedule(sys, a, halfway, DestOf(sys.s, id)); w.disk.part.None? && w.disk.manifest.None?
  {
    hide STheorems.Reachable, WorldOk, WritersOk, StopsOk, S.Apply, S.ArmFor;
    var d := DestOf(sys.s, id);
    assert Cleans(sys.s, a, id) && DestOf(sys.s, id) == d;
  }

  /** A destination whose worker has just succeeded is left as the worker left it. */
  lemma SuccessLeftAlone(sys: System, a: S.Action, halfway: set<Destination>)
    requires Inv(sys) && Enabled(sys, Schedule(a, halfway)) && a.WorkerDone? && a.end.Ok? && a.end.value.Finished?
    ensures var d := DestOf(sys.s, a.id); AfterSchedule(sys, a, halfway, d) == sys.worlds[d].(phase := T.Idle)
  {
    hide STheorems.Reachable, WorldOk, JobsOk, WritersOk, StopsOk, S.Apply;
  }

  /**
   * What a result means on any server: success means that the destination holds a file of exactly
   * the reported length; Cancelled means that neither the partial file nor its manifest is left.
   */
  ghost predicate Tells(outcome: Outcome, d: Destination, w: T.World) {
    && (outcome.Ok? ==>
          outcome.value.path == d && w.disk.dest.Some? && |w.disk.dest.value| == outcome.value.bytes)
    && (outcome == Err(Error.Cancelled) ==> w.disk.part.None? && w.disk.manifest.None?)
  }

  /**
   * Whenever, in any run, a download leaves the scheduler, it has exactly one result, that
   * result tells the truth about the files it leaves behind, and it is Cancelled only if
   * somebody asked for that. If no validator of the destination's own server betrays a worker,
   * success means one whole version.
   */
  lemma ResultsAreTrue(sys: System, a: S.Action, halfway: set<Destination>, id: Id, next: System)
    requires Reached(sys) && Enabled(sys, Schedule(a, halfway)) && next == Apply(sys, Schedule(a, halfway))
    requires id in sys.s.jobs && id !in next.s.jobs && !next.s.panicked
    ensures id in next.s.out.downloads && |next.s.out.downloads[id].results| == 1
    ensures DestOf(sys.s, id) in next.worlds
    ensures Tells(next.s.out.downloads[id].results[0], DestOf(sys.s, id), next.worlds[DestOf(sys.s, id)])
    ensures next.s.out.downloads[id].results[0] == Err(Error.Cancelled) ==> CancelAsked(sys.s, a, id)
    ensures ReachedSafely(sys, DestOf(sys.s, id)) && next.s.out.downloads[id].results[0].Ok? ==>
      TInv.HoldsWhole(next.worlds[DestOf(sys.s, id)], next.s.out.downloads[id].results[0].value.bytes)
  {
    hide Inv, S.Apply, AfterSchedule, Cleans, CleanupOf, Reached, ReachedSafely, TInv.HoldsWhole;
    ReachedIsInv(sys);
    var outcome := LeaveFits(sys, a, id);
    DestKnown(sys, a, id);
    if outcome.Ok? {
      WorkerEndFacts(sys, a);
      SuccessLeftAlone(sys, a, halfway);
      PathKnown(sys, DestOf(sys.s, id));
      if ReachedSafely(sys, DestOf(sys.s, id)) {
        WholeAtEnd(sys, a, DestOf(sys.s, id));
      }
    } else if outcome == Err(Error.Cancelled) {
      CleanedAway(sys, a, halfway, id);
    }
  }

  /** The file of a worker that has just succeeded against an honest server. */
  lemma WholeAtEnd(sys: System, a: S.Action, d: Destination)
    requires ReachedSafely(sys, d) && d in sys.worlds
    requires a.WorkerDone? && a.end.Ok? && a.end.value.Finished? && sys.worlds[d].phase == T.Done(a.end)
    ensures TInv.HoldsWhole(sys.worlds[d].(phase := T.Idle), a.end.value.result.bytes)
  {
    hide ReachedSafely;
    ReachedSafelyIsSafe(sys, d);
    var w := sys.worlds[d];
    var v :| 0 <= v < |w.server.versions| && v <= w.server.current
      && w.disk.dest == Some(w.server.versions[v].body) && a.end.value.result.bytes == |w.server.versions[v].body|;
    assert w.(phase := T.Idle).server.versions[v] == w.server.versions[v];
  }

  lemma DestKnown(sys: System, a: S.Action, id: Id)
    requires Inv(sys) && Enabled(sys, Schedule(a, {})) && id in sys.s.jobs
    ensures DestOf(sys.s, id) in sys.worlds
  {
    hide STheorems.Reachable, WorldOk;
  }

  lemma PathKnown(sys: System, d: Destination)
    requires Inv(sys) && d in sys.worlds
    ensures sys.worlds[d].path == d
  {
    assert WorldOk(sys, d);
  }

  /**
   * Over the whole system too, a destination changes only as a worker renames its complete
   * partial file over it, if there was one only with its request's permission, and on an honest
   * server it becomes one whole version.
   */
  lemma PublishesWhole(sys: System, step: Step, d: Destination)
    requires Reached(sys) && Enabled(sys, step) && d in sys.worlds
    ensures d in Apply(sys, step).worlds
    ensures var w := Apply(sys, step).worlds[d];
      w.disk.dest != sys.worlds[d].disk.dest ==>
        && step.Work? && step.id in sys.s.jobs && DestOf(sys.s, step.id) == d
        && (sys.worlds[d].disk.dest.Some? ==> sys.s.jobs[step.id].request.overwrite)
        && sys.worlds[d].phase.Streaming?
        && sys.worlds[d].phase.x.got == |sys.worlds[d].phase.x.body|
        && w.disk.dest == Some(sys.worlds[d].disk.PartData())
        && |sys.worlds[d].disk.PartData()| == sys.worlds[d].phase.x.Position()
        && (ReachedSafely(sys, d) ==> TInv.HoldsWhole(w, |w.disk.dest.value|))
  {
    hide STheorems.Reachable, S.Apply, Cleans, AfterSchedule, T.Apply, TInv.HoldsWhole, TInv.Inv, Accounting.Consistent;
    hide JobsOk, WritersOk, StopsOk, Reached, ReachedSafely;
    ReachedIsInv(sys);
    match step
    case Schedule(a, halfway) => DestStays(sys, a, halfway, d);
    case Work(id, a) =>
      assert WorldOk(sys, d);
      if DestOf(sys.s, id) == d {
        if T.Apply(sys.worlds[d], a).disk.dest != sys.worlds[d].disk.dest {
          Requests.PublishesSynced(sys.worlds[d], a);
        }
        if ReachedSafely(sys, d) {
          ReachedSafelyIsSafe(sys, d);
          TTheorems.StepPublishesWhole(sys.worlds[d], a);
        }
      }
    case Elapse(e) => ElapseSparesDest(sys.worlds[e]);
    case Crash(_, _, _) =>
  }

  lemma ElapseSparesDest(w: T.World)
    requires T.Enabled(w, T.Advance)
    ensures T.Apply(w, T.Advance).disk == w.disk
  {
  }

  // ----- what cleanups spare

  /** Why a cleanup was run, and for whom. */
  lemma CleansCancelled(sys: System, a: S.Action, id: Id)
    requires Inv(sys) && Enabled(sys, Schedule(a, {})) && Cleans(sys.s, a, id)
    ensures id in sys.s.jobs && CancelAsked(sys.s, a, id)
    ensures a.WorkerDone? ==> a.id == id && !(a.end.Ok? && a.end.value.Finished?)
  {
    hide WorldOk, JobsOk, WritersOk, OverwriteOk;
    if a.WorkerDone? {
      StoppedFor(sys, a, id);
    } else if a.Command? {
      hide Inv;
      CommandFits(sys.s, a.cmd, a.order, a.discards, id);
    }
  }

  lemma StoppedFor(sys: System, a: S.Action, id: Id)
    requires Inv(sys) && Enabled(sys, Schedule(a, {})) && Cleans(sys.s, a, id) && a.WorkerDone?
    ensures CancelAsked(sys.s, a, id) && !(a.end.Ok? && a.end.value.Finished?)
  {
    hide WorldOk, JobsOk, WritersOk, OverwriteOk, STheorems.Reachable;
    WorkerEndFacts(sys, a);
    STheorems.Placement(sys.s);
  }

  /**
   * A scheduler step changes a destination's files only as a cancelled download leaves it: pauses,
   * retries, failures and successes keep whatever there is to resume.
   */
  lemma OnlyCancelCleans(sys: System, a: S.Action, halfway: set<Destination>, d: Destination)
    requires Reached(sys) && Enabled(sys, Schedule(a, halfway)) && d in sys.worlds
    ensures Apply(sys, Schedule(a, halfway)).worlds[d].disk != sys.worlds[d].disk ==>
      exists id ::
        && id in sys.s.jobs && DestOf(sys.s, id) == d && CancelAsked(sys.s, a, id)
        && id !in Apply(sys, Schedule(a, halfway)).s.jobs
        && (a.WorkerDone? ==> a.id == id && !(a.end.Ok? && a.end.value.Finished?))
  {
    hide Inv, S.Apply, Reached, CancelAsked;
    ReachedIsInv(sys);
    if AfterSchedule(sys, a, halfway, d).disk != sys.worlds[d].disk {
      var id :| Cleans(sys.s, a, id) && DestOf(sys.s, id) == d;
      CleansCancelled(sys, a, id);
      CleansLeaves(sys, a, id);
    }
  }

  lemma CleansLeaves(sys: System, a: S.Action, id: Id)
    requires Inv(sys) && Enabled(sys, Schedule(a, {})) && Cleans(sys.s, a, id)
    ensures id !in S.Apply(sys.s, a).jobs
  {
    hide WorldOk, JobsOk, WritersOk, StopsOk, OverwriteOk, STheorems.Reachable;
  }
}
