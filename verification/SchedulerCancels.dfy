/** What cancelling one download, or all of them, does, written out in the same words. */
module SchedulerCancels {
  import opened Types
  import opened Jobs
  import opened SchedulerSpec
  import opened SchedulerInvariant
  import opened SchedulerTheorems
  import opened ReadyQueue
  import opened SchedulerChanges

  /** What being cancelled does to one download. */
  ghost predicate CancelledEntry(s: State, r: State, id: Id, discard: Option<Error>)
    requires id in s.jobs && id in s.out.downloads
  {
    var j := s.jobs[id];
    var h := s.out.downloads[id];
    if WithoutWorker(j.state) then
      && id !in r.jobs && id !in r.ready && id in r.out.downloads
      && r.out.downloads[id] == Heard(h, News([Ending(CancelledOr(discard))], [CancelledOr(discard)], [], []))
    else
      && id in r.jobs && r.jobs[id] == j.(state := JobState.Cancelling)
      && id in r.out.downloads
      && (if j.state.Cancelling? then r.out.downloads[id] == h && (id in r.stops <==> id in s.stops)
          else r.out.downloads[id] == Heard(h, News([CancellationStarted], [], [], [])) && id in r.stops)
      && (j.state.Pausing? ==> forall a :: a in j.state.waiters ==>
            a in r.out.acks && r.out.acks[a].replies == [Err(Error.Cancelled)])
  }

  /** Requests already answered keep their answers; those answered now are refused. */
  ghost predicate NoneConfirmed(s: State, r: State) {
    && r.out.acks.Keys == s.out.acks.Keys
    && forall a :: a in s.out.acks ==>
         r.out.acks[a] == s.out.acks[a] || r.out.acks[a] == s.out.acks[a].(replies := [Err(Error.Cancelled)])
  }

  lemma CancelOne(s: State, id: Id, discard: Option<Error>)
    requires Core(s)
    ensures var r := OnCancel(s, id, discard);
      && OnlyAt(s, r, id) && TakenOut(s.ready, r.ready, id)
      && SameSettings(s, r) && SameWorkers(s, r) && r.panicked == s.panicked
      && NoneConfirmed(s, r)
      && (if id in s.jobs then id in s.out.downloads && CancelledEntry(s, r, id, discard) else r == s)
  {
    if id in s.jobs {
      Known(s, id);
      hide Core, HistoryOk, FinishedOk;
      match s.jobs[id].state
      case Running => CancelRunning(s, id, discard);
      case Pausing(_) => CancelPausing(s, id, discard);
      case Cancelling =>
      case _ => CancelIdle(s, id, discard);
    } else {
      hide Core;
    }
  }

  lemma CancelRunning(s: State, id: Id, discard: Option<Error>)
    requires id in s.jobs && id in s.out.downloads && s.jobs[id].state.Running? && id !in s.ready
    ensures var r := OnCancel(s, id, discard);
      && OnlyAt(s, r, id) && r.ready == s.ready
      && SameSettings(s, r) && SameWorkers(s, r) && r.panicked == s.panicked
      && CancelledEntry(s, r, id, discard) && NoneConfirmed(s, r)
  {
    EventBecomes(s, id, JobState.Cancelling, CancellationStarted);
    hide SetState, Heard;
    var p := SetState(s, id, JobState.Cancelling, CancellationStarted);
    assert OnCancel(s, id, discard) == p.(stops := s.stops + {id});
    SetStateElse(s, id, JobState.Cancelling, CancellationStarted);
  }

  lemma CancelPausing(s: State, id: Id, discard: Option<Error>)
    requires id in s.jobs && id in s.out.downloads && s.jobs[id].state.Pausing? && id !in s.ready
    requires WaitersOk(s.out, id, s.jobs[id].state.waiters) && id in s.stops
    ensures var r := OnCancel(s, id, discard);
      && OnlyAt(s, r, id) && r.ready == s.ready
      && SameSettings(s, r) && SameWorkers(s, r) && r.panicked == s.panicked
      && CancelledEntry(s, r, id, discard) && NoneConfirmed(s, r)
  {
    var waiters := s.jobs[id].state.waiters;
    TellsWaiters(s, id, waiters, Err(Error.Cancelled));
    var told := s.(out := s.out.AnswerAll(waiters, Err(Error.Cancelled)));
    EventBecomes(told, id, JobState.Cancelling, CancellationStarted);
    hide SetState, Heard, Record.AnswerAll;
    assert OnCancel(s, id, discard) == SetState(told, id, JobState.Cancelling, CancellationStarted);
    SetStateElse(told, id, JobState.Cancelling, CancellationStarted);
    hide OnCancel;
  }

  lemma CancelIdle(s: State, id: Id, discard: Option<Error>)
    requires id in s.jobs && id in s.out.downloads && s.jobs[id].id == id && Distinct(s.ready)
    requires WithoutWorker(s.jobs[id].state)
    ensures var r := OnCancel(s, id, discard);
      && OnlyAt(s, r, id) && TakenOut(s.ready, r.ready, id)
      && SameSettings(s, r) && SameWorkers(s, r) && r.panicked == s.panicked
      && CancelledEntry(s, r, id, discard) && NoneConfirmed(s, r)
  {
    var p := s.(ready := Without(s.ready, id));
    var r := Finish(p, id, CancelledOr(discard));
    WithoutTakesOut(s.ready, id);
    WithoutIs(s.ready, id);
    hide Distinct, Without, TakenOut;
    FinishBecomes(p, id, CancelledOr(discard));
    FinishElse(p, id, CancelledOr(discard));
    assert OnCancel(s, id, discard) == r;
    hide OnCancel, Finish, Heard, Becomes, Answers, OnlyAt, CancelledEntry, NoneConfirmed;
    GoneOnlyAt(s, r, id, discard);
  }

  /** What `Becomes` says of a job that goes without anybody waiting for it. */
  lemma GoneOnlyAt(s: State, r: State, id: Id, discard: Option<Error>)
    requires id in s.jobs && id in s.out.downloads && WithoutWorker(s.jobs[id].state) && id !in r.ready
    requires Becomes(
      s.(ready := r.ready), r, id, None, News([Ending(CancelledOr(discard))], [CancelledOr(discard)], [], []))
    requires Answers(s.(ready := r.ready), r, [], Verdict(CancelledOr(discard)))
    requires SameWorkers(s, r) && r.stops == s.stops
    ensures OnlyAt(s, r, id) && CancelledEntry(s, r, id, discard) && NoneConfirmed(s, r)
  {
    hide Heard;
  }

  /**
   * A cancellation: a job without a worker is gone, with its one result; one whose worker is out
   * is told to stop and its waiters hear of it. Every other download is as before, and so is
   * everything if there is no such job.
   */
  lemma CancelEffect(s: State, id: Id, discards: map<Id, Error>)
    requires Reachable(s) && Enabled(s, Action.Command(CancelJob(id), [], discards))
    ensures var r := Apply(s, Action.Command(CancelJob(id), [], discards));
      && OnlyAt(s, r, id) && TakenOut(s.ready, r.ready, id) && NoneConfirmed(s, r)
      && SameSettings(s, r) && SameWorkers(s, r) && !r.panicked
      && (if id in s.jobs then
            id in s.out.downloads && CancelledEntry(s, r, id, if id in discards then Some(discards[id]) else None)
          else r == s)
  {
    ReachableIsInv(s);
    CancelOne(s, id, DiscardOf(discards, id));
  }

  /** Nothing about this download is different. */
  ghost predicate Untouched(s: State, r: State, id: Id) {
    && SameAt(s, r, id)
    && (forall a :: a in s.out.acks && s.out.acks[a].target == id ==> a in r.out.acks && r.out.acks[a] == s.out.acks[a])
  }

  ghost predicate CancelledOrSpared(s: State, r: State, order: seq<Id>, discards: map<Id, Error>, id: Id)
    requires id in s.jobs && id in s.out.downloads
  {
    if id in order then CancelledEntry(s, r, id, if id in discards then Some(discards[id]) else None)
    else Untouched(s, r, id)
  }

  lemma EntryStays(s: State, m: State, r: State, other: Id, id: Id, discard: Option<Error>)
    requires Core(s) && id in s.jobs && id in s.out.downloads && CancelledEntry(s, m, id, discard)
    requires OnlyAt(m, r, other) && other != id && (id !in m.ready ==> id !in r.ready)
    requires NoneConfirmed(s, m)
    ensures CancelledEntry(s, r, id, discard)
  {
    Known(s, id);
    hide Core, Heard;
    assert SameAt(m, r, id);
  }

  lemma SparedStays(s: State, m: State, r: State, other: Id, id: Id)
    requires Untouched(s, m, id) && OnlyAt(m, r, other) && other != id
    ensures Untouched(s, r, id)
  {
    assert SameAt(m, r, id);
  }

  lemma SparedThenCancelled(s: State, m: State, r: State, id: Id, discard: Option<Error>)
    requires Core(s) && id in s.jobs && id in s.out.downloads && Untouched(s, m, id)
    requires id in m.jobs && id in m.out.downloads && CancelledEntry(m, r, id, discard)
    ensures CancelledEntry(s, r, id, discard)
  {
    Known(s, id);
    hide Core, Heard;
  }

  lemma {:induction false} CancelSome(s: State, order: seq<Id>, discards: map<Id, Error>)
    requires Core(s) && Distinct(order)
    ensures var r := CancelEach(s, order, discards);
      && Core(r) && SameSettings(s, r) && SameWorkers(s, r) && r.panicked == s.panicked
      && NoneConfirmed(s, r)
      && (forall x :: x in r.ready ==> x in s.ready)
      && (forall x :: x in r.jobs ==> x in s.jobs)
      && forall id :: id in s.jobs ==> id in s.out.downloads && CancelledOrSpared(s, r, order, discards, id)
    decreases |order|
  {
    hide Core, OnCancel, CancelledEntry, Untouched, OnlyAt, TakenOut, NoneConfirmed, SameSettings, SameWorkers;
    if order == [] {
      NothingYet(s);
      forall id | id in s.jobs
        ensures id in s.out.downloads && Untouched(s, s, id)
      {
        Known(s, id);
        SparedAtFirst(s, id);
      }
    } else {
      var front := order[..|order| - 1];
      var last := order[|order| - 1];
      var discard := if last in discards then Some(discards[last]) else None;
      var m := CancelEach(s, front, discards);
      var r := CancelEach(s, order, discards);
      CancelSome(s, front, discards);
      CancelOne(m, last, discard);
      CancelKeeps(m, last, discard, r);
      CancelTouches(m, last, discard);
      TakenOutKeepsOrder(m.ready, r.ready, last);
      NothingMore(s, m, r);
      forall id | id in s.jobs
        ensures id in s.out.downloads && CancelledOrSpared(s, r, order, discards, id)
      {
        assert CancelledOrSpared(s, m, front, discards, id);
        assert order == front + [last];
        if id == last {
          assert id !in front;
          SparedIsThere(s, m, id);
          SparedThenCancelled(s, m, r, id, discard);
        } else if id in front {
          EntryStays(s, m, r, last, id, if id in discards then Some(discards[id]) else None);
        } else {
          SparedStays(s, m, r, last, id);
        }
      }
    }
  }

  lemma NothingYet(s: State)
    ensures NoneConfirmed(s, s) && SameSettings(s, s) && SameWorkers(s, s)
  {
  }

  lemma NothingMore(s: State, m: State, r: State)
    requires NoneConfirmed(s, m) && SameSettings(s, m) && SameWorkers(s, m)
    requires NoneConfirmed(m, r) && SameSettings(m, r) && SameWorkers(m, r)
    ensures NoneConfirmed(s, r) && SameSettings(s, r) && SameWorkers(s, r)
  {
  }

  lemma SparedAtFirst(s: State, id: Id)
    ensures Untouched(s, s, id)
  {
  }

  lemma SparedIsThere(s: State, m: State, id: Id)
    requires id in s.jobs && id in s.out.downloads && Untouched(s, m, id)
    ensures id in m.jobs && id in m.out.downloads
  {
  }

  /** Cancelling everything cancels each job as if it were cancelled by itself, and empties both waiting lists. */
  ghost predicate AllCancelled(s: State, r: State, discards: map<Id, Error>) {
    && SameWaitingGone(s, r) && r.panicked == s.panicked
    && (forall id :: id in r.jobs ==> id in s.jobs) && NoneConfirmed(s, r)
    && forall id :: id in s.jobs ==>
         id in s.out.downloads && CancelledEntry(s, r, id, if id in discards then Some(discards[id]) else None)
  }

  ghost predicate SameWaitingGone(s: State, r: State) {
    && r.ready == [] && r.delayed == multiset{} && r.workers == s.workers
    && r.maxConcurrent == s.maxConcurrent && r.root == s.root && r.started == s.started
  }

  lemma ListsCleared(s: State, m: State, r: State, discards: map<Id, Error>)
    requires
      || r == m.(ready := [], delayed := multiset{})
      || r == m.(ready := [], delayed := multiset{}, draining := true)
    requires SameSettings(s, m) && m.workers == s.workers && m.panicked == s.panicked
    requires NoneConfirmed(s, m) && forall id :: id in m.jobs ==> id in s.jobs
    requires forall id :: id in s.jobs ==>
      id in s.out.downloads && CancelledEntry(s, m, id, if id in discards then Some(discards[id]) else None)
    ensures AllCancelled(s, r, discards)
  {
    forall id | id in s.jobs
      ensures CancelledEntry(s, r, id, if id in discards then Some(discards[id]) else None)
    {
      assert CancelledEntry(s, m, id, if id in discards then Some(discards[id]) else None);
    }
  }

  lemma CancelAllEffect(s: State, order: seq<Id>, discards: map<Id, Error>)
    requires Reachable(s) && Enabled(s, Action.Command(CancelAll, order, discards))
    ensures var r := Apply(s, Action.Command(CancelAll, order, discards));
      AllCancelled(s, r, discards) && r.draining == s.draining
  {
    hide Core, CancelledEntry, Untouched, SameWaitingGone, Reachable;
    ReachableIsInv(s);
    CancelSome(s, order, discards);
    var m := CancelEach(s, order, discards);
    assert forall id :: id in s.jobs ==> CancelledOrSpared(s, m, order, discards, id);
    ListsCleared(s, m, m.(ready := [], delayed := multiset{}), discards);
  }

  /** Shutting down does the same and leaves the main loop. */
  lemma ShutdownEffect(s: State, order: seq<Id>, discards: map<Id, Error>)
    requires Reachable(s) && Enabled(s, Shutdown(order, discards))
    ensures var r := Apply(s, Shutdown(order, discards)); AllCancelled(s, r, discards) && r.draining
  {
    hide Core, CancelledEntry, Untouched, SameWaitingGone, Reachable;
    ReachableIsInv(s);
    CancelSome(s, order, discards);
    var m := CancelEach(s, order, discards);
    assert forall id :: id in s.jobs ==> CancelledOrSpared(s, m, order, discards, id);
    ListsCleared(s, m, m.(ready := [], delayed := multiset{}, draining := true), discards);
  }
}
