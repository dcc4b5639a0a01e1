/** The invariant of the whole scheduler and its preservation by every step. */
module SchedulerInvariant {
  import opened Types
  import opened Backoff
  import opened Lifecycle
  import opened Jobs
  import opened SchedulerSpec

  /** How many of these worker runs ended in a failure worth retrying. */
  function Failures(ends: seq<WorkerEnd>): nat {
    if ends == [] then 0
    else Failures(ends[..|ends| - 1]) + (if IsFailure(ends[|ends| - 1]) then 1 else 0)
  }

  predicate IsFailure(end: WorkerEnd) {
    end.Err? && end.error.IsRetryable()
  }

  predicate IsCleanStop(end: WorkerEnd) {
    end == Ok(Stopped)
  }

  predicate Increasing(ks: seq<nat>) {
    forall i, j :: 0 <= i < j < |ks| ==> ks[i] < ks[j]
  }

  /** A live download's history agrees with its job. */
  ghost predicate HistoryOk(j: JobView, h: History) {
    var life := Replay(h.events);
    && h.request == j.request
    && h.results == []
    && (forall e :: e in h.ends ==> IsCleanStop(e) || IsFailure(e))
    && Failures(h.ends) == j.attempt
    && Increasing(h.timers) && (forall k :: k in h.timers ==> k <= j.attempt)
    && life.Live?
    && life.tag == j.state.ToTag()
    && life.starts == |h.ends| + (if j.state.InFlight() then 1 else 0)
    && life.retries == h.timers
    && life.waitMs <= BudgetMs(j.attempt)
  }

  /** A finished download's history: one result, which its last event announces. */
  ghost predicate FinishedOk(h: History) {
    var life := Replay(h.events);
    && |h.results| == 1
    && Failures(h.ends) <= h.request.retries + 1
    && Increasing(h.timers) && (forall k :: k in h.timers ==> k <= h.request.retries)
    && life.Ended?
    && life.last == TerminalKind(h.results[0])
    && life.starts == |h.ends|
    && life.retries == h.timers
    && life.waitMs <= BudgetMs(h.request.retries)
  }

  /** The requests a pausing job owes an answer are exactly its own open ones, once each. */
  ghost predicate WaitersOk(out: Record, id: Id, waiters: seq<Ack>) {
    && Distinct(waiters)
    && (forall w :: w in waiters ==> w in out.acks && out.acks[w] == AckCell(id, true, []))
  }

  ghost predicate JobOk(s: State, id: Id, j: JobView) {
    && j.id == id
    && j.attempt <= j.request.retries
    && (j.state.Retrying? ==> j.state.attempt == j.attempt && s.delayed[(id, j.attempt)] == 1)
    && (j.state.Pausing? ==> WaitersOk(s.out, id, j.state.waiters))
    && (j.state.InFlight() ==> (id in s.stops <==> !j.state.Running?))
  }

  ghost predicate IdOk(s: State, id: Id) {
    && s.workers[id] == (if id in s.jobs && s.jobs[id].state.InFlight() then 1 else 0)
    && (forall k: nat :: s.delayed[(id, k)] <= 1)
    && (forall k: nat :: s.delayed[(id, k)] > 0 ==> k in s.out.Of(id).timers)
    && (id in s.jobs ==>
          id in s.out.downloads && JobOk(s, id, s.jobs[id]) && HistoryOk(s.jobs[id], s.out.downloads[id]))
    && (id !in s.jobs && id in s.out.downloads ==> FinishedOk(s.out.downloads[id]))
  }

  /** A request is answered at most once, and an unanswered one waits in a pausing job. */
  ghost predicate AckOk(s: State, a: Ack)
    requires a in s.out.acks
  {
    var c := s.out.acks[a];
    && |c.replies| <= 1
    && (c.replies == [] ==>
          c.pausing && c.target in s.jobs && s.jobs[c.target].state.Pausing? && a in s.jobs[c.target].state.waiters)
  }

  ghost predicate ReadyOk(s: State) {
    && Distinct(s.ready)
    && (forall id :: id in s.ready ==> id in s.jobs && s.jobs[id].state.Queued?)
    && (!s.root ==> forall id :: id in s.jobs && s.jobs[id].state.Queued? ==> id in s.ready)
  }

  ghost predicate DrainOk(s: State) {
    s.draining ==>
      s.ready == [] && s.delayed == multiset{} && forall id :: id in s.jobs ==> s.jobs[id].state.Cancelling?
  }

  ghost predicate Core(s: State) {
    && (forall id: Id :: IdOk(s, id))
    && (forall a :: a in s.out.acks ==> AckOk(s, a))
    && ReadyOk(s)
  }

  /** The scheduler thread only ever dies over a request allowing more than 64 retries. */
  ghost predicate PanicExplained(s: State) {
    exists id :: id in s.out.downloads && s.out.downloads[id].request.retries > 64
  }

  /** A log is live as long as there is no result, and ended by the event that goes with the one result. */
  ghost predicate LogFits(h: History) {
    if h.results == [] then Replay(h.events).Live?
    else |h.results| == 1 && Replay(h.events).Ended? && Replay(h.events).last == TerminalKind(h.results[0])
  }

  /** What has been sent out is in order, whatever became of the scheduler. */
  ghost predicate RecordInOrder(out: Record) {
    && (forall id :: id in out.downloads ==> LogFits(out.downloads[id]))
    && (forall a :: a in out.acks ==> |out.acks[a].replies| <= 1)
  }

  lemma CoreInOrder(s: State)
    requires Core(s)
    ensures RecordInOrder(s.out)
  {
    hide Replay;
    forall id | id in s.out.downloads
      ensures LogFits(s.out.downloads[id])
    {
      assert IdOk(s, id);
    }
    forall a | a in s.out.acks
      ensures |s.out.acks[a].replies| <= 1
    {
      assert AckOk(s, a);
    }
  }

  ghost predicate Inv(s: State) {
    if s.panicked then PanicExplained(s) && RecordInOrder(s.out) else Core(s) && DrainOk(s)
  }

  // ----- what a step on one id leaves alone

  ghost predicate SameAt(s: State, t: State, i: Id) {
    && (i in s.jobs <==> i in t.jobs)
    && (i in s.jobs ==> s.jobs[i] == t.jobs[i])
    && s.workers[i] == t.workers[i]
    && (forall k: nat :: s.delayed[(i, k)] == t.delayed[(i, k)])
    && (i in s.stops <==> i in t.stops)
    && (i in s.out.downloads <==> i in t.out.downloads)
    && (i in s.out.downloads ==> s.out.downloads[i] == t.out.downloads[i])
  }

  ghost predicate AcksSame(s: State, t: State, id: Id) {
    && (forall a :: a in t.out.acks && t.out.acks[a].target != id ==> a in s.out.acks && s.out.acks[a] == t.out.acks[a])
    && (forall a :: a in s.out.acks && s.out.acks[a].target != id ==> a in t.out.acks && s.out.acks[a] == t.out.acks[a])
  }

  /** `t` differs from `s` at most in what concerns `id`. */
  ghost predicate OnlyAt(s: State, t: State, id: Id) {
    && (forall i: Id :: i != id ==> SameAt(s, t, i))
    && AcksSame(s, t, id)
  }

  /** Everything that does not concern `id` stays in order, so only `id` has to be looked at. */
  lemma LocalStep(s: State, t: State, id: Id)
    requires Core(s) && OnlyAt(s, t, id)
    requires IdOk(t, id)
    requires forall a :: a in t.out.acks && t.out.acks[a].target == id ==> AckOk(t, a)
    requires ReadyOk(t)
    ensures Core(t)
  {
    forall i: Id | i != id
      ensures IdOk(t, i)
    {
      assert IdOk(s, i) && SameAt(s, t, i);
      assert s.out.Of(i) == t.out.Of(i);
      if i in t.jobs && t.jobs[i].state.Pausing? {
        assert WaitersOk(s.out, i, t.jobs[i].state.waiters);
      }
    }
    forall a | a in t.out.acks && t.out.acks[a].target != id
      ensures AckOk(t, a)
    {
      assert AckOk(s, a) && SameAt(s, t, t.out.acks[a].target);
    }
  }

  // ----- the ready queue

  lemma {:induction false} WithoutIs(ids: seq<Id>, id: Id)
    ensures forall x :: x in Without(ids, id) <==> x in ids && x != id
    ensures Distinct(ids) ==> Distinct(Without(ids, id))
    ensures id !in ids ==> Without(ids, id) == ids
  {
    if ids != [] {
      var rest := ids[1..];
      WithoutIs(rest, id);
      assert ids == [ids[0]] + rest;
      if Distinct(ids) {
        assert forall i, j :: 0 <= i < j < |rest| ==> rest[i] == ids[i + 1] && rest[j] == ids[j + 1];
        assert ids[0] !in rest;
      }
    }
  }

  // ----- histories

  /** The automaton moves from one tag to the other, counting a start and nothing else. */
  predicate Moves(from: Tag, e: EventKind, to: Tag) {
    Follow(Live(from, 0, [], 0), e) == Live(to, if e.Started? then 1 else 0, [], 0)
  }

  lemma MoveTable()
    ensures Moves(Tag.Queued, Started, Tag.Running)
    ensures Moves(Tag.Queued, EventKind.Paused, Tag.Paused)
    ensures Moves(Tag.Paused, EventKind.Queued, Tag.Queued)
    ensures Moves(Tag.Running, PauseStarted, Tag.Pausing)
    ensures Moves(Tag.Running, CancellationStarted, Tag.Cancelling)
    ensures Moves(Tag.Pausing, CancellationStarted, Tag.Cancelling)
    ensures forall k :: Moves(Tag.Retrying(k), EventKind.Queued, Tag.Queued)
    ensures forall k :: Moves(Tag.Retrying(k), EventKind.Paused, Tag.Paused)
  {
  }

  lemma EventKeepsHistory(j: JobView, h: History, e: EventKind, st: JobState)
    requires HistoryOk(j, h) && !e.RetryScheduled?
    requires Moves(j.state.ToTag(), e, st.ToTag())
    requires if e.Started? then st.InFlight() && !j.state.InFlight() else st.InFlight() == j.state.InFlight()
    ensures HistoryOk(j.(state := st), h.(events := h.events + [e]))
  {
    ReplayAppend(h.events, e);
  }

  lemma CollectCounts(h: History, end: WorkerEnd)
    ensures Failures(h.ends + [end]) == Failures(h.ends) + (if IsFailure(end) then 1 else 0)
  {
    assert (h.ends + [end])[..|h.ends|] == h.ends;
  }

  lemma CleanStopParks(j: JobView, h: History)
    requires HistoryOk(j, h) && j.state.Pausing?
    ensures HistoryOk(j.Paused(), h.(events := h.events + [EventKind.Paused], ends := h.ends + [Ok(Stopped)]))
  {
    hide Replay, Failures, Increasing, BudgetMs;
    ReplayAppend(h.events, EventKind.Paused);
    CollectCounts(h, Ok(Stopped));
  }

  lemma FailureParks(j: JobView, h: History, end: WorkerEnd)
    requires HistoryOk(j, h) && j.state.Pausing? && IsFailure(end) && j.attempt < j.request.retries
    ensures HistoryOk(
      j.(attempt := j.attempt + 1).Paused(), h.(events := h.events + [EventKind.Paused], ends := h.ends + [end]))
  {
    hide Replay, Failures, Increasing, BudgetMs;
    ReplayAppend(h.events, EventKind.Paused);
    CollectCounts(h, end);
    BudgetMonotone(j.attempt, j.attempt + 1);
  }

  lemma FailureRetries(j: JobView, h: History, end: WorkerEnd, delayMs: nat)
    requires HistoryOk(j, h) && j.state.Running? && IsFailure(end) && j.attempt < j.request.retries
    requires BACKOFF_STRATEGY.NextDelayMs(j.attempt) == Some(delayMs)
    ensures HistoryOk(j.Retried(), h.(
      events := h.events + [RetryScheduled(j.attempt + 1, delayMs)],
      ends := h.ends + [end],
      timers := h.timers + [j.attempt + 1]))
  {
    var e := RetryScheduled(j.attempt + 1, delayMs);
    assert BudgetMs(j.attempt + 1) == BudgetMs(j.attempt) + CappedMs(j.attempt);
    assert h.timers != [] ==> h.timers[|h.timers| - 1] in h.timers;
    assert Follow(Replay(h.events), e) == FollowRetry(Replay(h.events), j.attempt + 1, delayMs);
    hide Replay, Follow, Failures, BudgetMs, CappedMs, ExponentialBackoff.NextDelayMs;
    ReplayAppend(h.events, e);
    CollectCounts(h, end);
    DelayAtMostCapped(j.attempt);
  }

  /** Ending a job without a worker in flight. */
  lemma IdleEnds(j: JobView, h: History, outcome: Outcome)
    requires HistoryOk(j, h) && !j.state.InFlight() && outcome.Err? && j.attempt <= j.request.retries
    ensures FinishedOk(h.(events := h.events + [TerminalKind(outcome)], results := h.results + [outcome]))
  {
    ReplayAppend(h.events, TerminalKind(outcome));
    BudgetMonotone(j.attempt, j.request.retries);
  }

  /** Ending a job as its worker comes back. */
  lemma WorkerEnds(j: JobView, h: History, end: WorkerEnd, outcome: Outcome)
    requires HistoryOk(j, h) && j.state.InFlight() && j.attempt <= j.request.retries
    ensures FinishedOk(h.(
      events := h.events + [TerminalKind(outcome)],
      results := h.results + [outcome],
      ends := h.ends + [end]))
  {
    ReplayAppend(h.events, TerminalKind(outcome));
    CollectCounts(h, end);
    BudgetMonotone(j.attempt, j.request.retries);
  }

  // ----- replies

  lemma WaitersAnswered(out: Record, id: Id, waiters: seq<Ack>, reply: Reply)
    requires WaitersOk(out, id, waiters)
    ensures out.AnswerAll(waiters, reply).downloads == out.downloads
    ensures out.AnswerAll(waiters, reply).acks.Keys == out.acks.Keys
    ensures forall a :: a in out.acks && a !in waiters ==> out.AnswerAll(waiters, reply).acks[a] == out.acks[a]
    ensures forall a :: a in waiters ==> out.AnswerAll(waiters, reply).acks[a] == AckCell(id, true, [reply])
  {
    out.AnswerAllOnce(waiters, reply);
  }

  /** `s` with one more request, already answered. */
  function Logged(s: State, ack: Ack, id: Id, pausing: bool, reply: Reply): State {
    s.(out := s.out.(acks := s.out.acks[ack := AckCell(id, pausing, [reply])]))
  }

  lemma ReceivedThenAnswered(out: Record, ack: Ack, id: Id, pausing: bool, reply: Reply)
    ensures out.Receive(ack, id, pausing).Answer(ack, reply) ==
      out.(acks := out.acks[ack := AckCell(id, pausing, [reply])])
  {
    var once := out.acks[ack := AckCell(id, pausing, [])];
    assert out.Receive(ack, id, pausing).CellOf(ack).replies + [reply] == [reply];
    assert once[ack := AckCell(id, pausing, [reply])] == out.acks[ack := AckCell(id, pausing, [reply])];
  }

  lemma LoggedKeeps(s: State, ack: Ack, id: Id, pausing: bool, reply: Reply)
    requires Core(s) && ack !in s.out.acks
    ensures Core(Logged(s, ack, id, pausing, reply))
  {
    hide HistoryOk, FinishedOk;
    var t := Logged(s, ack, id, pausing, reply);
    forall i: Id
      ensures IdOk(t, i)
    {
      assert IdOk(s, i);
    }
    forall a | a in t.out.acks
      ensures AckOk(t, a)
    {
      assert a != ack ==> AckOk(s, a);
    }
  }

  // ----- jobs taken out of the tables

  /** All is in order but for `id`, whose job is in no queue and has no worker. */
  ghost predicate Detached(p: State, id: Id) {
    && (forall i: Id :: i != id ==> IdOk(p, i))
    && (forall a :: a in p.out.acks ==> AckOk(p, a))
    && Distinct(p.ready)
    && id !in p.ready
    && (forall i :: i in p.ready ==> i in p.jobs && p.jobs[i].state.Queued?)
    && (!p.root ==> forall i :: i in p.jobs && i != id && p.jobs[i].state.Queued? ==> i in p.ready)
    && p.workers[id] == 0
    && (forall k: nat :: p.delayed[(id, k)] <= 1)
    && id in p.out.downloads
    && (forall k: nat :: p.delayed[(id, k)] > 0 ==> k in p.out.downloads[id].timers)
    && id in p.jobs
    && p.jobs[id].id == id
    && (p.jobs[id].state.Pausing? ==> WaitersOk(p.out, id, p.jobs[id].state.waiters))
  }

  /** Moving a detached job on, once its own entries are right, restores the invariant. */
  lemma Reattach(p: State, t: State, id: Id)
    requires Detached(p, id) && OnlyAt(p, t, id)
    requires IdOk(t, id)
    requires forall a :: a in t.out.acks && t.out.acks[a].target == id ==> AckOk(t, a)
    requires t.root == p.root && (t.ready == p.ready || t.ready == p.ready + [id])
    requires id in t.ready <==> id in t.jobs && t.jobs[id].state.Queued?
    ensures Core(t)
  {
    hide HistoryOk, FinishedOk;
    forall i: Id | i != id
      ensures IdOk(t, i)
    {
      assert IdOk(p, i) && SameAt(p, t, i);
      assert p.out.Of(i) == t.out.Of(i);
      if i in t.jobs && t.jobs[i].state.Pausing? {
        assert WaitersOk(p.out, i, t.jobs[i].state.waiters);
      }
    }
    forall a | a in t.out.acks && t.out.acks[a].target != id
      ensures AckOk(t, a)
    {
      assert AckOk(p, a) && SameAt(p, t, t.out.acks[a].target);
    }
    forall i | i != id
      ensures i in t.ready <==> i in p.ready
    {
    }
    forall i | i in t.jobs && i != id
      ensures i in p.jobs && t.jobs[i] == p.jobs[i]
    {
      assert SameAt(p, t, i);
    }
    forall i | i in p.jobs && i != id
      ensures i in t.jobs && t.jobs[i] == p.jobs[i]
    {
      assert SameAt(p, t, i);
    }
  }

  lemma FinishKeeps(p: State, id: Id, outcome: Outcome)
    requires Detached(p, id)
    requires var h := p.out.downloads[id];
      FinishedOk(h.(events := h.events + [TerminalKind(outcome)], results := h.results + [outcome]))
    ensures Core(Finish(p, id, outcome))
  {
    hide HistoryOk, FinishedOk;
    var t := Finish(p, id, outcome);
    WaitersAnswered(p.out, id, p.jobs[id].state.Waiting(), ReplyFor(outcome));
    forall a | a in t.out.acks && t.out.acks[a].target == id
      ensures AckOk(t, a)
    {
      assert AckOk(p, a);
    }
    assert OnlyAt(p, t, id);
    assert IdOk(t, id);
    Reattach(p, t, id);
  }

  lemma ParkKeeps(p: State, id: Id, j: JobView)
    requires Detached(p, id) && j.id == id && j.state == p.jobs[id].state && j.attempt <= j.request.retries
    requires var h := p.out.downloads[id]; HistoryOk(j.Paused(), h.(events := h.events + [EventKind.Paused]))
    ensures Core(Parked(p, id, j))
  {
    hide HistoryOk, FinishedOk;
    var t := Parked(p, id, j);
    WaitersAnswered(p.out, id, j.state.Waiting(), Ok(()));
    forall a | a in t.out.acks && t.out.acks[a].target == id
      ensures AckOk(t, a)
    {
      assert AckOk(p, a);
    }
    assert OnlyAt(p, t, id);
    assert IdOk(t, id);
    Reattach(p, t, id);
  }
  // ----- one lemma for each arm

  lemma FrontLeaves(ids: seq<Id>)
    requires Distinct(ids) && ids != []
    ensures Distinct(ids[1..]) && ids[0] !in ids[1..]
    ensures forall x :: x in ids <==> x == ids[0] || x in ids[1..]
  {
    var rest := ids[1..];
    assert ids == [ids[0]] + rest;
    forall i, j | 0 <= i < j < |rest|
      ensures rest[i] != rest[j]
    {
      assert rest[i] == ids[i + 1] && rest[j] == ids[j + 1];
    }
  }

  lemma DispatchKeepsReady(s: State, r: State)
    requires Core(s) && s.ready != [] && r == DispatchFront(s)
    ensures ReadyOk(r) && s.ready[0] in s.jobs && s.jobs[s.ready[0]].state.Queued?
  {
    hide HistoryOk, FinishedOk, IdOk, AckOk, Distinct;
    assert ReadyOk(s);
    FrontLeaves(s.ready);
  }

  /** With the root token cancelled the front id is dropped; its job stays queued in the table. */
  lemma DropKeeps(s: State, r: State)
    requires Core(s) && ReadyOk(r) && r == s.(ready := r.ready)
    ensures Core(r)
  {
    hide HistoryOk, FinishedOk, ReadyOk;
    forall i: Id
      ensures IdOk(r, i)
    {
      assert IdOk(s, i);
    }
    forall a | a in r.out.acks
      ensures AckOk(r, a)
    {
      assert AckOk(s, a);
    }
  }

  lemma DispatchKeeps(s: State, r: State)
    requires Core(s) && s.ready != [] && r == DispatchFront(s)
    ensures Core(r)
  {
    hide HistoryOk, FinishedOk, Moves, ReadyOk;
    var id := s.ready[0];
    DispatchKeepsReady(s, r);
    if s.root {
      DropKeeps(s, r);
    } else {
      assert IdOk(s, id);
      MoveTable();
      EventKeepsHistory(s.jobs[id], s.out.downloads[id], Started, JobState.Running);
      assert OnlyAt(s, r, id);
      assert IdOk(r, id);
      LocalStep(s, r, id);
    }
  }

  lemma NewHistory(id: Id, request: Request)
    ensures HistoryOk(JobView(id, request, 0, JobState.Queued),
      NO_HISTORY.(request := request, events := [EventKind.Queued]))
  {
    ReplayAppend([], EventKind.Queued);
    assert [] + [EventKind.Queued] == [EventKind.Queued];
  }

  lemma EnqueueKeeps(s: State, id: Id, request: Request, r: State)
    requires Core(s) && id !in s.out.downloads
    requires r == HandleCmd(s, Enqueue(id, request), [], map[])
    ensures Core(r)
  {
    hide Core, HistoryOk;
    NewHistory(id, request);
    var h := NO_HISTORY.(request := request, events := [EventKind.Queued]);
    assert NO_HISTORY.events + [EventKind.Queued] == [EventKind.Queued];
    assert s.out.downloads[id := NO_HISTORY.(request := request)][id := h] == s.out.downloads[id := h];
    AdmittedKeeps(s, JobView(id, request, 0, JobState.Queued), h, r);
  }

  lemma AdmittedKeeps(s: State, j: JobView, h: History, r: State)
    requires Core(s) && j.id !in s.out.downloads && j.state.Queued? && j.attempt == 0 && HistoryOk(j, h)
    requires r == s.(
      jobs := s.jobs[j.id := j],
      ready := s.ready + [j.id],
      out := s.out.(downloads := s.out.downloads[j.id := h]))
    ensures Core(r)
  {
    hide FinishedOk, HistoryOk;
    assert IdOk(s, j.id);
    assert j.id !in s.jobs && j.id !in s.ready;
    assert OnlyAt(s, r, j.id);
    assert IdOk(r, j.id);
    LocalStep(s, r, j.id);
  }

  /** Putting a parked or retrying job back in the queue. */
  lemma RequeueKeeps(s: State, id: Id)
    requires Core(s) && id in s.jobs && (s.jobs[id].state.Paused? || s.jobs[id].state.Retrying?)
    ensures Core(Requeued(s, id))
  {
    hide HistoryOk, FinishedOk, Moves;
    var r := Requeued(s, id);
    assert IdOk(s, id);
    MoveTable();
    EventKeepsHistory(s.jobs[id], s.out.downloads[id], EventKind.Queued, JobState.Queued);
    assert OnlyAt(s, r, id);
    assert IdOk(r, id);
    LocalStep(s, r, id);
  }

  /** A timer that fires is used up, whether or not its job still waits for it. */
  lemma TimerFiredKeeps(s: State, id: Id, attempt: nat, r: State)
    requires Core(s) && (id, attempt) in s.delayed
    requires r == OnRetryElapsed(s.(delayed := s.delayed - multiset{(id, attempt)}), id, attempt)
    ensures Core(r)
  {
    hide HistoryOk, FinishedOk;
    assert IdOk(s, id);
    if id in s.jobs && s.jobs[id].state == JobState.Retrying(attempt) {
      RequeueKeeps(s, id);
      assert r == Spent(Requeued(s, id), id, attempt);
      SpentKeeps(Requeued(s, id), id, attempt);
    } else {
      assert r == Spent(s, id, attempt);
      SpentKeeps(s, id, attempt);
    }
  }

  function Spent(s: State, id: Id, attempt: nat): State {
    s.(delayed := s.delayed - multiset{(id, attempt)})
  }

  /** Losing a timer no job waits for breaks nothing. */
  lemma SpentKeeps(s: State, id: Id, attempt: nat)
    requires Core(s) && (id in s.jobs ==> s.jobs[id].state != JobState.Retrying(attempt))
    ensures Core(Spent(s, id, attempt))
  {
    hide HistoryOk, FinishedOk;
    var r := Spent(s, id, attempt);
    assert IdOk(s, id);
    assert OnlyAt(s, r, id);
    assert IdOk(r, id);
    LocalStep(s, r, id);
  }

  /** Taking an idle job out of the ready queue leaves it detached. */
  lemma IdleDetaches(s: State, id: Id)
    requires Core(s) && id in s.jobs && !s.jobs[id].state.InFlight()
    ensures Detached(s.(ready := Without(s.ready, id)), id)
  {
    hide HistoryOk, FinishedOk, Moves;
    var p := s.(ready := Without(s.ready, id));
    WithoutIs(s.ready, id);
    assert IdOk(s, id);
    forall i: Id | i != id
      ensures IdOk(p, i)
    {
      assert IdOk(s, i);
    }
    forall a | a in p.out.acks
      ensures AckOk(p, a)
    {
      assert AckOk(s, a);
    }
  }

  lemma IdleParkKeeps(s: State, id: Id)
    requires Core(s) && id in s.jobs && (s.jobs[id].state.Queued? || s.jobs[id].state.Retrying?)
    ensures Core(Parked(s.(ready := Without(s.ready, id)), id, s.jobs[id]))
  {
    hide HistoryOk, FinishedOk, Moves;
    assert IdOk(s, id);
    IdleDetaches(s, id);
    MoveTable();
    EventKeepsHistory(s.jobs[id], s.out.downloads[id], EventKind.Paused, JobState.Paused);
    ParkKeeps(s.(ready := Without(s.ready, id)), id, s.jobs[id]);
  }

  /** Recording a request before an idle job is parked changes nothing but the request's entry. */
  lemma ParkedReply(s: State, id: Id, j: JobView, ack: Ack)
    requires !j.state.Pausing? && ack !in s.out.acks
    ensures Replied(Parked(s.(out := s.out.Receive(ack, id, true)), id, j), ack, Ok(())) ==
      Logged(Parked(s, id, j), ack, id, true, Ok(()))
  {
    assert j.PauseOut(s.out) == s.out.Emit(j.id, EventKind.Paused);
    var received := s.out.Receive(ack, id, true);
    assert j.PauseOut(received) == received.Emit(j.id, EventKind.Paused);
    ReceivedThenAnswered(s.out, ack, id, true, Ok(()));
  }

  lemma PauseKeeps(s: State, id: Id, ack: Ack, r: State)
    requires Core(s) && ack !in s.out.acks && r == OnPause(s, id, ack)
    ensures Core(r)
  {
    hide Core, Logged, Without;
    if id !in s.jobs {
      PauseLogged(s, id, ack, Err(Unknown));
      LoggedKeeps(s, ack, id, true, Err(Unknown));
    } else {
      match s.jobs[id].state
      case Running => PauseRunningKeeps(s, id, ack, r);
      case Pausing(_) => PauseAgainKeeps(s, id, ack, r);
      case Paused =>
        PauseLogged(s, id, ack, Ok(()));
        LoggedKeeps(s, ack, id, true, Ok(()));
      case Cancelling =>
        PauseLogged(s, id, ack, Err(InvalidRequest));
        LoggedKeeps(s, ack, id, true, Err(InvalidRequest));
      case _ => PauseIdleKeeps(s, id, ack, r);
    }
  }

  /** A pause that changes no job is answered in the same step. */
  lemma PauseLogged(s: State, id: Id, ack: Ack, reply: Reply)
    requires if id !in s.jobs then reply == Err(Unknown)
             else if s.jobs[id].state.Paused? then reply == Ok(())
             else s.jobs[id].state.Cancelling? && reply == Err(InvalidRequest)
    ensures OnPause(s, id, ack) == Logged(s, ack, id, true, reply)
  {
    ReceivedThenAnswered(s.out, ack, id, true, reply);
  }

  lemma PauseIdleKeeps(s: State, id: Id, ack: Ack, r: State)
    requires Core(s) && ack !in s.out.acks && r == OnPause(s, id, ack)
    requires id in s.jobs && (s.jobs[id].state.Queued? || s.jobs[id].state.Retrying?)
    ensures Core(r)
  {
    var p := s.(ready := Without(s.ready, id));
    WithoutIs(s.ready, id);
    assert s.jobs[id].state.Retrying? ==> p == s by {
      assert ReadyOk(s);
    }
    IdleParkKeeps(s, id);
    ParkedReply(p, id, s.jobs[id], ack);
    ParkKeepsAcks(p, id);
    hide Core, Logged, Without, Parked;
    assert r == Logged(Parked(p, id, s.jobs[id]), ack, id, true, Ok(()));
    LoggedKeeps(Parked(p, id, s.jobs[id]), ack, id, true, Ok(()));
  }

  lemma ParkKeepsAcks(s: State, id: Id)
    requires id in s.jobs && !s.jobs[id].state.Pausing?
    ensures Parked(s, id, s.jobs[id]).out.acks == s.out.acks
  {
    assert s.out.AnswerAll([], Ok(())) == s.out;
  }

  /** A running job that is asked to stop, and a stopping one that is asked again. */
  lemma PauseRunningKeeps(s: State, id: Id, ack: Ack, r: State)
    requires Core(s) && ack !in s.out.acks && r == OnPause(s, id, ack)
    requires id in s.jobs && s.jobs[id].state.Running?
    ensures Core(r)
  {
    hide Core, HistoryOk;
    var p := s.(out := s.out.Receive(ack, id, true));
    assert r == SetState(p, id, JobState.Pausing([ack]), PauseStarted).(stops := s.stops + {id});
    hide OnPause;
    LiveHistory(s, id);
    MoveTable();
    EventKeepsHistory(s.jobs[id], s.out.downloads[id], PauseStarted, JobState.Pausing([ack]));
    var j := s.jobs[id].(state := JobState.Pausing([ack]));
    WaiterJoins(s, id, ack, j, s.out.downloads[id].events + [PauseStarted], r);
  }

  lemma PauseAgainKeeps(s: State, id: Id, ack: Ack, r: State)
    requires Core(s) && ack !in s.out.acks && r == OnPause(s, id, ack)
    requires id in s.jobs && s.jobs[id].state.Pausing?
    ensures Core(r)
  {
    hide Core, HistoryOk;
    var j := s.jobs[id].(state := JobState.Pausing(s.jobs[id].state.waiters + [ack]));
    assert r == s.(jobs := s.jobs[id := j], out := s.out.Receive(ack, id, true));
    hide OnPause;
    LiveHistory(s, id);
    WaitingKeepsHistory(s.jobs[id], s.out.downloads[id], j.state);
    var h := s.out.downloads[id];
    assert s.out.downloads == s.out.downloads[id := h.(events := h.events)];
    WaiterJoins(s, id, ack, j, h.events, r);
  }

  lemma LiveHistory(s: State, id: Id)
    requires Core(s) && id in s.jobs
    ensures id in s.out.downloads && HistoryOk(s.jobs[id], s.out.downloads[id])
    ensures s.jobs[id].state.InFlight() && !s.jobs[id].state.Running? ==> id in s.stops
  {
    assert IdOk(s, id);
  }

  lemma WaitingKeepsHistory(j: JobView, h: History, st: JobState)
    requires HistoryOk(j, h) && st.ToTag() == j.state.ToTag()
    ensures HistoryOk(j.(state := st), h)
  {
  }

  /** One more request waits for the worker of a job that is being paused. */
  lemma WaiterJoins(s: State, id: Id, ack: Ack, j: JobView, events: seq<EventKind>, r: State)
    requires Core(s) && ack !in s.out.acks && id in s.jobs && id in s.out.downloads
    requires s.jobs[id].state.Running? || s.jobs[id].state.Pausing?
    requires j == s.jobs[id].(state := JobState.Pausing(s.jobs[id].state.Waiting() + [ack]))
    requires HistoryOk(j, s.out.downloads[id].(events := events))
    requires r == s.(
      jobs := s.jobs[id := j],
      stops := s.stops + {id},
      out := Record(s.out.downloads[id := s.out.downloads[id].(events := events)],
                    s.out.acks[ack := AckCell(id, true, [])]))
    ensures Core(r)
  {
    hide HistoryOk, FinishedOk;
    assert IdOk(s, id);
    assert OnlyAt(s, r, id);
    assert IdOk(r, id);
    forall a | a in r.out.acks && r.out.acks[a].target == id
      ensures AckOk(r, a)
    {
      assert a != ack ==> AckOk(s, a);
    }
    LocalStep(s, r, id);
  }

  function ResumeReply(s: State, id: Id): Reply {
    if id !in s.jobs then Err(Unknown)
    else if s.jobs[id].state.Pausing? || s.jobs[id].state.Cancelling? then Err(InvalidRequest)
    else Ok(())
  }

  /** A resume is answered in the same step, and requeues the job if it was paused. */
  lemma ResumeLogged(s: State, id: Id, ack: Ack)
    ensures var r := if id in s.jobs && s.jobs[id].state.Paused? then Requeued(s, id) else s;
      OnResume(s, id, ack) == Logged(r, ack, id, false, ResumeReply(s, id))
  {
    if id in s.jobs && s.jobs[id].state.Paused? {
      ReceivedThenAnswered(Requeued(s, id).out, ack, id, false, Ok(()));
    } else {
      ReceivedThenAnswered(s.out, ack, id, false, ResumeReply(s, id));
    }
  }

  lemma ResumeKeeps(s: State, id: Id, ack: Ack, r: State)
    requires Core(s) && ack !in s.out.acks && r == OnResume(s, id, ack)
    ensures Core(r)
  {
    hide Core, OnResume, Requeued, Logged;
    ResumeLogged(s, id, ack);
    if id in s.jobs && s.jobs[id].state.Paused? {
      RequeueKeeps(s, id);
      RequeueKeepsAcks(s, id);
      LoggedKeeps(Requeued(s, id), ack, id, false, Ok(()));
    } else {
      LoggedKeeps(s, ack, id, false, ResumeReply(s, id));
    }
  }

  lemma RequeueKeepsAcks(s: State, id: Id)
    requires id in s.jobs
    ensures Requeued(s, id).out.acks == s.out.acks
  {
  }

  lemma CancelKeeps(s: State, id: Id, discard: Option<Error>, r: State)
    requires Core(s) && r == OnCancel(s, id, discard)
    ensures Core(r)
  {
    hide HistoryOk, FinishedOk, Moves;
    assert IdOk(s, id);
    if id in s.jobs {
      if s.jobs[id].state.InFlight() {
        CancelInFlightKeeps(s, id, discard, r);
      } else {
        IdleDetaches(s, id);
        IdleEnds(s.jobs[id], s.out.downloads[id], Discarded(discard));
        FinishKeeps(s.(ready := Without(s.ready, id)), id, Discarded(discard));
      }
    }
  }

  lemma CancelInFlightKeeps(s: State, id: Id, discard: Option<Error>, r: State)
    requires Core(s) && r == OnCancel(s, id, discard)
    requires id in s.jobs && s.jobs[id].state.InFlight()
    ensures Core(r)
  {
    hide HistoryOk, FinishedOk, Moves;
    assert IdOk(s, id);
    MoveTable();
    match s.jobs[id].state
    case Cancelling =>
    case Running =>
      EventKeepsHistory(s.jobs[id], s.out.downloads[id], CancellationStarted, JobState.Cancelling);
      CancelRunningKeeps(s, id, r);
    case Pausing(waiters) =>
      EventKeepsHistory(s.jobs[id], s.out.downloads[id], CancellationStarted, JobState.Cancelling);
      CancelPausingKeeps(s, id, waiters, r);
  }

  lemma CancelRunningKeeps(s: State, id: Id, r: State)
    requires Core(s) && id in s.jobs && s.jobs[id].state.Running? && id in s.out.downloads
    requires r == SetState(s, id, JobState.Cancelling, CancellationStarted).(stops := s.stops + {id})
    requires var h := s.out.downloads[id];
      HistoryOk(s.jobs[id].(state := JobState.Cancelling), h.(events := h.events + [CancellationStarted]))
    ensures Core(r)
  {
    hide HistoryOk, FinishedOk;
    assert IdOk(s, id);
    assert OnlyAt(s, r, id);
    assert IdOk(r, id);
    forall a | a in r.out.acks
      ensures AckOk(r, a)
    {
      assert AckOk(s, a);
    }
    LocalStep(s, r, id);
  }

  /** Cancelling a pausing job answers its own waiters and concerns no other download. */
  lemma CancelPausingOnlyAt(s: State, id: Id, waiters: seq<Ack>, r: State)
    requires Core(s) && id in s.jobs && s.jobs[id].state == JobState.Pausing(waiters)
    requires r == OnCancel(s, id, None)
    ensures OnlyAt(s, r, id)
    ensures forall a :: a in r.out.acks && r.out.acks[a].target == id ==> AckOk(r, a)
  {
    var told := s.out.AnswerAll(waiters, Err(Error.Cancelled));
    assert r == SetState(s.(out := told), id, JobState.Cancelling, CancellationStarted);
    hide OnCancel;
    ToldOnlyAt(s, id, waiters, r);
  }

  lemma ToldOnlyAt(s: State, id: Id, waiters: seq<Ack>, r: State)
    requires Core(s) && id in s.jobs && s.jobs[id].state == JobState.Pausing(waiters)
    requires r == SetState(
      s.(out := s.out.AnswerAll(waiters, Err(Error.Cancelled))), id, JobState.Cancelling, CancellationStarted)
    ensures OnlyAt(s, r, id)
    ensures forall a :: a in r.out.acks && r.out.acks[a].target == id ==> AckOk(r, a)
  {
    hide HistoryOk, FinishedOk, ReadyOk;
    assert IdOk(s, id);
    WaitersAnswered(s.out, id, waiters, Err(Error.Cancelled));
    hide Record.AnswerAll;
    forall a | a in r.out.acks && r.out.acks[a].target == id
      ensures AckOk(r, a)
    {
      assert AckOk(s, a);
    }
  }

  lemma CancelPausingKeeps(s: State, id: Id, waiters: seq<Ack>, r: State)
    requires Core(s) && id in s.jobs && s.jobs[id].state == JobState.Pausing(waiters)
    requires r == OnCancel(s, id, None)
    requires id in s.out.downloads
    requires var h := s.out.downloads[id];
      HistoryOk(s.jobs[id].(state := JobState.Cancelling), h.(events := h.events + [CancellationStarted]))
    ensures Core(r)
  {
    hide HistoryOk, FinishedOk, OnlyAt, AckOk;
    CancelPausingOnlyAt(s, id, waiters, r);
    assert IdOk(s, id);
    WaitersAnswered(s.out, id, waiters, Err(Error.Cancelled));
    assert IdOk(r, id);
    LocalStep(s, r, id);
  }

  /** The state in which the arms of a worker's return are entered. */
  function Returned(s: State, id: Id, end: WorkerEnd): State {
    s.(workers := s.workers - multiset{id}, out := s.out.Collect(id, end))
  }

  lemma WorkerDetaches(s: State, id: Id, end: WorkerEnd)
    requires Core(s) && id in s.workers
    ensures id in s.jobs && s.jobs[id].state.InFlight()
    ensures Detached(Returned(s, id, end), id)
  {
    hide HistoryOk, FinishedOk, Moves;
    var p := Returned(s, id, end);
    assert IdOk(s, id);
    forall i: Id | i != id
      ensures IdOk(p, i)
    {
      assert IdOk(s, i);
    }
    forall a | a in p.out.acks
      ensures AckOk(p, a)
    {
      assert AckOk(s, a);
    }
  }

  lemma FinishedWorkerKeeps(s: State, id: Id, end: WorkerEnd, outcome: Outcome)
    requires Core(s) && id in s.workers
    ensures id in s.jobs && Core(Finish(Returned(s, id, end), id, outcome))
  {
    hide HistoryOk, FinishedOk;
    WorkerDetaches(s, id, end);
    assert IdOk(s, id);
    WorkerEnds(s.jobs[id], s.out.downloads[id], end, outcome);
    FinishKeeps(Returned(s, id, end), id, outcome);
  }

  lemma PausedWorkerKeeps(s: State, id: Id, end: WorkerEnd, j: JobView)
    requires Core(s) && id in s.workers && id in s.jobs && s.jobs[id].state.Pausing?
    requires if IsCleanStop(end) then j == s.jobs[id]
      else
        && IsFailure(end) && s.jobs[id].attempt < s.jobs[id].request.retries
        && j == s.jobs[id].(attempt := s.jobs[id].attempt + 1)
    ensures Core(Parked(Returned(s, id, end), id, j))
  {
    hide HistoryOk, FinishedOk;
    WorkerDetaches(s, id, end);
    assert IdOk(s, id);
    if IsCleanStop(end) {
      CleanStopParks(j, s.out.downloads[id]);
    } else {
      FailureParks(s.jobs[id], s.out.downloads[id], end);
    }
    ParkKeeps(Returned(s, id, end), id, j);
  }

  lemma FailedWorkerKeeps(s: State, id: Id, end: WorkerEnd)
    requires Core(s) && id in s.workers && id in s.jobs && s.jobs[id].state.Running?
    requires IsFailure(end) && s.jobs[id].attempt < s.jobs[id].request.retries && !s.panicked
    ensures var r := RetryLater(Returned(s, id, end), id);
      if r.panicked then PanicExplained(r) && RecordInOrder(r.out) else Core(r)
  {
    hide HistoryOk, FinishedOk;
    WorkerDetaches(s, id, end);
    assert IdOk(s, id);
    var j := s.jobs[id];
    var p := Returned(s, id, end);
    var r := RetryLater(p, id);
    match BACKOFF_STRATEGY.NextDelayMs(j.attempt)
    case None =>
      assert j.request.retries > 64 by {
        if j.attempt < 0x8000_0000 {
          DelayExactly(j.attempt);
        }
      }
      HistoryNames(j, s.out.downloads[id]);
      assert r.out.downloads[id].request.retries > 64;
      CoreInOrder(s);
      CollectInOrder(s.out, id, end);
    case Some(delayMs) =>
      FailureRetries(j, s.out.downloads[id], end, delayMs);
      FreshTimer(j, s.out.downloads[id]);
      RetryLaterKeeps(p, r, id, delayMs);
  }

  lemma CollectInOrder(out: Record, id: Id, end: WorkerEnd)
    requires RecordInOrder(out) && id in out.downloads
    ensures RecordInOrder(out.Collect(id, end))
  {
    hide Replay;
    var h := out.downloads[id];
    assert LogFits(h);
    assert LogFits(h.(ends := h.ends + [end]));
  }

  lemma HistoryNames(j: JobView, h: History)
    requires HistoryOk(j, h)
    ensures h.request == j.request
  {
  }

  lemma FreshTimer(j: JobView, h: History)
    requires HistoryOk(j, h)
    ensures forall k :: k in h.timers ==> k < j.attempt + 1
  {
  }

  lemma RetryLaterKeeps(p: State, r: State, id: Id, delayMs: nat)
    requires Detached(p, id) && p.jobs[id].attempt < p.jobs[id].request.retries
    requires BACKOFF_STRATEGY.NextDelayMs(p.jobs[id].attempt) == Some(delayMs)
    requires r == RetryLater(p, id) && !p.jobs[id].state.Pausing?
    requires forall k :: k in p.out.downloads[id].timers ==> k < p.jobs[id].attempt + 1
    requires var h := p.out.downloads[id];
      HistoryOk(p.jobs[id].Retried(), h.(
        events := h.events + [RetryScheduled(p.jobs[id].attempt + 1, delayMs)],
        timers := h.timers + [p.jobs[id].attempt + 1]))
    ensures Core(r)
  {
    hide HistoryOk, FinishedOk;
    assert OnlyAt(p, r, id);
    assert p.delayed[(id, p.jobs[id].attempt + 1)] == 0;
    assert IdOk(r, id);
    forall a | a in r.out.acks && r.out.acks[a].target == id
      ensures AckOk(r, a)
    {
      assert AckOk(p, a);
    }
    Reattach(p, r, id);
  }

  /** Which arms a returning worker can reach. */
  lemma ReachableArms(s: State, id: Id, end: WorkerEnd)
    requires Core(s) && id in s.workers
    ensures id in s.jobs
    ensures ArmFor(s.jobs[id].state, end) != Invalid
    ensures ArmFor(s.jobs[id].state, end).FailsAndRetries? ==> s.jobs[id].state.Running?
    ensures ArmFor(s.jobs[id].state, end).StoppedByRoot? ==> s.jobs[id].state.Running? && id !in s.stops
  {
    hide HistoryOk, FinishedOk;
    assert IdOk(s, id);
  }

  lemma WorkerKeeps(s: State, id: Id, end: WorkerEnd, discard: Option<Error>, r: State)
    requires Core(s) && id in s.workers && !s.panicked
    requires r == OnWorker(s.(workers := s.workers - multiset{id}), id, end, discard)
    ensures if r.panicked then PanicExplained(r) && RecordInOrder(r.out) else Core(r)
  {
    hide HistoryOk, FinishedOk, Core, IdOk;
    ReachableArms(s, id, end);
    match ArmFor(s.jobs[id].state, end)
    case Completes => FinishedWorkerKeeps(s, id, end, Ok(end.value.result));
    case CancelsNow => FinishedWorkerKeeps(s, id, end, Discarded(discard));
    case PausesCleanly => PausedWorkerKeeps(s, id, end, s.jobs[id]);
    case PausesAfterFailure =>
      if s.jobs[id].attempt >= s.jobs[id].request.retries {
        FinishedWorkerKeeps(s, id, end, Err(end.error));
      } else {
        PausedWorkerKeeps(s, id, end, s.jobs[id].(attempt := s.jobs[id].attempt + 1));
      }
    case StoppedByRoot => FinishedWorkerKeeps(s, id, end, Discarded(discard));
    case FailsAndRetries =>
      if s.jobs[id].attempt >= s.jobs[id].request.retries {
        FinishedWorkerKeeps(s, id, end, Err(end.error));
      } else {
        FailedWorkerKeeps(s, id, end);
      }
    case FailsForGood => FinishedWorkerKeeps(s, id, end, Err(end.error));
  }

  // ----- cancelling everything

  /** A cancelled job is gone or waits for its worker; no other job is touched. */
  ghost predicate CancelledAt(s: State, r: State, id: Id) {
    && (id in r.jobs ==> id in s.jobs && r.jobs[id].state.Cancelling?)
    && (forall i :: i != id ==> (i in r.jobs <==> i in s.jobs) && (i in s.jobs ==> r.jobs[i] == s.jobs[i]))
    && r.panicked == s.panicked && r.draining == s.draining && r.root == s.root
  }

  lemma CancelTouches(s: State, id: Id, discard: Option<Error>)
    ensures CancelledAt(s, OnCancel(s, id, discard), id)
  {
    hide JobView.FinalizeOut, Without, Record.Emit, Record.AnswerAll, Discarded;
    var r := OnCancel(s, id, discard);
    if id in s.jobs {
      var j := s.jobs[id];
      assert r.jobs == match j.state {
        case Cancelling => s.jobs
        case Running => s.jobs[id := j.(state := JobState.Cancelling)]
        case Pausing(_) => s.jobs[id := j.(state := JobState.Cancelling)]
        case _ => s.jobs - {id}
      };
    }
  }

  /** The jobs `order` names have been cancelled, the rest are as before. */
  ghost predicate CancelledAll(s: State, r: State, order: seq<Id>) {
    && (forall id :: id in r.jobs ==> id in s.jobs)
    && (forall id :: id in order && id in r.jobs ==> r.jobs[id].state.Cancelling?)
    && r.panicked == s.panicked && r.draining == s.draining && r.root == s.root
  }

  lemma CancelledOneMore(s: State, mid: State, r: State, front: seq<Id>, id: Id)
    requires CancelledAll(s, mid, front) && CancelledAt(mid, r, id)
    ensures CancelledAll(s, r, front + [id])
  {
  }

  lemma {:induction false} CancelEachKeeps(s: State, order: seq<Id>, discards: map<Id, Error>)
    requires Core(s)
    ensures Core(CancelEach(s, order, discards))
    ensures CancelledAll(s, CancelEach(s, order, discards), order)
  {
    hide Core, OnCancel;
    if order != [] {
      var front := order[..|order| - 1];
      var id := order[|order| - 1];
      assert order == front + [id];
      CancelEachKeeps(s, front, discards);
      var mid := CancelEach(s, front, discards);
      var r := CancelEach(s, order, discards);
      CancelKeeps(mid, id, DiscardOf(discards, id), r);
      CancelTouches(mid, id, DiscardOf(discards, id));
      CancelledOneMore(s, mid, r, front, id);
    }
  }

  lemma CancelAllKeeps(s: State, order: seq<Id>, discards: map<Id, Error>)
    requires Core(s) && Walks(order, s.jobs)
    ensures Core(OnCancelAll(s, order, discards))
    ensures var r := OnCancelAll(s, order, discards);
      && r.panicked == s.panicked && r.draining == s.draining && r.root == s.root
      && r.ready == [] && r.delayed == multiset{}
      && (forall id :: id in r.jobs ==> r.jobs[id].state.Cancelling?)
  {
    hide HistoryOk, FinishedOk;
    CancelEachKeeps(s, order, discards);
    var mid := CancelEach(s, order, discards);
    var r := OnCancelAll(s, order, discards);
    forall id: Id
      ensures IdOk(r, id)
    {
      assert IdOk(mid, id);
    }
    forall a | a in r.out.acks
      ensures AckOk(r, a)
    {
      assert AckOk(mid, a);
    }
  }

  // ----- every step

  lemma InitialInv(maxConcurrent: nat)
    ensures Inv(Initial(maxConcurrent))
  {
  }

  /** While draining, only workers come back and the root token may be cancelled. */
  lemma DrainStep(s: State, a: Action)
    requires Inv(s) && Enabled(s, a) && s.draining && Core(Apply(s, a))
    ensures DrainOk(Apply(s, a))
  {
    hide HistoryOk, FinishedOk, IdOk, AckOk, ReadyOk;
    match a
    case RootCancelled =>
    case WorkerDone(id, end, _) =>
      if id in s.jobs {
        assert s.jobs[id].state.Cancelling?;
        assert ArmFor(s.jobs[id].state, end).Completes? || ArmFor(s.jobs[id].state, end).CancelsNow?;
      }
  }

  lemma RootKeeps(s: State)
    requires Core(s)
    ensures Core(s.(root := true))
  {
    hide HistoryOk, FinishedOk;
    var r := s.(root := true);
    forall id: Id
      ensures IdOk(r, id)
    {
      assert IdOk(s, id);
    }
    forall a | a in r.out.acks
      ensures AckOk(r, a)
    {
      assert AckOk(s, a);
    }
  }

  lemma LimitKeeps(s: State, limit: nat)
    requires Core(s)
    ensures Core(s.(maxConcurrent := limit))
  {
    hide HistoryOk, FinishedOk;
    var r := s.(maxConcurrent := limit);
    forall id: Id
      ensures IdOk(r, id)
    {
      assert IdOk(s, id);
    }
    forall a | a in r.out.acks
      ensures AckOk(r, a)
    {
      assert AckOk(s, a);
    }
  }

  lemma DrainingSet(s: State)
    requires Core(s)
    ensures Core(s.(draining := true))
  {
    hide HistoryOk, FinishedOk;
    var r := s.(draining := true);
    forall id: Id
      ensures IdOk(r, id)
    {
      assert IdOk(s, id);
    }
    forall a | a in r.out.acks
      ensures AckOk(r, a)
    {
      assert AckOk(s, a);
    }
  }

  lemma CommandKeeps(s: State, cmd: SchedulerSpec.Command, order: seq<Id>, discards: map<Id, Error>)
    requires Core(s) && !s.draining && Enabled(s, Action.Command(cmd, order, discards))
    ensures Core(HandleCmd(s, cmd, order, discards))
    ensures !HandleCmd(s, cmd, order, discards).panicked && !HandleCmd(s, cmd, order, discards).draining
  {
    hide Core;
    var r := HandleCmd(s, cmd, order, discards);
    match cmd
    case Enqueue(id, request) => EnqueueKeeps(s, id, request, r);
    case PauseJob(id, ack) => PauseKeeps(s, id, ack, r);
    case ResumeJob(id, ack) => ResumeKeeps(s, id, ack, r);
    case CancelJob(id) => CancelKeeps(s, id, DiscardOf(discards, id), r);
    case CancelAll => CancelAllKeeps(s, order, discards);
    case SetMaxConcurrent(limit) => LimitKeeps(s, limit);
  }

  lemma StepKeeps(s: State, a: Action)
    requires Inv(s) && Enabled(s, a)
    ensures Inv(Apply(s, a))
  {
    hide Core;
    var r := Apply(s, a);
    match a {
      case RootCancelled => RootKeeps(s);
      case Command(cmd, order, discards) => CommandKeeps(s, cmd, order, discards);
      case WorkerDone(id, end, discard) => WorkerKeeps(s, id, end, discard, r);
      case TimerFired(id, attempt) => TimerFiredKeeps(s, id, attempt, r);
      case TryStart => DispatchKeeps(s, r);
      case Shutdown(order, discards) =>
        CancelAllKeeps(s, order, discards);
        DrainingSet(OnCancelAll(s, order, discards));
    }
    if s.draining && !r.panicked {
      DrainStep(s, a);
    }
  }

  /** The invariant holds in every state the scheduler can reach. */
  lemma {:induction false} ReachableInv(s: State, acts: seq<Action>)
    requires Inv(s) && Legal(s, acts)
    ensures Inv(Exec(s, acts))
    decreases |acts|
  {
    hide Inv;
    if acts != [] {
      StepKeeps(s, acts[0]);
      ReachableInv(Apply(s, acts[0]), acts[1..]);
    }
  }
}
