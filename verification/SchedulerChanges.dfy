/** The words in which the effects of the scheduler's steps are told, and what its building blocks do in them. */
module SchedulerChanges {
  import opened Types
  import opened Jobs
  import opened SchedulerSpec
  import opened SchedulerInvariant

  // ----- how a change is described

  /** What a step adds to the history of one download. */
  datatype News = News(events: seq<EventKind>, results: seq<Outcome>, ends: seq<WorkerEnd>, timers: seq<nat>)

  function Heard(h: History, n: News): History {
    History(h.request, h.events + n.events, h.results + n.results, h.ends + n.ends, h.timers + n.timers)
  }

  /** Of all jobs and histories only those of `id` change: the job to `job`, or away, the history by `news`. */
  ghost predicate Becomes(s: State, r: State, id: Id, job: Option<JobView>, news: News) {
    && id in s.jobs && id in s.out.downloads
    && r.jobs == (match job case None => s.jobs - {id} case Some(j) => s.jobs[id := j])
    && r.out.downloads == s.out.downloads[id := Heard(s.out.downloads[id], news)]
  }

  /** Exactly these requests are answered, with this reply. */
  ghost predicate Answers(s: State, r: State, waiters: seq<Ack>, reply: Reply) {
    && r.out.acks.Keys == s.out.acks.Keys
    && (forall a :: a in waiters ==> a in s.out.acks)
    && forall a :: a in s.out.acks ==>
         r.out.acks[a] == if a in waiters then s.out.acks[a].(replies := [reply]) else s.out.acks[a]
  }

  ghost predicate SameSettings(s: State, r: State) {
    r.maxConcurrent == s.maxConcurrent && r.root == s.root && r.draining == s.draining && r.started == s.started
  }

  ghost predicate SameWorkers(s: State, r: State) {
    r.workers == s.workers && r.delayed == s.delayed
  }

  /** Which event announces a result. */
  function Ending(outcome: Outcome): EventKind {
    if outcome.Ok? then Completed
    else if outcome.error == Error.Cancelled then EventKind.Cancelled
    else Failed(outcome.error)
  }

  /** What those who waited for a pause hear when the download ends instead. */
  function Verdict(outcome: Outcome): Reply {
    if outcome.Ok? then Ok(()) else Err(outcome.error)
  }

  /** A cancelled download's result: the cleanup may have failed. */
  function CancelledOr(discard: Option<Error>): Outcome {
    if discard.None? then Err(Error.Cancelled) else Err(discard.value)
  }

  predicate WithoutWorker(st: JobState) {
    st.Queued? || st.Retrying? || st.Paused?
  }

  // ----- facts about the tables

  lemma Known(s: State, id: Id)
    requires Core(s) && id in s.jobs
    ensures id in s.out.downloads && s.jobs[id].id == id
    ensures s.jobs[id].state.Pausing? ==> WaitersOk(s.out, id, s.jobs[id].state.waiters)
    ensures s.out.downloads[id].results == [] && s.jobs[id].request == s.out.downloads[id].request
    ensures s.jobs[id].attempt <= s.jobs[id].request.retries
    ensures s.jobs[id].state.InFlight() ==> (id in s.stops <==> !s.jobs[id].state.Running?)
    ensures Distinct(s.ready) && (id in s.ready ==> s.jobs[id].state.Queued?)
  {
    assert IdOk(s, id);
  }

  lemma TellsWaiters(s: State, id: Id, waiters: seq<Ack>, reply: Reply)
    requires WaitersOk(s.out, id, waiters)
    ensures Answers(s, s.(out := s.out.AnswerAll(waiters, reply)), waiters, reply)
    ensures s.out.AnswerAll(waiters, reply).downloads == s.out.downloads
  {
    WaitersAnswered(s.out, id, waiters, reply);
  }

  lemma TellsNobody(s: State, reply: Reply)
    ensures s.out.AnswerAll([], reply) == s.out
    ensures Answers(s, s, [], reply)
  {
  }

  /** Taking a job out of the table, with its result. */
  lemma FinishBecomes(s: State, id: Id, outcome: Outcome)
    requires id in s.jobs && id in s.out.downloads && s.jobs[id].id == id
    requires s.jobs[id].state.Pausing? ==> WaitersOk(s.out, id, s.jobs[id].state.waiters)
    ensures Becomes(s, Finish(s, id, outcome), id, None, News([Ending(outcome)], [outcome], [], []))
    ensures Answers(s, Finish(s, id, outcome), s.jobs[id].state.Waiting(), Verdict(outcome))
  {
    var waiters := s.jobs[id].state.Waiting();
    TellsNobody(s, Verdict(outcome));
    if s.jobs[id].state.Pausing? {
      TellsWaiters(s, id, waiters, Verdict(outcome));
    }
    hide Record.AnswerAll;
    var h := s.out.downloads[id];
    assert Heard(h, News([Ending(outcome)], [outcome], [], [])) ==
      h.(events := h.events + [Ending(outcome)], results := h.results + [outcome]);
  }

  /** Parking a job, with everyone told who waited for it. */
  lemma ParkedBecomes(s: State, id: Id, j: JobView)
    requires id in s.jobs && id in s.out.downloads && j.id == id && j.state == s.jobs[id].state
    requires j.state.Pausing? ==> WaitersOk(s.out, id, j.state.waiters)
    ensures Becomes(s, Parked(s, id, j), id, Some(j.(state := JobState.Paused)), News([EventKind.Paused], [], [], []))
    ensures Answers(s, Parked(s, id, j), j.state.Waiting(), Ok(()))
  {
    TellsNobody(s, Ok(()));
    if j.state.Pausing? {
      TellsWaiters(s, id, j.state.waiters, Ok(()));
    }
    hide Record.AnswerAll;
    var h := s.out.downloads[id];
    assert Heard(h, News([EventKind.Paused], [], [], [])) == h.(events := h.events + [EventKind.Paused]);
  }

  lemma EventBecomes(s: State, id: Id, st: JobState, kind: EventKind)
    requires id in s.jobs && id in s.out.downloads
    ensures Becomes(s, SetState(s, id, st, kind), id, Some(s.jobs[id].(state := st)), News([kind], [], [], []))
  {
    var h := s.out.downloads[id];
    assert Heard(h, News([kind], [], [], [])) == h.(events := h.events + [kind]);
  }

  lemma SetStateElse(s: State, id: Id, st: JobState, kind: EventKind)
    requires id in s.jobs
    ensures var r := SetState(s, id, st, kind);
      && r.ready == s.ready && r.stops == s.stops && r.out.acks == s.out.acks
      && SameSettings(s, r) && SameWorkers(s, r) && r.panicked == s.panicked
  {
  }

  lemma FinishElse(s: State, id: Id, outcome: Outcome)
    requires id in s.jobs
    ensures var r := Finish(s, id, outcome);
      r.ready == s.ready && r.stops == s.stops && SameSettings(s, r) && SameWorkers(s, r) && r.panicked == s.panicked
  {
  }
}
