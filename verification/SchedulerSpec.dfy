/**
 * The scheduler as a state machine on values. Each function is one arm of the scheduler's
 * code; what the file system answers to a cleanup, in which order a hash map is walked and
 * which event comes next are parameters.
 */
module SchedulerSpec {
  import opened Types
  import opened Backoff
  import opened Jobs

  datatype State = State(
    maxConcurrent: nat,
    jobs: map<Id, JobView>,
    ready: seq<Id>,
    delayed: multiset<(Id, nat)>,
    workers: multiset<Id>,
    stops: set<Id>,      // ids whose latest stop token was cancelled on its own
    root: bool,          // the root token, parent of all stop tokens, is cancelled
    draining: bool,      // the main loop has been left
    panicked: bool,      // the scheduler thread has died
    started: seq<Id>,    // every dispatch so far, in order
    out: Record)

  datatype JobEvent =
    | Dispatch
    | RetryElapsed(attempt: nat)
    | Pause(ack: Ack)
    | Resume(ack: Ack)
    | Cancel
    | Worker(end: WorkerEnd)

  datatype Command =
    | Enqueue(id: Id, request: Request)
    | PauseJob(id: Id, ack: Ack)
    | ResumeJob(id: Id, ack: Ack)
    | CancelJob(id: Id)
    | CancelAll
    | SetMaxConcurrent(limit: nat)

  /** One arm of the worker-completion match, in the order the arms are tried. */
  datatype Arm =
    | Completes
    | CancelsNow
    | PausesCleanly
    | PausesAfterFailure
    | StoppedByRoot
    | FailsAndRetries
    | FailsForGood
    | Invalid

  function Without(ids: seq<Id>, id: Id): seq<Id> {
    if ids == [] then []
    else (if ids[0] == id then [] else [ids[0]]) + Without(ids[1..], id)
  }

  function Schedule(s: State, j: JobView): State {
    s.(jobs := s.jobs[j.id := j], ready := s.ready + [j.id], out := s.out.Emit(j.id, EventKind.Queued))
  }

  function Discarded(discard: Option<Error>): Outcome {
    match discard
    case None => Err(Error.Cancelled)
    case Some(e) => Err(e)
  }

  /** Drops a job and tells its owner how it ended. */
  function Finish(s: State, id: Id, outcome: Outcome): State
    requires id in s.jobs
  {
    s.(jobs := s.jobs - {id}, out := s.jobs[id].FinalizeOut(s.out, outcome))
  }

  function Parked(s: State, id: Id, j: JobView): State {
    s.(jobs := s.jobs[id := j.Paused()], out := j.PauseOut(s.out))
  }

  function SetState(s: State, id: Id, st: JobState, kind: EventKind): State
    requires id in s.jobs
  {
    s.(jobs := s.jobs[id := s.jobs[id].(state := st)], out := s.out.Emit(id, kind))
  }

  function Requeued(s: State, id: Id): State
    requires id in s.jobs
  {
    SetState(s, id, JobState.Queued, EventKind.Queued).(ready := s.ready + [id])
  }

  function Replied(s: State, ack: Ack, reply: Reply): State {
    s.(out := s.out.Answer(ack, reply))
  }

  function OnDispatch(s: State, id: Id): State {
    if id !in s.jobs || !s.jobs[id].state.Queued? then s
    else
      SetState(s, id, JobState.Running, Started).(
        workers := s.workers + multiset{id},
        stops := s.stops - {id},
        started := s.started + [id])
  }

  function OnRetryElapsed(s: State, id: Id, attempt: nat): State {
    if id !in s.jobs || s.jobs[id].state != JobState.Retrying(attempt) then s else Requeued(s, id)
  }

  function OnPause(s0: State, id: Id, ack: Ack): State {
    var s := s0.(out := s0.out.Receive(ack, id, true));
    if id !in s.jobs then Replied(s, ack, Err(Unknown))
    else
      var j := s.jobs[id];
      match j.state
      case Queued => Replied(Parked(s.(ready := Without(s.ready, id)), id, j), ack, Ok(()))
      case Retrying(_) => Replied(Parked(s, id, j), ack, Ok(()))
      case Running => SetState(s, id, JobState.Pausing([ack]), PauseStarted).(stops := s.stops + {id})
      case Pausing(waiters) => s.(jobs := s.jobs[id := j.(state := JobState.Pausing(waiters + [ack]))])
      case Paused => Replied(s, ack, Ok(()))
      case Cancelling => Replied(s, ack, Err(InvalidRequest))
  }

  function OnResume(s0: State, id: Id, ack: Ack): State {
    var s := s0.(out := s0.out.Receive(ack, id, false));
    if id !in s.jobs then Replied(s, ack, Err(Unknown))
    else
      match s.jobs[id].state
      case Paused => Replied(Requeued(s, id), ack, Ok(()))
      case Queued => Replied(s, ack, Ok(()))
      case Running => Replied(s, ack, Ok(()))
      case Retrying(_) => Replied(s, ack, Ok(()))
      case Pausing(_) => Replied(s, ack, Err(InvalidRequest))
      case Cancelling => Replied(s, ack, Err(InvalidRequest))
  }

  function OnCancel(s: State, id: Id, discard: Option<Error>): State {
    if id !in s.jobs then s
    else
      match s.jobs[id].state
      case Running => SetState(s, id, JobState.Cancelling, CancellationStarted).(stops := s.stops + {id})
      case Pausing(waiters) =>
        SetState(
          s.(out := s.out.AnswerAll(waiters, Err(Error.Cancelled))), id, JobState.Cancelling, CancellationStarted)
      case Cancelling => s
      case _ => Finish(s.(ready := Without(s.ready, id)), id, Discarded(discard))
  }

  function ArmFor(st: JobState, end: WorkerEnd): Arm {
    if end.Ok? && end.value.Finished? then Completes
    else if st.Cancelling? then CancelsNow
    else if st.Pausing? && end.Ok? then PausesCleanly
    else if st.Pausing? && end.error.IsRetryable() then PausesAfterFailure
    else if st.Running? && end.Ok? then StoppedByRoot
    else if end.Err? && end.error.IsRetryable() then FailsAndRetries
    else if end.Err? then FailsForGood
    else Invalid
  }

  /** The arm that schedules a retry; the scheduler dies if the delay cannot be computed. */
  function RetryLater(s: State, id: Id): State
    requires id in s.jobs && s.jobs[id].attempt < 0xFFFF_FFFF
  {
    var j := s.jobs[id];
    match BACKOFF_STRATEGY.NextDelayMs(j.attempt)
    case None => s.(jobs := s.jobs - {id}, panicked := true)
    case Some(delayMs) =>
      s.(jobs := s.jobs[id := j.Retried()],
         delayed := s.delayed + multiset{(id, j.attempt + 1)},
         out := j.RetryOut(s.out, delayMs).StartTimer(id, j.attempt + 1))
  }

  function OnWorker(s0: State, id: Id, end: WorkerEnd, discard: Option<Error>): State {
    if id !in s0.jobs then s0
    else
      var s := s0.(out := s0.out.Collect(id, end));
      var j := s.jobs[id];
      match ArmFor(j.state, end)
      case Completes => Finish(s, id, Ok(end.value.result))
      case CancelsNow => Finish(s, id, Discarded(discard))
      case PausesCleanly => Parked(s, id, j)
      case PausesAfterFailure =>
        if j.attempt >= j.request.retries then Finish(s, id, Err(end.error))
        else Parked(s, id, j.(attempt := j.attempt + 1))
      case StoppedByRoot => Finish(s, id, Discarded(discard))
      case FailsAndRetries =>
        if j.attempt >= j.request.retries then Finish(s, id, Err(end.error)) else RetryLater(s, id)
      case FailsForGood => Finish(s, id, Err(end.error))
      case Invalid => Finish(s, id, Err(Unknown))
  }

  function Transition(s: State, id: Id, event: JobEvent, discard: Option<Error>): State {
    match event
    case Dispatch => OnDispatch(s, id)
    case RetryElapsed(attempt) => OnRetryElapsed(s, id, attempt)
    case Pause(ack) => OnPause(s, id, ack)
    case Resume(ack) => OnResume(s, id, ack)
    case Cancel => OnCancel(s, id, discard)
    case Worker(end) => OnWorker(s, id, end, discard)
  }

  function DiscardOf(discards: map<Id, Error>, id: Id): Option<Error> {
    if id in discards then Some(discards[id]) else None
  }

  function CancelEach(s: State, order: seq<Id>, discards: map<Id, Error>): State {
    if order == [] then s
    else
      var front := order[..|order| - 1];
      var id := order[|order| - 1];
      OnCancel(CancelEach(s, front, discards), id, DiscardOf(discards, id))
  }

  function OnCancelAll(s: State, order: seq<Id>, discards: map<Id, Error>): State {
    CancelEach(s, order, discards).(ready := [], delayed := multiset{})
  }

  function HandleCmd(s: State, cmd: Command, order: seq<Id>, discards: map<Id, Error>): State {
    match cmd
    case Enqueue(id, request) =>
      Schedule(s.(out := s.out.Admit(id, request)), JobView(id, request, 0, JobState.Queued))
    case PauseJob(id, ack) => Transition(s, id, Pause(ack), None)
    case ResumeJob(id, ack) => Transition(s, id, Resume(ack), None)
    case CancelJob(id) => Transition(s, id, Cancel, DiscardOf(discards, id))
    case CancelAll => OnCancelAll(s, order, discards)
    case SetMaxConcurrent(limit) => s.(maxConcurrent := limit)
  }

  /** One round of the dispatch loop: the front id leaves the queue before the root token is looked at. */
  function DispatchFront(s: State): State
    requires s.ready != []
  {
    var rest := s.(ready := s.ready[1..]);
    if s.root then rest else Transition(rest, s.ready[0], Dispatch, None)
  }

  /** The whole dispatch loop, as long as the root token stays uncancelled. */
  function TryDispatch(s: State): State
    decreases |s.ready|
  {
    if |s.workers| < s.maxConcurrent && s.ready != [] then
      var next := DispatchFront(s);
      if s.root then next else TryDispatch(next)
    else s
  }

  datatype Action =
    | RootCancelled
    | Command(cmd: Command, order: seq<Id>, discards: map<Id, Error>)
    | WorkerDone(id: Id, end: WorkerEnd, discard: Option<Error>)
    | TimerFired(id: Id, attempt: nat)
    | TryStart
    | Shutdown(order: seq<Id>, discards: map<Id, Error>)

  predicate Distinct(ids: seq<nat>) {
    forall i, j :: 0 <= i < j < |ids| ==> ids[i] != ids[j]
  }

  /** `order` walks the keys of the job map once each. */
  predicate Walks(order: seq<Id>, jobs: map<Id, JobView>) {
    Distinct(order) && (forall id | id in order :: id in jobs) && (forall id | id in jobs :: id in order)
  }

  predicate Enabled(s: State, a: Action) {
    !s.panicked &&
    match a
    case RootCancelled => true
    case Command(cmd, order, _) =>
      !s.draining &&
      (match cmd
       case Enqueue(id, _) => id !in s.out.downloads
       case PauseJob(_, ack) => ack !in s.out.acks
       case ResumeJob(_, ack) => ack !in s.out.acks
       case CancelJob(_) => true
       case CancelAll => Walks(order, s.jobs)
       case SetMaxConcurrent(limit) => limit > 0)
    case WorkerDone(id, _, _) => id in s.workers
    case TimerFired(id, attempt) => !s.draining && (id, attempt) in s.delayed
    case TryStart => !s.draining && |s.workers| < s.maxConcurrent && s.ready != []
    case Shutdown(order, _) => !s.draining && Walks(order, s.jobs)
  }

  function Apply(s: State, a: Action): State
    requires Enabled(s, a)
  {
    match a
    case RootCancelled => s.(root := true)
    case Command(cmd, order, discards) => HandleCmd(s, cmd, order, discards)
    case WorkerDone(id, end, discard) =>
      Transition(s.(workers := s.workers - multiset{id}), id, Worker(end), discard)
    case TimerFired(id, attempt) =>
      Transition(s.(delayed := s.delayed - multiset{(id, attempt)}), id, RetryElapsed(attempt), None)
    case TryStart => DispatchFront(s)
    case Shutdown(order, discards) => OnCancelAll(s, order, discards).(draining := true)
  }

  function Initial(maxConcurrent: nat): State {
    State(maxConcurrent, map[], [], multiset{}, multiset{}, {}, false, false, false, [], Record(map[], map[]))
  }

  /** `acts` can be taken one after the other from `s`. */
  predicate Legal(s: State, acts: seq<Action>)
    decreases |acts|
  {
    acts == [] || (Enabled(s, acts[0]) && Legal(Apply(s, acts[0]), acts[1..]))
  }

  function Exec(s: State, acts: seq<Action>): State
    requires Legal(s, acts)
    decreases |acts|
  {
    if acts == [] then s else Exec(Apply(s, acts[0]), acts[1..])
  }

  lemma {:induction false} ExecAppend(s: State, acts: seq<Action>, a: Action)
    requires Legal(s, acts) && Enabled(Exec(s, acts), a)
    ensures Legal(s, acts + [a]) && Exec(s, acts + [a]) == Apply(Exec(s, acts), a)
    decreases |acts|
  {
    hide Apply, Enabled;
    if acts == [] {
      assert [a][1..] == [];
    } else {
      ExecAppend(Apply(s, acts[0]), acts[1..], a);
      assert (acts + [a])[1..] == acts[1..] + [a];
    }
  }

  lemma {:induction false} ExecConcat(s: State, a: seq<Action>, b: seq<Action>)
    requires Legal(s, a) && Legal(Exec(s, a), b)
    ensures Legal(s, a + b) && Exec(s, a + b) == Exec(Exec(s, a), b)
    decreases |a|
  {
    hide Apply, Enabled;
    if a == [] {
      assert a + b == b;
    } else {
      ExecConcat(Apply(s, a[0]), a[1..], b);
      assert (a + b)[1..] == a[1..] + b;
    }
  }
}
