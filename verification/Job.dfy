/** One download inside the scheduler, and everything the scheduler sends out about it. */
module Jobs {
  import opened Types
  import opened Lifecycle

  /**
   * What has been sent and received about one download: its events, the results delivered to
   * its owner, how each of its workers ended and which retry timers were started.
   */
  datatype History = History(
    request: Request,
    events: seq<EventKind>,
    results: seq<Outcome>,
    ends: seq<WorkerEnd>,
    timers: seq<nat>)

  /** A pause or resume request the scheduler received, with every answer given to it. */
  datatype AckCell = AckCell(target: Id, pausing: bool, replies: seq<Reply>)

  const NO_HISTORY := History(Request(0, 0, 0, false), [], [], [], [])

  datatype Record = Record(downloads: map<Id, History>, acks: map<Ack, AckCell>) {
    function Of(id: Id): History {
      if id in downloads then downloads[id] else NO_HISTORY
    }

    function CellOf(ack: Ack): AckCell {
      if ack in acks then acks[ack] else AckCell(0, false, [])
    }

    function Admit(id: Id, request: Request): Record {
      this.(downloads := downloads[id := NO_HISTORY.(request := request)])
    }

    function Emit(id: Id, kind: EventKind): Record {
      this.(downloads := downloads[id := Of(id).(events := Of(id).events + [kind])])
    }

    function Deliver(id: Id, outcome: Outcome): Record {
      this.(downloads := downloads[id := Of(id).(results := Of(id).results + [outcome])])
    }

    function Collect(id: Id, end: WorkerEnd): Record {
      this.(downloads := downloads[id := Of(id).(ends := Of(id).ends + [end])])
    }

    function StartTimer(id: Id, attempt: nat): Record {
      this.(downloads := downloads[id := Of(id).(timers := Of(id).timers + [attempt])])
    }

    function Receive(ack: Ack, target: Id, pausing: bool): Record {
      this.(acks := acks[ack := AckCell(target, pausing, [])])
    }

    function Answer(ack: Ack, reply: Reply): Record {
      this.(acks := acks[ack := CellOf(ack).(replies := CellOf(ack).replies + [reply])])
    }

    function AnswerAll(waiters: seq<Ack>, reply: Reply): Record
      decreases |waiters|
    {
      if waiters == [] then this else Answer(waiters[0], reply).AnswerAll(waiters[1..], reply)
    }

    /** Answers are no events and no results. */
    lemma {:induction false} AnswerAllSpares(waiters: seq<Ack>, reply: Reply)
      ensures AnswerAll(waiters, reply).downloads == downloads
      decreases |waiters|
    {
      if waiters != [] {
        Answer(waiters[0], reply).AnswerAllSpares(waiters[1..], reply);
      }
    }

    /** Answering a list of distinct requests gives each exactly one more reply. */
    lemma {:induction false} AnswerAllOnce(waiters: seq<Ack>, reply: Reply)
      requires forall i, j :: 0 <= i < j < |waiters| ==> waiters[i] != waiters[j]
      requires forall w :: w in waiters ==> w in acks
      ensures AnswerAll(waiters, reply).downloads == downloads
      ensures AnswerAll(waiters, reply).acks.Keys == acks.Keys
      ensures forall a :: a in acks && a !in waiters ==> AnswerAll(waiters, reply).acks[a] == acks[a]
      ensures forall a :: a in waiters ==>
        AnswerAll(waiters, reply).acks[a] == acks[a].(replies := acks[a].replies + [reply])
      decreases |waiters|
    {
      if waiters != [] {
        var rest := waiters[1..];
        assert waiters[0] !in rest;
        assert forall w :: w in waiters <==> w == waiters[0] || w in rest;
        Answer(waiters[0], reply).AnswerAllOnce(rest, reply);
      }
    }
  }

  datatype JobState =
    | Queued
    | Running
    | Retrying(attempt: nat)
    | Pausing(waiters: seq<Ack>)
    | Paused
    | Cancelling
  {
    function ToTag(): Tag {
      match this
      case Queued => Tag.Queued
      case Running => Tag.Running
      case Retrying(k) => Tag.Retrying(k)
      case Pausing(_) => Tag.Pausing
      case Paused => Tag.Paused
      case Cancelling => Tag.Cancelling
    }

    predicate InFlight() {
      Running? || Pausing? || Cancelling?
    }

    function Waiting(): seq<Ack> {
      if Pausing? then waiters else []
    }
  }

  /** The value of a job object: what a step of the scheduler reads and replaces. */
  datatype JobView = JobView(id: Id, request: Request, attempt: u32, state: JobState) {
    function Paused(): JobView {
      this.(state := JobState.Paused)
    }

    function PauseOut(out: Record): Record {
      out.AnswerAll(state.Waiting(), Ok(())).Emit(id, EventKind.Paused)
    }

    function FinalizeOut(out: Record, outcome: Outcome): Record {
      out.AnswerAll(state.Waiting(), ReplyFor(outcome)).Emit(id, TerminalKind(outcome)).Deliver(id, outcome)
    }

    function Retried(): JobView
      requires attempt < 0xFFFF_FFFF
    {
      this.(attempt := attempt + 1, state := JobState.Retrying(attempt + 1))
    }

    function RetryOut(out: Record, delayMs: nat): Record
      requires attempt < 0xFFFF_FFFF
    {
      out.Emit(id, RetryScheduled(attempt + 1, delayMs))
    }
  }

  function ReplyFor(outcome: Outcome): Reply {
    match outcome
    case Ok(_) => Ok(())
    case Err(e) => Err(e)
  }

  function TerminalKind(outcome: Outcome): EventKind {
    match outcome
    case Ok(_) => Completed
    case Err(e) => if e.Cancelled? then EventKind.Cancelled else Failed(e)
  }

  /** The sending ends shared by all jobs: the event bus, the result and the reply channels. */
  class Channels {
    var out: Record

    constructor ()
      ensures out == Record(map[], map[])
    {
      out := Record(map[], map[]);
    }
  }

  class Job {
    const id: Id
    const request: Request
    var attempt: u32
    var state: JobState

    constructor (id: Id, request: Request)
      ensures this.id == id && View() == JobView(id, request, 0, JobState.Queued)
    {
      this.id, this.request, this.attempt, this.state := id, request, 0, JobState.Queued;
    }

    function View(): JobView
      reads this
    {
      JobView(id, request, attempt, state)
    }

    /** Drains the waiters of a pausing job, answering each in turn; otherwise does nothing. */
    method ResolvePauseWaiters(tx: Channels, reply: Reply)
      modifies this`state, tx
      ensures tx.out == old(tx.out).AnswerAll(old(state).Waiting(), reply)
      ensures state == if old(state).Pausing? then JobState.Pausing([]) else old(state)
    {
      if state.Pausing? {
        var waiters := state.waiters;
        while waiters != []
          invariant tx.out.AnswerAll(waiters, reply) == old(tx.out).AnswerAll(old(state).waiters, reply)
        {
          tx.out := tx.out.Answer(waiters[0], reply);
          waiters := waiters[1..];
        }
        state := JobState.Pausing([]);
      }
    }

    method Finalize(tx: Channels, outcome: Outcome)
      modifies this`state, tx
      ensures tx.out == old(View()).FinalizeOut(old(tx.out), outcome)
      ensures tx.out.Of(id).results == old(tx.out).Of(id).results + [outcome]
      ensures tx.out.Of(id).events == old(tx.out).Of(id).events + [
        match outcome
        case Ok(_) => Completed
        case Err(e) => if e == Error.Cancelled then EventKind.Cancelled else Failed(e)]
    {
      old(tx.out).AnswerAllSpares(old(state).Waiting(), match outcome case Ok(_) => Ok(()) case Err(e) => Err(e));
      ResolvePauseWaiters(tx, match outcome case Ok(_) => Ok(()) case Err(e) => Err(e));
      var kind := match outcome
        case Ok(_) => Completed
        case Err(e) => if e.Cancelled? then EventKind.Cancelled else Failed(e);
      tx.out := tx.out.Emit(id, kind);
      tx.out := tx.out.Deliver(id, outcome);
    }

    method Pause(tx: Channels)
      modifies this`state, tx
      ensures View() == old(View()).Paused()
      ensures tx.out == old(View()).PauseOut(old(tx.out))
    {
      ResolvePauseWaiters(tx, Ok(()));
      state := JobState.Paused;
      tx.out := tx.out.Emit(id, EventKind.Paused);
    }

    method Retry(tx: Channels, delayMs: nat)
      requires attempt < 0xFFFF_FFFF
      modifies this, tx
      ensures View() == old(View()).Retried()
      ensures tx.out == old(View()).RetryOut(old(tx.out), delayMs)
    {
      attempt := attempt + 1;
      state := JobState.Retrying(attempt);
      tx.out := tx.out.Emit(id, RetryScheduled(attempt, delayMs));
    }
  }
}
