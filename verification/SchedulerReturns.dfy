/** What becomes of a download when its worker comes back, written out in the same words. */
module SchedulerReturns {
  import opened Types
  import opened Backoff
  import opened Jobs
  import opened SchedulerSpec
  import opened SchedulerInvariant
  import opened SchedulerTheorems
  import opened SchedulerChanges

  /** The two kinds of failure worth another attempt: the connection, or an HTTP 5xx. */
  predicate Transient(e: Error) {
    e == Network || (e.HttpStatus? && 500 <= e.code < 600)
  }

  /** Everything but the returning download and its waiters is as before. */
  ghost predicate OneBack(s: State, r: State, id: Id) {
    && r.workers == s.workers - multiset{id} && r.ready == s.ready && r.stops == s.stops
    && SameSettings(s, r)
  }

  /** The download ends with this result, and those who waited for a pause hear of it. */
  ghost predicate Ends(s: State, r: State, id: Id, end: WorkerEnd, outcome: Outcome) {
    && Becomes(s, r, id, None, News([Ending(outcome)], [outcome], [end], []))
    && Answers(s, r, s.jobs[id].state.Waiting(), Verdict(outcome))
    && r.delayed == s.delayed && !r.panicked
  }

  /** The download is paused, and those who asked for it are told. */
  ghost predicate Rests(s: State, r: State, id: Id, end: WorkerEnd, attempt: u32) {
    && id in s.jobs
    && Becomes(s, r, id, Some(s.jobs[id].(state := JobState.Paused, attempt := attempt)),
               News([EventKind.Paused], [], [end], []))
    && Answers(s, r, s.jobs[id].state.Waiting(), Ok(()))
    && r.delayed == s.delayed && !r.panicked
  }

  /** The download waits for the timer of its next attempt, which it has announced. */
  ghost predicate Retries(s: State, r: State, id: Id, end: WorkerEnd, delayMs: nat) {
    && id in s.jobs && s.jobs[id].attempt < 0xFFFF_FFFF
    && var next: u32 := s.jobs[id].attempt + 1;
    && Becomes(s, r, id, Some(s.jobs[id].(state := JobState.Retrying(next), attempt := next)),
               News([RetryScheduled(next, delayMs)], [], [end], [next]))
    && r.delayed == s.delayed + multiset{(id, next)}
    && r.out.acks == s.out.acks && !r.panicked
  }

  /** The thread dies: the download is in no table and has no result. */
  ghost predicate Dies(s: State, r: State, id: Id, end: WorkerEnd) {
    && r.panicked
    && Becomes(s, r, id, None, News([], [], [end], []))
    && r.delayed == s.delayed && r.out.acks == s.out.acks
  }

  /**
   * What becomes of a download when its worker comes back. A finished one is Ok, whatever was
   * asked meanwhile. A cancelled one, or one stopped by the root token, has the answer of its
   * cleanup. A stopped or transiently failed pausing one is paused. A transient failure below
   * the limit is tried again, each failure counting one attempt; at the limit, and for every
   * other error, that very error is the result.
   */
  lemma ReturnEffect(s: State, id: Id, end: WorkerEnd, discard: Option<Error>)
    requires Reachable(s) && Enabled(s, WorkerDone(id, end, discard))
    ensures id in s.jobs && s.jobs[id].attempt <= s.jobs[id].request.retries
    ensures var r := Apply(s, WorkerDone(id, end, discard)); var j := s.jobs[id];
      && OneBack(s, r, id)
      && (if end.Ok? && end.value.Finished? then Ends(s, r, id, end, Ok(end.value.result))
          else if j.state.Cancelling? then Ends(s, r, id, end, CancelledOr(discard))
          else if end.Ok? then
            if j.state.Pausing? then Rests(s, r, id, end, j.attempt)
            else j.state.Running? && Ends(s, r, id, end, CancelledOr(discard))
          else if Transient(end.error) && j.attempt < j.request.retries then
            if j.state.Pausing? then Rests(s, r, id, end, j.attempt + 1)
            else
              && j.state.Running?
              && (if 64 <= j.attempt < 0x8000_0000 then Dies(s, r, id, end)
                  else exists delayMs ::
                    && (j.attempt < 64 ==> delayMs == AnnouncedMs(j.attempt)) && delayMs <= 10_000
                    && Retries(s, r, id, end, delayMs))
          else Ends(s, r, id, end, Err(end.error)))
  {
    hide Reachable, OneBack, Ends, Rests, Retries, Dies;
    ReachableIsInv(s);
    ReachableArms(s, id, end);
    Known(s, id);
    hide Core;
    var j := s.jobs[id];
    if end.Ok? && end.value.Finished? {
      ReturnEnds(s, id, end, Ok(end.value.result));
    } else if j.state.Cancelling? {
      ReturnEnds(s, id, end, CancelledOr(discard));
    } else if end.Ok? {
      if j.state.Pausing? {
        ReturnRests(s, id, end, j.attempt);
      } else {
        ReturnEnds(s, id, end, CancelledOr(discard));
      }
    } else if Transient(end.error) && j.attempt < j.request.retries {
      if j.state.Pausing? {
        ReturnRests(s, id, end, j.attempt + 1);
      } else {
        ReturnRetries(s, id, end);
      }
    } else {
      ReturnEnds(s, id, end, Err(end.error));
    }
  }

  /** Noting down how the worker ended is all that happens before the arms are entered. */
  lemma ReturnEnds(s: State, id: Id, end: WorkerEnd, outcome: Outcome)
    requires id in s.jobs && id in s.out.downloads && s.jobs[id].id == id && !s.panicked
    requires s.jobs[id].state.Pausing? ==> WaitersOk(s.out, id, s.jobs[id].state.waiters)
    ensures var r := Finish(Returned(s, id, end), id, outcome);
      OneBack(s, r, id) && Ends(s, r, id, end, outcome)
  {
    var p := Returned(s, id, end);
    FinishBecomes(p, id, outcome);
    FinishElse(p, id, outcome);
    hide Finish;
    HeardLater(s.out.downloads[id], end, News([Ending(outcome)], [outcome], [], []));
  }

  lemma HeardLater(h: History, end: WorkerEnd, n: News)
    requires n.ends == []
    ensures Heard(h.(ends := h.ends + [end]), n) == Heard(h, n.(ends := [end]))
  {
  }

  lemma ReturnRests(s: State, id: Id, end: WorkerEnd, attempt: u32)
    requires id in s.jobs && id in s.out.downloads && s.jobs[id].id == id && !s.panicked
    requires s.jobs[id].state.Pausing? && WaitersOk(s.out, id, s.jobs[id].state.waiters)
    ensures var r := Parked(Returned(s, id, end), id, s.jobs[id].(attempt := attempt));
      OneBack(s, r, id) && Rests(s, r, id, end, attempt)
  {
    var p := Returned(s, id, end);
    var j := s.jobs[id].(attempt := attempt);
    ParkedBecomes(p, id, j);
    ParkElse(p, id, j);
    hide Parked;
    HeardLater(s.out.downloads[id], end, News([EventKind.Paused], [], [], []));
  }

  lemma ParkElse(s: State, id: Id, j: JobView)
    ensures var r := Parked(s, id, j);
      r.ready == s.ready && r.stops == s.stops && SameSettings(s, r) && SameWorkers(s, r) && r.panicked == s.panicked
  {
  }

  lemma ReturnRetries(s: State, id: Id, end: WorkerEnd)
    requires id in s.jobs && id in s.out.downloads && s.jobs[id].id == id && !s.panicked
    requires s.jobs[id].attempt < s.jobs[id].request.retries
    ensures var r := RetryLater(Returned(s, id, end), id); var attempt := s.jobs[id].attempt;
      && OneBack(s, r, id)
      && (if 64 <= attempt < 0x8000_0000 then Dies(s, r, id, end)
          else exists delayMs ::
            (attempt < 64 ==> delayMs == AnnouncedMs(attempt)) && delayMs <= 10_000 && Retries(s, r, id, end, delayMs))
  {
    var attempt := s.jobs[id].attempt;
    DelayExactly(attempt);
    match BACKOFF_STRATEGY.NextDelayMs(attempt)
    case None => ReturnDies(s, id, end);
    case Some(delayMs) =>
      if attempt < 64 {
        DelayTable(attempt);
      }
      ReturnWaits(s, id, end, delayMs);
  }

  lemma ReturnDies(s: State, id: Id, end: WorkerEnd)
    requires id in s.jobs && id in s.out.downloads && s.jobs[id].attempt < 0xFFFF_FFFF
    requires BACKOFF_STRATEGY.NextDelayMs(s.jobs[id].attempt).None?
    ensures var r := RetryLater(Returned(s, id, end), id); OneBack(s, r, id) && Dies(s, r, id, end)
  {
    hide ExponentialBackoff.NextDelayMs;
    var h := s.out.downloads[id];
    assert Heard(h, News([], [], [end], [])) == h.(ends := h.ends + [end]);
  }

  lemma ReturnWaits(s: State, id: Id, end: WorkerEnd, delayMs: nat)
    requires id in s.jobs && id in s.out.downloads && s.jobs[id].id == id && !s.panicked
    requires s.jobs[id].attempt < 0xFFFF_FFFF
    requires BACKOFF_STRATEGY.NextDelayMs(s.jobs[id].attempt) == Some(delayMs)
    ensures var r := RetryLater(Returned(s, id, end), id); OneBack(s, r, id) && Retries(s, r, id, end, delayMs)
  {
    hide ExponentialBackoff.NextDelayMs;
    var h := s.out.downloads[id];
    var next: u32 := s.jobs[id].attempt + 1;
    assert Heard(h, News([RetryScheduled(next, delayMs)], [], [end], [next])) ==
      h.(ends := h.ends + [end], events := h.events + [RetryScheduled(next, delayMs)], timers := h.timers + [next]);
  }
}
