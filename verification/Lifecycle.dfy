/**
 * The life of one download as its event log tells it: a reference automaton that reads only
 * the events. The scheduler never consults it; its logs are proved to satisfy it.
 */
module Lifecycle {
  import opened Types
  import opened Backoff

  datatype Tag =
    | Queued
    | Running
    | Retrying(attempt: nat)
    | Pausing
    | Paused
    | Cancelling
  {
    /** A worker future is outstanding exactly in these states. */
    predicate InFlight() {
      Running? || Pausing? || Cancelling?
    }
  }

  datatype Life =
    | Fresh
    | Live(tag: Tag, starts: nat, retries: seq<nat>, waitMs: nat)
    | Ended(last: EventKind, starts: nat, retries: seq<nat>, waitMs: nat)
    | Illegal

  function FollowRetry(life: Life, attempt: u32, delayMs: nat): Life
    requires life.Live?
  {
    if && life.tag.Running?
       && attempt >= 1
       && (life.retries == [] || life.retries[|life.retries| - 1] < attempt)
       && BACKOFF_STRATEGY.NextDelayMs(attempt - 1) == Some(delayMs)
    then
      life.(tag := Tag.Retrying(attempt), retries := life.retries + [attempt], waitMs := life.waitMs + delayMs)
    else Illegal
  }

  function Follow(life: Life, e: EventKind): Life {
    match life
    case Fresh => if e.Queued? then Live(Tag.Queued, 0, [], 0) else Illegal
    case Live(tag, starts, retries, waitMs) =>
      if e.Terminal() then
        if e.Completed? && !tag.InFlight() then Illegal else Ended(e, starts, retries, waitMs)
      else if e.Queued? && (tag.Retrying? || tag.Paused?) then life.(tag := Tag.Queued)
      else if e.Started? && tag.Queued? then life.(tag := Tag.Running, starts := starts + 1)
      else if e.RetryScheduled? then FollowRetry(life, e.attempt, e.nextDelayMs)
      else if e.PauseStarted? && tag.Running? then life.(tag := Tag.Pausing)
      else if e.Paused? && (tag.Queued? || tag.Retrying? || tag.Pausing?) then life.(tag := Tag.Paused)
      else if e.CancellationStarted? && (tag.Running? || tag.Pausing?) then life.(tag := Tag.Cancelling)
      else Illegal
    case Ended(_, _, _, _) => Illegal
    case Illegal => Illegal
  }

  function Replay(es: seq<EventKind>): Life {
    if es == [] then Fresh else Follow(Replay(es[..|es| - 1]), es[|es| - 1])
  }

  lemma ReplayAppend(es: seq<EventKind>, e: EventKind)
    ensures Replay(es + [e]) == Follow(Replay(es), e)
  {
    assert (es + [e])[..|es|] == es;
  }

  function TotalDelayMs(es: seq<EventKind>): nat {
    if es == [] then 0
    else
      var e := es[|es| - 1];
      TotalDelayMs(es[..|es| - 1]) + (if e.RetryScheduled? then e.nextDelayMs else 0)
  }

  function Starts(es: seq<EventKind>): nat {
    if es == [] then 0
    else Starts(es[..|es| - 1]) + (if es[|es| - 1].Started? then 1 else 0)
  }

  lemma {:induction false} LegalPrefix(es: seq<EventKind>, n: nat)
    requires n <= |es| && !Replay(es).Illegal?
    ensures !Replay(es[..n]).Illegal?
    ensures 0 < n ==> !Replay(es[..n]).Fresh?
    ensures n < |es| ==> !Replay(es[..n]).Ended?
    decreases |es|
  {
    if n == |es| {
      assert es[..n] == es;
    } else {
      var front := es[..|es| - 1];
      LegalPrefix(front, n);
      assert front[..n] == es[..n];
    }
  }

  /**
   * What a log the automaton accepts looks like: it opens with Queued, and a terminal event
   * can only be its last one.
   */
  lemma {:induction false} LegalLogShape(es: seq<EventKind>)
    requires !Replay(es).Illegal?
    ensures es != [] ==> es[0].Queued?
    ensures forall i :: 0 <= i < |es| - 1 ==> !es[i].Terminal()
    ensures Replay(es).Ended? <==> es != [] && es[|es| - 1].Terminal()
    ensures Replay(es).Ended? ==> Replay(es).last == es[|es| - 1]
    ensures !Replay(es).Fresh? ==> Replay(es).starts == Starts(es) && Replay(es).waitMs == TotalDelayMs(es)
  {
    if es != [] {
      var front := es[..|es| - 1];
      LegalPrefix(es, |es| - 1);
      LegalLogShape(front);
    }
  }

  /** The attempts listed by an accepted log are those of its retry events, in order. */
  lemma {:induction false} RetryListed(es: seq<EventKind>, i: nat)
    requires !Replay(es).Illegal? && i < |es| && es[i].RetryScheduled?
    ensures !Replay(es).Fresh? && Replay(es).retries != []
    ensures es[i].attempt <= Replay(es).retries[|Replay(es).retries| - 1]
    ensures es[i].attempt >= 1 && BACKOFF_STRATEGY.NextDelayMs(es[i].attempt - 1) == Some(es[i].nextDelayMs)
  {
    if i < |es| - 1 {
      LegalPrefix(es, |es| - 1);
      RetryListed(es[..|es| - 1], i);
    } else {
      LegalPrefix(es, |es| - 1);
    }
  }

  /** Every announced delay is within ten seconds, and before the exponent wraps it is the capped power. */
  lemma EachDelay(es: seq<EventKind>, i: nat)
    requires !Replay(es).Illegal? && i < |es| && es[i].RetryScheduled?
    ensures es[i].attempt >= 1 && es[i].nextDelayMs <= 10_000
    ensures es[i].attempt <= 0x8000_0000 ==> es[i].nextDelayMs == CappedMs(es[i].attempt - 1)
  {
    RetryListed(es, i);
    DelayExactly(es[i].attempt - 1);
  }

  /** Attempt numbers strictly increase along a log. */
  lemma RetriesIncrease(es: seq<EventKind>, i: nat, j: nat)
    requires !Replay(es).Illegal? && i < j < |es|
    requires es[i].RetryScheduled? && es[j].RetryScheduled?
    ensures es[i].attempt < es[j].attempt
  {
    LegalPrefix(es, j + 1);
    LegalPrefix(es, j);
    RetryListed(es[..j], i);
    assert es[..j + 1][..j] == es[..j];
    assert Replay(es[..j + 1]) == Follow(Replay(es[..j]), es[j]);
  }

  /** So the announced delays never shrink while the exponent fits a signed 32-bit number. */
  lemma DelaysGrow(es: seq<EventKind>, i: nat, j: nat)
    requires !Replay(es).Illegal? && i < j < |es|
    requires es[i].RetryScheduled? && es[j].RetryScheduled? && es[j].attempt <= 0x8000_0000
    ensures es[i].nextDelayMs <= es[j].nextDelayMs <= 10_000
  {
    RetriesIncrease(es, i, j);
    RetryListed(es, i);
    RetryListed(es, j);
    DelaysOrdered(es[i].attempt - 1, es[j].attempt - 1);
  }
}
