/** What the invariant means for the file a download leaves behind, over every chain of attempts. */
module TransferTheorems {
  import opened Types
  import opened Manifests
  import opened TransferSpec
  import opened TransferAccounting
  import opened TransferInvariant

  /**
   * However a chain of attempts was stopped, failed, crashed and restarted, and however the
   * server moved on in between: a worker that reports success leaves exactly one version's
   * bytes at the destination and reports their number.
   */
  lemma NoSplicing(w: World)
    requires ReachedSafely(w) && w.phase.Done? && w.phase.end.Ok? && w.phase.end.value.Finished?
    ensures HoldsWhole(w, w.phase.end.value.result.bytes)
  {
    ReachedSafelyIsInv(w);
  }

  /** A step writes the destination only by putting a whole version there. */
  lemma StepPublishesWhole(w: World, a: Action)
    requires Inv(w) && Enabled(w, a)
    ensures Apply(w, a).disk.dest != w.disk.dest ==>
      a.Rename? && Apply(w, a).disk.dest.Some? && HoldsWhole(Apply(w, a), |Apply(w, a).disk.dest.value|)
  {
    if a.Rename? {
      var x := w.phase.x;
      var body := w.server.versions[x.version].body;
      assert x.Position() == |body| && body[..|body|] == body;
      assert Apply(w, a).disk.dest == Some(body);
      assert Apply(w, a).server.versions[x.version].body == body;
    }
  }

  ghost predicate UntouchedOrWhole(w: World, r: World) {
    r.disk.dest == w.disk.dest || (r.disk.dest.Some? && HoldsWhole(r, |r.disk.dest.value|))
  }

  lemma WholeStays(w: World, a: Action)
    requires Inv(w) && Enabled(w, a) && w.disk.dest.Some? && HoldsWhole(w, |w.disk.dest.value|)
    ensures Apply(w, a).disk.dest.Some? && HoldsWhole(Apply(w, a), |Apply(w, a).disk.dest.value|)
  {
    StepPublishesWhole(w, a);
    var r := Apply(w, a);
    assert r.server.versions == w.server.versions && r.server.current >= w.server.current;
    if r.disk.dest == w.disk.dest {
      var v :| 0 <= v < |w.server.versions| && v <= w.server.current &&
        w.disk.dest == Some(w.server.versions[v].body) && |w.disk.dest.value| == |w.server.versions[v].body|;
      assert r.server.versions[v] == w.server.versions[v];
    }
  }

  /**
   * At every moment of every run, crashes included, the destination is what it was before or
   * one whole version.
   */
  lemma {:induction false} AtomicPublish(w: World, acts: seq<Action>)
    requires Inv(w) && Legal(w, acts)
    ensures UntouchedOrWhole(w, Exec(w, acts))
    decreases |acts|
  {
    hide Inv, Enabled, Apply, HoldsWhole;
    if acts != [] {
      var mid := Apply(w, acts[0]);
      StepKeeps(w, acts[0]);
      PartsMakeInv(mid);
      StepPublishesWhole(w, acts[0]);
      AtomicPublish(mid, acts[1..]);
      if mid.disk.dest.Some? && HoldsWhole(mid, |mid.disk.dest.value|) {
        WholeStaysLong(mid, acts[1..]);
      }
    }
  }

  lemma {:induction false} WholeStaysLong(w: World, acts: seq<Action>)
    requires Inv(w) && Legal(w, acts) && w.disk.dest.Some? && HoldsWhole(w, |w.disk.dest.value|)
    ensures Exec(w, acts).disk.dest.Some? && HoldsWhole(Exec(w, acts), |Exec(w, acts).disk.dest.value|)
    decreases |acts|
  {
    hide Inv, Enabled, Apply, HoldsWhole;
    if acts != [] {
      StepKeeps(w, acts[0]);
      PartsMakeInv(Apply(w, acts[0]));
      WholeStays(w, acts[0]);
      WholeStaysLong(Apply(w, acts[0]), acts[1..]);
    }
  }

  // ----- requests and offsets

  /** A worker never asks for a range without making it conditional on the prior validator. */
  lemma RangesAreConditional(w: World)
    requires Reached(w) && w.phase.Asking?
    ensures var get := MakeGet(w.phase.offset, w.phase.prior);
      get.range.Some? ==>
        && get.ifRange.Some?
        && w.disk.manifest.Some?
        && get.ifRange == w.disk.manifest.value.Validator()
        && get.range.value <= w.disk.PartLen()
  {
    ReachedCounts(w);
  }

  lemma OpensWithin(w: World)
    requires Consistent(w) && w.phase.Opening?
    ensures w.phase.start <= w.disk.PartLen()
    ensures w.phase.created ==> Enabled(w, SetLen)
  {
  }

  /** The partial file is only ever cut, never extended, when it is opened. */
  lemma OpensWithinFile(w: World)
    requires Reached(w) && w.phase.Opening?
    ensures w.phase.start <= w.disk.PartLen()
    ensures w.phase.created ==> Enabled(w, SetLen)
  {
    ReachedCounts(w);
    OpensWithin(w);
  }

  /** A crash between the two halves of publishing or of discarding makes the next worker start over. */
  lemma HalfDoneRestarts(w: World)
    requires Reached(w)
    ensures w.phase.Streaming? && w.phase.at.FinalRemove? ==> Apply(w, Crash).disk.NextOffset(w.url) == 0
    ensures w.phase.Idle? ==> Apply(w, DiscardPart).disk.NextOffset(w.url) == 0
  {
    ReachedCounts(w);
  }

  // ----- stopping cleanly and crashing

  /** The steps by which a worker that sees the stop signal while reading gives up. */
  function StopSteps(dirty: bool): seq<Action> {
    if dirty then [StopSeen, Sync, Save] else [StopSeen]
  }

  lemma StopStepsRun(w: World)
    requires Consistent(w) && w.phase.Streaming? && w.phase.at.Reading?
    ensures Legal(w, StopSteps(w.phase.x.dirty))
    ensures var r := Exec(w, StopSteps(w.phase.x.dirty)); var x := w.phase.x;
      && r.phase == Done(Ok(Stopped))
      && r.url == w.url
      && r.disk.PartData() == w.disk.PartData()
      && r.disk.manifest == if x.dirty then Some(x.manifest.SetContiguous(x.Position())) else w.disk.manifest
  {
    if w.phase.x.dirty {
      var w1 := Apply(w, StopSeen);
      var w2 := Apply(w1, Sync);
      var w3 := Apply(w2, Save);
      assert [StopSeen, Sync, Save][1..] == [Sync, Save];
      assert [Sync, Save][1..] == [Save];
      assert [Save][1..] == [];
      assert Legal(w2, [Save]) && Exec(w2, [Save]) == w3;
      assert Legal(w1, [Sync, Save]) && Exec(w1, [Sync, Save]) == w3;
    } else {
      assert [StopSeen][1..] == [];
    }
  }

  /**
   * A clean stop loses nothing exactly when the server gave a validator, or nothing needs
   * remembering: the file is empty or this session never wrote to it.
   */
  lemma CleanStopKeepsAll(w: World)
    requires Reached(w) && w.phase.Streaming? && w.phase.at.Reading?
    ensures Legal(w, StopSteps(w.phase.x.dirty))
    ensures var r := Exec(w, StopSteps(w.phase.x.dirty)); var x := w.phase.x;
      && r.phase == Done(Ok(Stopped))
      && (r.disk.NextOffset(w.url) == x.Position() <==>
            x.manifest.Validator().Some? || x.Position() == 0 || (!x.dirty && !x.saved))
  {
    ReachedCounts(w);
    StopStepsRun(w);
    var x := w.phase.x;
    ContiguousOffset(x.manifest, x.Position());
  }

  /** The resume offset on disk, as far as the partial file still backs it. */
  function RecordedOffset(disk: Disk): nat {
    if disk.manifest.None? then 0 else disk.OffsetOf(disk.manifest)
  }

  /**
   * After any successful write less than 4 MiB are unrecorded on disk, and
   * if what is recorded can be resumed from at all, that is where the next worker resumes.
   */
  lemma CrashLosesLittle(w: World)
    requires Reached(w) && w.phase.Streaming? && w.phase.at.Reading?
    ensures var r := Apply(w, Crash); var x := w.phase.x;
      && RecordedOffset(r.disk) <= x.Position() < RecordedOffset(r.disk) + 4_194_304
      && (r.disk.Resumable(w.url).Some? ==> r.disk.NextOffset(w.url) == RecordedOffset(r.disk))
      && (x.saved ==>
            (r.disk.NextOffset(w.url) == RecordedOffset(r.disk) <==>
               x.manifest.Validator().Some? || RecordedOffset(r.disk) == 0))
  {
    ReachedCounts(w);
  }

  // ----- stable storage

  /**
   * The manifest on disk claims no more than the synced part of the partial file. One without a
   * file, as between the two halves of publishing or discarding, claims nothing a worker would
   * believe: see HalfDoneRestarts.
   */
  predicate Durable(disk: Disk) {
    disk.manifest.Some? && disk.part.Some? ==> disk.manifest.value.ResumeOffset() <= disk.part.value.synced
  }

  /** Opening is the only step that can break the claim. */
  lemma OnlyOpeningUndoesDurability(w: World, a: Action)
    requires Consistent(w) && Enabled(w, a) && Durable(w.disk) && !a.Create? && !a.SetLen?
    ensures Durable(Apply(w, a).disk)
  {
    hide EndOk;
    if a.Save? {
      ContiguousOffset(w.phase.x.manifest, w.phase.x.Position());
    } else if a.Sync? || a.SyncAll? || a.Append? {
      assert Apply(w, a).disk.manifest == w.disk.manifest;
    }
  }

  /** Opening keeps it exactly when the session starts no earlier than the manifest on disk. */
  lemma OpeningDurableExactly(w: World)
    requires Reached(w) && w.phase.Opening? && !w.phase.created && Durable(w.disk)
    ensures Enabled(w, Create) && Enabled(Apply(w, Create), SetLen)
    ensures Durable(Apply(Apply(w, Create), SetLen).disk) <==>
      w.disk.manifest.None? || w.disk.manifest.value.ResumeOffset() <= w.phase.start
  {
    ReachedCounts(w);
    StepCounts(w, Create);
    OpensWithin(Apply(w, Create));
  }

  /** Every checkpoint establishes it again, whatever came before. */
  lemma CheckpointMakesDurable(w: World)
    requires Reached(w) && Enabled(w, Save)
    ensures Durable(Apply(w, Save).disk)
  {
    ReachedCounts(w);
    ContiguousOffset(w.phase.x.manifest, w.phase.x.Position());
  }

  /** No worker in this run opens the file below the offset its manifest records. */
  predicate OpensAtRecord(w: World, acts: seq<Action>)
    requires Legal(w, acts)
    decreases |acts|
  {
    acts == [] ||
    (((acts[0].Create? || acts[0].SetLen?) && w.disk.manifest.Some? ==>
        w.phase.Opening? && w.disk.manifest.value.ResumeOffset() <= w.phase.start)
     && OpensAtRecord(Apply(w, acts[0]), acts[1..]))
  }

  lemma OpenStepDurable(w: World, a: Action)
    requires Consistent(w) && Enabled(w, a) && Durable(w.disk) && (a.Create? || a.SetLen?)
    requires w.disk.manifest.Some? ==> w.disk.manifest.value.ResumeOffset() <= w.phase.start
    ensures Durable(Apply(w, a).disk)
  {
  }

  /** Over such a run, with any number of stops and crashes, the claim always holds. */
  lemma {:induction false} StaysDurable(w: World, acts: seq<Action>)
    requires Consistent(w) && Legal(w, acts) && Durable(w.disk) && OpensAtRecord(w, acts)
    ensures Durable(Exec(w, acts).disk)
    decreases |acts|
  {
    hide Consistent, Enabled, Apply, Durable;
    if acts != [] {
      var a := acts[0];
      StepCounts(w, a);
      if a.Create? || a.SetLen? {
        OpenStepDurable(w, a);
      } else {
        OnlyOpeningUndoesDurability(w, a);
      }
      StaysDurable(Apply(w, a), acts[1..]);
    }
  }
}
