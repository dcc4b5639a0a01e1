/**
 * What holds of a transfer on any server whatever: offsets, lengths and records agree with the
 * disk. Nothing is said about which bytes the file holds.
 */
module TransferAccounting {
  import opened Types
  import opened Manifests
  import opened TransferSpec

  ghost predicate DiskOk(disk: Disk) {
    disk.part.Some? ==> disk.part.value.synced <= |disk.part.value.data|
  }

  /** What the session's manifest records, and how the one on disk relates to it. */
  ghost predicate RecordOk(w: World, x: Session) {
    && x.got <= |x.body|
    && x.manifest.url == w.url
    && (x.manifest.total.Some? ==> x.manifest.total.value == x.start + |x.body|)
    && x.manifest.ResumeOffset() <= x.Position() < x.manifest.ResumeOffset() + UNSAVED_BYTES
    && (if x.saved then w.disk.manifest == Some(x.manifest)
        else
          && x.manifest.ResumeOffset() == x.start
          && (x.start > 0 ==>
                w.disk.Resumable(w.url).Some? && x.start <= w.disk.Resumable(w.url).value.ResumeOffset()))
  }

  /** How much is in the file, how much of it is recorded, and how much is on stable storage. */
  ghost predicate SessionOk(w: World, x: Session, at: At) {
    && RecordOk(w, x)
    && (if at.FinalRemove? then
          w.disk.part.None? && w.disk.dest.Some? && |w.disk.dest.value| == x.Position()
        else
          w.disk.part.Some? && w.disk.PartLen() == x.Position() && w.disk.part.value.synced <= x.Position())
    && (!at.Writing? && !x.dirty ==> x.manifest.ResumeOffset() == x.Position())
    && (at.Reading? || at.Writing? ==>
          x.Position() - x.manifest.ResumeOffset() < CHECKPOINT_BYTES + at.InBuffer())
    && at.InBuffer() <= BUFFER_BYTES
    && (at.Written? || at.Syncing? || at.Saving? ==> x.dirty)
    && (at.Saving? || at.FinalRename? ==> w.disk.part.value.synced == x.Position())
    && (at.FinalSync? || at.FinalRename? || at.FinalRemove? ==> x.got == |x.body|)
  }

  /** A worker never ends as cancelled; its success names its own path and the file's length. */
  ghost predicate EndOk(w: World, end: WorkerEnd) {
    && end != Err(Error.Cancelled)
    && (end.Ok? && end.value.Finished? ==>
          && end.value.result.path == w.path
          && w.disk.dest.Some? && |w.disk.dest.value| == end.value.result.bytes)
  }

  ghost predicate Consistent(w: World) {
    && DiskOk(w.disk)
    && match w.phase
       case Idle => true
       case Asking(offset, prior, _) => prior == w.disk.Resumable(w.url) && offset == w.disk.NextOffset(w.url)
       case Opening(resp, start, created) =>
         && (resp.length.Some? ==> resp.length.value == |resp.body|)
         && start <= w.disk.PartLen()
         && (start > 0 ==> start == w.disk.NextOffset(w.url))
         && (created ==> w.disk.part.Some?)
       case Streaming(x, at) => SessionOk(w, x, at)
       case Done(end) => EndOk(w, end)
  }

  /** Any files, any manifest, any server: all that is asked of a place to start. */
  ghost predicate AtRest(w: World) {
    w.phase.Idle? && DiskOk(w.disk)
  }

  lemma SetLenCounts(w: World)
    requires Consistent(w) && Enabled(w, SetLen)
    ensures Consistent(Apply(w, SetLen))
  {
    var r := Apply(w, SetLen);
    var x := r.phase.x;
    ContiguousOffset(Manifest(w.url, w.phase.resp.etag, w.phase.resp.lastModified, x.manifest.total, []), x.start);
    assert r.disk.Resumable(w.url) == w.disk.Resumable(w.url);
  }

  lemma AppendCounts(w: World, n: nat, more: bool)
    requires Consistent(w) && Enabled(w, Append(n, more))
    ensures Consistent(Apply(w, Append(n, more)))
  {
    assert Apply(w, Append(n, more)).disk.Resumable(w.url) == w.disk.Resumable(w.url);
  }

  lemma SaveCounts(w: World)
    requires Consistent(w) && Enabled(w, Save)
    ensures Consistent(Apply(w, Save))
  {
    ContiguousOffset(w.phase.x.manifest, w.phase.x.Position());
  }

  lemma FileCounts(w: World, a: Action)
    requires Consistent(w) && Enabled(w, a) && (a.Sync? || a.SyncAll? || a.Rename? || a.Create?)
    ensures Consistent(Apply(w, a))
  {
    assert Apply(w, a).disk.Resumable(w.url) == w.disk.Resumable(w.url);
    if a.Create? {
      assert Apply(w, a).disk.PartLen() == w.disk.PartLen();
    }
  }

  /** The steps that end a worker, or leave a destination at rest. */
  lemma EndCounts(w: World, a: Action)
    requires Consistent(w) && Enabled(w, a) && (Apply(w, a).phase.Done? || Apply(w, a).phase.Idle?)
    requires !a.Save? && !a.Create? && !a.SetLen?
    ensures Consistent(Apply(w, a))
  {
  }

  /** The remaining steps change no more than where the worker is, or the server. */
  lemma PhaseCounts(w: World, a: Action)
    requires Consistent(w) && Enabled(w, a) && !Apply(w, a).phase.Done? && !Apply(w, a).phase.Idle?
    requires !a.SetLen? && !a.Append? && !a.Save? && !a.Sync? && !a.SyncAll? && !a.Rename? && !a.Create?
    ensures Consistent(Apply(w, a))
  {
    assert Apply(w, a).disk == w.disk && Apply(w, a).url == w.url && Apply(w, a).path == w.path;
  }

  lemma OtherCounts(w: World, a: Action)
    requires Consistent(w) && Enabled(w, a)
    requires !a.SetLen? && !a.Append? && !a.Save? && !a.Sync? && !a.SyncAll? && !a.Rename? && !a.Create?
    ensures Consistent(Apply(w, a))
  {
    hide Consistent;
    if Apply(w, a).phase.Done? || Apply(w, a).phase.Idle? {
      EndCounts(w, a);
    } else {
      PhaseCounts(w, a);
    }
  }

  lemma StepCounts(w: World, a: Action)
    requires Consistent(w) && Enabled(w, a)
    ensures Consistent(Apply(w, a))
  {
    hide Consistent;
    match a
    case SetLen => SetLenCounts(w);
    case Append(n, more) => AppendCounts(w, n, more);
    case Save => SaveCounts(w);
    case Sync => FileCounts(w, a);
    case SyncAll => FileCounts(w, a);
    case Rename => FileCounts(w, a);
    case Create => FileCounts(w, a);
    case _ => OtherCounts(w, a);
  }

  lemma {:induction false} RunCounts(w: World, acts: seq<Action>)
    requires Consistent(w) && Legal(w, acts)
    ensures Consistent(Exec(w, acts))
    decreases |acts|
  {
    hide Consistent;
    if acts != [] {
      StepCounts(w, acts[0]);
      RunCounts(Apply(w, acts[0]), acts[1..]);
    }
  }

  lemma LeadsCounts(w: World, r: World)
    requires Consistent(w) && Leads(w, r)
    ensures Consistent(r)
  {
    hide Consistent, Legal, Exec;
    var acts :| Takes(w, acts, r);
    RunCounts(w, acts);
  }

  /** Url, path and versions are for good, and the server only ever moves on. */
  lemma {:induction false} RunMovesOn(w: World, acts: seq<Action>)
    requires Legal(w, acts)
    ensures var r := Exec(w, acts);
      && r.url == w.url && r.path == w.path
      && r.server.versions == w.server.versions && r.server.current >= w.server.current
    decreases |acts|
  {
    if acts != [] {
      RunMovesOn(Apply(w, acts[0]), acts[1..]);
    }
  }

  lemma LeadsMovesOn(w: World, r: World)
    requires Leads(w, r)
    ensures r.url == w.url && r.path == w.path
    ensures r.server.versions == w.server.versions && r.server.current >= w.server.current
  {
    hide Legal, Exec;
    var acts :| Takes(w, acts, r);
    RunMovesOn(w, acts);
  }

  /** Some chain of attempts, on any server and from any files, leads here. */
  ghost predicate Reached(w: World) {
    exists start :: AtRest(start) && Leads(start, w)
  }

  lemma ReachedCounts(w: World)
    requires Reached(w)
    ensures Consistent(w)
  {
    hide Leads;
    var start :| AtRest(start) && Leads(start, w);
    LeadsCounts(start, w);
  }
}
