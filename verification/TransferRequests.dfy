/**
 * What a worker asks for, what it makes of each answer and why it ends, written out for any
 * server: none of it is said in terms of the functions that compute requests and records.
 */
module TransferRequests {
  import opened Types
  import opened Manifests
  import opened TransferSpec
  import opened TransferAccounting

  // ----- an existing destination

  /** No worker is under way. */
  predicate Resting(w: World) {
    w.phase.Idle? || w.phase.Done?
  }

  lemma RestKeepsDestination(w: World, a: Action)
    requires Resting(w) && w.disk.dest.Some? && Enabled(w, a) && a != Begin(true)
    ensures Resting(Apply(w, a)) && Apply(w, a).disk.dest == w.disk.dest
  {
  }

  /**
   * Without permission to overwrite, no number of workers, stops, crashes and cleanups ever
   * changes a destination that exists.
   */
  lemma {:induction false} NeverReplaces(w: World, acts: seq<Action>)
    requires Resting(w) && w.disk.dest.Some? && Legal(w, acts)
    requires Begin(true) !in acts
    ensures Exec(w, acts).disk.dest == w.disk.dest
    decreases |acts|
  {
    hide Enabled, Apply;
    if acts != [] {
      assert acts[0] in acts && forall a :: a in acts[1..] ==> a in acts;
      RestKeepsDestination(w, acts[0]);
      NeverReplaces(Apply(w, acts[0]), acts[1..]);
    }
  }

  // ----- the request

  /** How many bytes a worker for `url` would keep of what it finds. */
  function Resumes(disk: Disk, url: Url): nat {
    if disk.manifest.None? || disk.part.None? then 0
    else
      var m := disk.manifest.value;
      if m.url != url || (m.etag.None? && m.lastModified.None?) then 0
      else if m.ResumeOffset() < |disk.part.value.data| then m.ResumeOffset()
      else |disk.part.value.data|
  }

  /**
   * A worker that may not overwrite gives up on an existing destination. Any other asks for the
   * bytes after those it keeps, on condition that the entity tag on record, or failing that the
   * modification date, still holds; and for everything if there is nothing to keep.
   */
  lemma FirstRequest(w: World, overwrite: bool)
    requires w.phase.Idle?
    ensures Enabled(w, Begin(overwrite))
    ensures var r := Apply(w, Begin(overwrite));
      if w.disk.dest.Some? && !overwrite then r == w.(phase := Done(Err(FileExists)))
      else
        && r.phase.Asking? && r == w.(phase := r.phase)
        && RequestOf(r.phase) ==
           if Resumes(w.disk, w.url) == 0 then Get(None, None)
           else
             var m := w.disk.manifest.value;
             Get(Some(Resumes(w.disk, w.url)), if m.etag.Some? then m.etag else m.lastModified)
  {
  }

  /**
   * What each answer leads to: a refused range is asked for again as a whole, once; any other
   * answer but a success ends the worker with its status; a 206 continues at the byte that was
   * asked for and any other success starts over.
   */
  lemma AnswerDecides(w: World, resp: Response)
    requires w.phase.Asking? && Enabled(w, Respond(resp))
    ensures var r := Apply(w, Respond(resp));
      && r == w.(phase := r.phase)
      && (if resp.status == 416 && !w.phase.again then
            r.phase.Asking? && r.phase.again && RequestOf(r.phase) == Get(None, None)
          else if resp.status < 200 || 300 <= resp.status then r.phase == Done(Err(HttpStatus(resp.status)))
          else if resp.status == 206 then
            RequestOf(w.phase).range.Some? && r.phase == Opening(resp, RequestOf(w.phase).range.value, false)
          else r.phase == Opening(resp, 0, false))
  {
  }

  /** How many bytes of the partial file are on stable storage. */
  function Stable(disk: Disk): nat {
    if disk.part.Some? then disk.part.value.synced else 0
  }

  // ----- the session

  /** The file is cut to where the body belongs, and the session's record is the answer's own. */
  lemma SessionRemembers(w: World)
    requires Reached(w) && w.phase.Opening? && Enabled(w, SetLen)
    ensures var r := Apply(w, SetLen); var resp := w.phase.resp;
      && r.phase.Streaming? && r.phase.at.Reading?
      && r.disk.PartData() == w.disk.PartData()[..w.phase.start]
      && Stable(r.disk) == (if Stable(w.disk) < w.phase.start then Stable(w.disk) else w.phase.start)
      && r.disk.manifest == w.disk.manifest && r.disk.dest == w.disk.dest
      && r.phase.x.start == w.phase.start && r.phase.x.got == 0 && r.phase.x.body == resp.body
      && r.phase.x.manifest.url == w.url
      && r.phase.x.manifest.etag == resp.etag && r.phase.x.manifest.lastModified == resp.lastModified
      && (r.phase.x.manifest.total.Some? <==> resp.length.Some?)
      && (resp.length.Some? ==> r.phase.x.manifest.total.value == w.phase.start + |resp.body|)
      && r.phase.x.manifest.ResumeOffset() == w.phase.start
  {
    ReachedCounts(w);
    ContiguousOffset(Manifest(w.url, w.phase.resp.etag, w.phase.resp.lastModified,
      if w.phase.resp.length.Some? then Some(w.phase.start + w.phase.resp.length.value) else None, []), w.phase.start);
  }

  /** A session stays with its answer; only how much of it is written and recorded moves on. */
  lemma SessionKeeps(w: World, a: Action)
    requires Enabled(w, a) && w.phase.Streaming? && Apply(w, a).phase.Streaming?
    ensures var x := w.phase.x; var y := Apply(w, a).phase.x;
      && y.version == x.version && y.body == x.body && y.start == x.start && y.got >= x.got
      && y.manifest == x.manifest.(ranges := y.manifest.ranges)
  {
  }

  /** A saved manifest is the session's, and records everything written so far. */
  lemma SaveRecords(w: World)
    requires Enabled(w, Save)
    ensures var m := Apply(w, Save).disk.manifest; var x := w.phase.x;
      && m.Some? && m.value == x.manifest.(ranges := m.value.ranges)
      && m.value.ResumeOffset() == x.Position()
  {
    ContiguousOffset(w.phase.x.manifest, w.phase.x.Position());
  }

  /** A checkpoint is taken once 4 MiB are unrecorded, and not before. */
  lemma CadenceExactly(w: World)
    requires Reached(w) && Enabled(w, CheckCadence)
    ensures var x := w.phase.x;
      Apply(w, CheckCadence).phase ==
        if x.Position() - x.manifest.ResumeOffset() < 4_194_304 then Streaming(x, Reading)
        else Streaming(x, Syncing(Cadence))
  {
    ReachedCounts(w);
  }

  /** What is renamed over the destination is the complete file, all of it on stable storage. */
  lemma PublishesSynced(w: World, a: Action)
    requires Consistent(w) && Enabled(w, a) && Apply(w, a).disk.dest != w.disk.dest
    ensures a.Rename? && w.disk.part.Some? && w.phase.Streaming? && !w.phase.at.FinalRemove?
    ensures Apply(w, a).disk.dest == Some(w.disk.PartData())
    ensures w.disk.part.value.synced == |w.disk.PartData()| == w.phase.x.Position()
    ensures w.phase.x.got == |w.phase.x.body|
    ensures Apply(w, a).disk.part.None?
    ensures Apply(Apply(w, a), Remove(true)).disk.manifest.None?
  {
  }

  /** Only a sync makes more bytes stable, and what is stable is never rewritten, only cut off. */
  lemma StableBytesStay(w: World, a: Action)
    requires Consistent(w) && Enabled(w, a)
    ensures var r := Apply(w, a);
      && (a.Sync? || a.SyncAll? ==> Stable(r.disk) == r.disk.PartLen() && r.disk.PartData() == w.disk.PartData())
      && (!a.Sync? && !a.SyncAll? ==> Stable(r.disk) <= Stable(w.disk))
      && Stable(r.disk) <= r.disk.PartLen()
      && (Stable(r.disk) <= Stable(w.disk) ==>
            r.disk.PartData()[..Stable(r.disk)] == w.disk.PartData()[..Stable(r.disk)])
      && (Stable(r.disk) < Stable(w.disk) ==> a.SetLen? || a.Rename? || a.DiscardPart?)
  {
  }

  // ----- why a worker ends

  /** The checkpoint on the way out was asked for by this. */
  predicate OnTheWayOut(p: Phase, why: Why) {
    p.Streaming? && (p.at == Syncing(why) || p.at == Saving(why))
  }

  /** Each way of ending has its own reason. */
  lemma EndHasReason(w: World, a: Action)
    requires Enabled(w, a) && !w.phase.Done? && Apply(w, a).phase.Done?
    ensures match Apply(w, a).phase.end
      case Ok(Finished(result)) => a.Remove? && result == DownloadResult(w.path, w.phase.x.Position())
      case Ok(Stopped) => a.StopSeen? || OnTheWayOut(w.phase, OnStop)
      case Err(Network) => a == SendFails(Network) || a.ReadFails? || OnTheWayOut(w.phase, OnError)
      case Err(HttpStatus(code)) => a.Respond? && a.resp.status == code && !(200 <= code < 300)
      case Err(FileExists) => a == Begin(false) && w.disk.dest.Some?
      case Err(Io) =>
        || a.BeginFails? || a.OpenFails? || a.WriteFails? || a.FinalizeFails?
        || (a.CheckpointFails? && !w.phase.at.why.OnError?)
      case Err(e) => a.Panics? || (a.SendFails? && a.error == e)
  {
  }

  /** A failed read is a network failure whatever becomes of the checkpoint that follows it. */
  lemma ReadFailureStays(w: World, a: Action)
    requires Enabled(w, a) && (a.ReadFails? || OnTheWayOut(w.phase, OnError))
    requires !a.Advance? && !a.Crash? && !a.Panics?
    ensures var p := Apply(w, a).phase; p == Done(Err(Network)) || OnTheWayOut(p, OnError)
  {
  }

  /** A worker told to stop ends as stopped, after a checkpoint or not, or with the disk's error. */
  lemma StopStays(w: World, a: Action)
    requires Enabled(w, a) && (a.StopSeen? || OnTheWayOut(w.phase, OnStop)) && !a.Advance? && !a.Crash? && !a.Panics?
    ensures var p := Apply(w, a).phase;
      p == Done(Ok(Stopped)) || OnTheWayOut(p, OnStop) || (a.CheckpointFails? && p == Done(Err(Io)))
  {
  }
}
