/**
 * The worker and its partial file, updating the disk in place. The ghost world follows every
 * single change, so each method is proved to do nothing but legal steps of the transfer
 * machine, in its order, and to end where that machine ends.
 */
module Worker {
  import opened Types
  import opened Manifests
  import opened TransferSpec
  import Accounting = TransferAccounting
  import Invariant = TransferInvariant
  import Theorems = TransferTheorems
  import opened ProgressTracking

  /** One destination's files and the server behind its url. */
  class Store {
    const url: Url
    const path: Destination
    var disk: Disk
    var server: Server
    ghost const origin: World
    ghost var w: World
    ghost var trail: seq<Action>

    ghost predicate Valid()
      reads this
    {
      && w.url == url && w.path == path && w.disk == disk && w.server == server
      && Legal(origin, trail) && Exec(origin, trail) == w
    }

    constructor (url: Url, path: Destination, disk: Disk, server: Server)
      ensures Valid() && w == World(url, path, disk, server, Idle) && origin == w && trail == []
    {
      this.url, this.path, this.disk, this.server := url, path, disk, server;
      origin := World(url, path, disk, server, Idle);
      w := World(url, path, disk, server, Idle);
      trail := [];
    }

    /** The world takes a step; disk and server must already agree with it. */
    ghost method Take(a: Action)
      requires Legal(origin, trail) && Exec(origin, trail) == w
      requires Enabled(w, a)
      requires Apply(w, a).url == url && Apply(w, a).path == path
      requires Apply(w, a).disk == disk && Apply(w, a).server == server
      modifies this`w, this`trail
      ensures Valid() && w == Apply(old(w), a) && trail == old(trail) + [a]
    {
      ExecAppend(origin, trail, a);
      w := Apply(w, a);
      trail := trail + [a];
    }

    /** Time passes: the resource may move on to later versions. */
    method Elapse()
      requires Valid()
      modifies this
      ensures Valid() && old(trail) <= trail
      ensures disk == old(disk) && w.phase == old(w).phase && server.versions == old(server).versions
    {
      hide Legal, Exec;
      var changes: nat := *;
      while changes > 0 && server.current + 1 < |server.versions|
        invariant Valid() && old(trail) <= trail
        invariant disk == old(disk) && w.phase == old(w).phase && server.versions == old(server).versions
      {
        server := server.(current := server.current + 1);
        Take(Advance);
        changes := changes - 1;
      }
    }

    /** Sends a request; the answer is a conforming server's, or an error. */
    method Send(get: Get) returns (r: Result<Response>)
      ensures r.Ok? ==> Answers(server, get, r.value)
      ensures r.Err? ==> SendError(r.error)
    {
      var resp: Response := *;
      if Answers(server, get, resp) {
        r := Ok(resp);
      } else {
        var e: Error := *;
        r := Err(if SendError(e) then e else Network);
      }
    }

    /** Removes the partial file, then its manifest; a failed removal ends the cleanup. */
    method DiscardPartial() returns (r: Result<()>)
      requires Valid() && w.phase.Idle?
      modifies this
      ensures Valid() && old(trail) <= trail && w.phase.Idle? && server == old(server) && disk.dest == old(disk).dest
      ensures w == Cleaned(old(w), if r.Ok? then None else Some(Io), disk.part.None?)
      ensures r.Ok? ==> disk.part.None? && disk.manifest.None?
      ensures r.Err? ==> r.error.Io?
      ensures disk.part.None? || disk.part == old(disk).part
      ensures disk.manifest.None?
        || (disk.manifest == old(disk).manifest && (disk.part.None? ==> disk.NextOffset(url) == 0))
    {
      hide Legal, Exec;
      var step := 0;
      while step < 2
        invariant 0 <= step <= 2
        invariant Valid() && old(trail) <= trail && w.phase.Idle?
        invariant server == old(server) && disk.dest == old(disk).dest
        invariant disk.part == if step > 0 then None else old(disk).part
        invariant disk.manifest == if step > 1 then None else old(disk).manifest
      {
        var fails: bool := *;
        if fails {
          return Err(Io);
        }
        if step == 0 {
          disk := disk.(part := None);
          Take(DiscardPart);
        } else {
          disk := disk.(manifest := None);
          Take(DiscardManifest);
        }
        step := step + 1;
      }
      r := Ok(());
    }
  }

  /** The open partial file of one session. */
  class PartFile {
    const store: Store
    var pos: nat
    var dirty: bool
    var manifest: Manifest

    /** What the object knows agrees with the session it belongs to. */
    ghost predicate Tracks(x: Session)
      reads this
    {
      pos == x.Position() && dirty == x.dirty && manifest == x.manifest
    }

    /** Opens the file for writing at `start`, cutting off whatever lies beyond. */
    constructor (store: Store, start: nat, manifest: Manifest)
      ensures this.store == store && pos == start && !dirty && this.manifest == manifest
    {
      this.store, this.pos, this.dirty, this.manifest := store, start, false, manifest;
    }

    static method Open(store: Store, start: nat, manifest: Manifest) returns (r: Result<PartFile>)
      requires store.Valid() && store.w.phase.Opening? && !store.w.phase.created && store.w.phase.start == start
      requires start <= store.disk.PartLen()
      requires manifest == SessionManifest(store.url, store.w.phase.resp, start)
      modifies store
      ensures store.Valid() && old(store.trail) <= store.trail && store.server == old(store.server)
      ensures r.Err? ==> r.error.Io? && store.w.phase == Done(Err(Io))
      ensures r.Ok? ==>
        && fresh(r.value) && r.value.store == store
        && (var resp := old(store.w).phase.resp;
            store.w.phase == Streaming(Session(resp.version, resp.body, start, 0, manifest, false, false), Reading))
        && r.value.Tracks(store.w.phase.x)
        && store.disk == old(store.disk).Created().CutAt(start)
    {
      hide Legal, Exec;
      var createFails: bool := *;
      if createFails {
        store.Take(OpenFails);
        return Err(Io);
      }
      store.disk := store.disk.Created();
      store.Take(Create);
      var setLenFails: bool := *;
      if setLenFails {
        store.Take(OpenFails);
        return Err(Io);
      }
      store.disk := store.disk.CutAt(start);
      store.Take(SetLen);
      var part := new PartFile(store, start, manifest);
      r := Ok(part);
    }

    /**
     * Syncs the data, then replaces the manifest; does nothing if nothing was written since.
     * `why` says which step of the worker asked for it.
     */
    method Checkpoint(ghost x: Session, ghost why: Why) returns (r: Result<()>)
      requires store.Valid() && Tracks(x) && store.disk.part.Some?
      requires store.w.phase == if x.dirty then Streaming(x, Syncing(why)) else PhaseAfter(x, why)
      modifies this, store
      ensures store.Valid() && old(store.trail) <= store.trail && store.server == old(store.server)
      ensures store.disk.PartData() == old(store.disk).PartData() && store.disk.part.Some?
      ensures r.Ok? ==> Tracks(Recorded(x)) && store.w.phase == PhaseAfter(Recorded(x), why)
      ensures r.Err? ==> r.error.Io? && store.w.phase == Done(if why.OnError? then Err(Network) else Err(Io))
    {
      hide Legal, Exec;
      if !dirty {
        return Ok(());
      }
      var written := pos;
      var syncFails: bool := *;
      if syncFails {
        store.Take(CheckpointFails);
        return Err(Io);
      }
      store.disk := store.disk.Synced();
      store.Take(Sync);
      manifest := manifest.SetContiguous(written);
      var saveFails: bool := *;
      if saveFails {
        store.Take(CheckpointFails);
        return Err(Io);
      }
      store.disk := store.disk.(manifest := Some(manifest));
      store.Take(Save);
      dirty := false;
      r := Ok(());
    }

    /** One write call: at least one byte and at most all of `buf`, unless it fails. */
    method WriteSome(buf: Bytes, ghost x: Session, ghost done: nat) returns (n: nat)
      requires store.Valid() && store.disk.part.Some? && |store.disk.PartData()| == pos
      requires store.w.phase.Streaming? && store.w.phase.x == x
      requires store.w.phase.at == if done == 0 then Reading else Writing(done)
      requires 0 < |buf| && done + |buf| <= BUFFER_BYTES
      requires x.got + |buf| <= |x.body| && buf == x.body[x.got..x.got + |buf|]
      modifies this`pos, store
      ensures store.Valid() && old(store.trail) <= store.trail && store.server == old(store.server)
      ensures n <= |buf| && pos == old(pos) + n
      ensures store.disk == old(store.disk).Appended(buf[..n])
      ensures store.w.phase ==
        if n == |buf| then Streaming(x.(got := x.got + n, dirty := true), Written)
        else Streaming(x.(got := x.got + n), Writing(done + n))
    {
      hide Legal, Exec;
      var written: nat := *;
      n := if 0 <= written <= |buf| then written else |buf|;
      assert buf[..n] == x.body[x.got..x.got + n];
      store.disk := store.disk.Appended(buf[..n]);
      store.Take(Append(n, n < |buf|));
      pos := pos + n;
    }

    /** Puts `buf` at the end of the file, in however many pieces the system writes it. */
    method WriteAll(buf: Bytes, ghost x: Session) returns (ok: bool)
      requires store.Valid() && store.w.phase == Streaming(x, Reading)
      requires store.disk.part.Some? && |store.disk.PartData()| == pos
      requires 0 < |buf| <= BUFFER_BYTES && x.got + |buf| <= |x.body| && buf == x.body[x.got..x.got + |buf|]
      modifies this`pos, store
      ensures store.Valid() && old(store.trail) <= store.trail && store.server == old(store.server)
      ensures ok ==>
        && pos == old(pos) + |buf|
        && store.w.phase == Streaming(x.(got := x.got + |buf|, dirty := true), Written)
        && store.disk == old(store.disk).Appended(buf)
      ensures !ok ==> store.w.phase.Streaming? && store.w.phase.at.Writing?
    {
      hide Legal, Exec, Enabled, Apply;
      var k: nat := 0;
      ghost var y := x;
      AppendNothing(store.disk);
      assert buf[..0] == [];
      while k < |buf|
        invariant 0 <= k <= |buf| && pos == old(pos) + k
        invariant store.Valid() && old(store.trail) <= store.trail && store.server == old(store.server)
        invariant store.disk.part.Some? && store.disk == old(store.disk).Appended(buf[..k])
        invariant k < |buf| ==> y == x.(got := x.got + k)
        invariant k < |buf| ==>
          && store.w.phase.Streaming? && store.w.phase.x == y
          && store.w.phase.at == if k == 0 then Reading else Writing(k)
        invariant k == |buf| ==> store.w.phase == Streaming(x.(got := x.got + |buf|, dirty := true), Written)
        decreases |buf| - k
      {
        assert buf[k..] == x.body[y.got..y.got + |buf[k..]|];
        var n := WriteSome(buf[k..], y, k);
        PiecesJoin(old(store.disk), buf, k, n);
        if n == 0 {
          return false;
        }
        k := k + n;
        y := y.(got := y.got + n);
      }
      assert buf[..|buf|] == buf;
      ok := true;
    }

    /** Appends a buffer and takes a checkpoint whenever 4 MiB have gone unrecorded. */
    method Write(buf: Bytes, ghost x: Session) returns (r: Result<()>)
      requires store.Valid() && Tracks(x) && store.w.phase == Streaming(x, Reading)
      requires store.disk.part.Some? && |store.disk.PartData()| == pos
      requires 0 < |buf| <= BUFFER_BYTES && x.got + |buf| <= |x.body| && buf == x.body[x.got..x.got + |buf|]
      modifies this, store
      ensures store.Valid() && old(store.trail) <= store.trail && store.server == old(store.server)
      ensures r.Err? ==> r.error.Io? && store.w.phase == Done(Err(Io))
      ensures r.Ok? ==>
        && store.disk.part.Some? && store.disk.PartData() == old(store.disk).PartData() + buf
        && pos == old(pos) + |buf|
        && store.w.phase.Streaming? && store.w.phase.at.Reading?
        && Tracks(store.w.phase.x)
        && Continues(x, store.w.phase.x, |buf|)
    {
      hide Legal, Exec;
      var ok := WriteAll(buf, x);
      if !ok {
        store.Take(WriteFails);
        return Err(Io);
      }
      dirty := true;
      ghost var y := x.(got := x.got + |buf|, dirty := true);
      var recorded := ComputeResumeOffset(manifest.ranges);
      store.Take(CheckCadence);
      if pos - recorded >= CHECKPOINT_BYTES {
        r := Checkpoint(y, Cadence);
      } else {
        r := Ok(());
      }
    }

    /** Syncs everything, renames the file over the destination, then removes the manifest. */
    method Finalize(ghost x: Session) returns (r: Result<Destination>)
      requires store.Valid() && Tracks(x) && store.w.phase == Streaming(x, FinalSync) && store.disk.part.Some?
      modifies store
      ensures store.Valid() && old(store.trail) <= store.trail && store.server == old(store.server)
      ensures r.Err? ==> r.error.Io? && store.w.phase == Done(Err(Io))
      ensures r.Ok? ==>
        && r.value == store.path
        && store.w.phase == Done(Ok(Finished(DownloadResult(store.path, pos))))
        && store.disk.dest == Some(old(store.disk).PartData()) && store.disk.part.None?
    {
      hide Legal, Exec;
      var syncFails: bool := *;
      if syncFails {
        store.Take(FinalizeFails);
        return Err(Io);
      }
      store.disk := store.disk.Synced();
      store.Take(SyncAll);
      var renameFails: bool := *;
      if renameFails {
        store.Take(FinalizeFails);
        return Err(Io);
      }
      store.disk := store.disk.Published();
      store.Take(Rename);
      var removed: bool := *;
      if removed {
        store.disk := store.disk.(manifest := None);
      }
      store.Take(Remove(removed));
      r := Ok(store.path);
    }
  }

  lemma AppendNothing(disk: Disk)
    requires disk.part.Some?
    ensures disk.Appended([]) == disk
  {
    assert disk.part.value.data + [] == disk.part.value.data;
  }

  lemma PiecesJoin(disk: Disk, buf: Bytes, k: nat, n: nat)
    requires disk.part.Some? && k + n <= |buf|
    ensures disk.Appended(buf[..k]).Appended(buf[k..][..n]) == disk.Appended(buf[..k + n])
  {
    assert buf[..k] + buf[k..][..n] == buf[..k + n];
    assert disk.part.value.data + buf[..k] + buf[k..][..n] == disk.part.value.data + (buf[..k] + buf[k..][..n]);
  }

  /** The phase a checkpoint for `why` leads to. */
  function PhaseAfter(x: Session, why: Why): Phase {
    match why
    case Cadence => Streaming(x, Reading)
    case OnStop => Done(Ok(Stopped))
    case OnError => Done(Err(Network))
  }

  /** A session after a successful checkpoint. */
  function Recorded(x: Session): Session {
    if x.dirty then x.(manifest := x.manifest.SetContiguous(x.Position()), dirty := false, saved := true) else x
  }

  /** `y` is the same transfer as `x`, `n` bytes further on. */
  predicate Continues(x: Session, y: Session, n: nat) {
    y.version == x.version && y.body == x.body && y.start == x.start && y.got == x.got + n
  }

  /** Wherever a legal chain of steps has led, the invariants of its origin hold. */
  lemma Known(store: Store)
    requires store.Valid() && Accounting.Consistent(store.origin)
    ensures Accounting.Consistent(store.w)
    ensures Invariant.Inv(store.origin) ==> Invariant.Inv(store.w)
  {
    hide Accounting.Consistent, Invariant.Inv;
    Accounting.RunCounts(store.origin, store.trail);
    if Invariant.Inv(store.origin) {
      Invariant.RunKeeps(store.origin, store.trail);
    }
  }

  /** One request and its answer, unless the stop signal comes first; None means stopped. */
  method Exchange(store: Store, get: Get) returns (r: Result<Option<Response>>)
    requires store.Valid() && store.w.phase.Asking?
    requires get == RequestOf(store.w.phase)
    modifies store
    ensures store.Valid() && old(store.trail) <= store.trail && store.disk == old(store.disk)
    ensures r.Err? ==> store.w.phase == Done(Err(r.error)) && !r.error.FileExists?
    ensures r.Ok? && r.value.None? ==> store.w.phase == Done(Ok(Stopped))
    ensures r.Ok? && r.value.Some? ==>
      store.w.phase == Received(store.w, old(store.w).phase, r.value.value).phase
  {
    hide Legal, Exec, Answers;
    store.Elapse();
    var stopped: bool := *;
    if stopped {
      store.Take(StopSeen);
      return Ok(None);
    }
    var sent := store.Send(get);
    match sent {
      case Err(e) =>
        store.Take(SendFails(e));
        r := Err(e);
      case Ok(resp) =>
        store.Take(Respond(resp));
        r := Ok(Some(resp));
    }
  }

  /** Where to resume from: the prior manifest's offset, as far as the partial file reaches. */
  method ResumePoint(store: Store) returns (prior: Option<Manifest>, offset: nat)
    ensures prior == store.disk.Resumable(store.url) && offset == store.disk.NextOffset(store.url)
  {
    prior := store.disk.Resumable(store.url);
    offset := 0;
    if prior.Some? {
      var recorded := ComputeResumeOffset(prior.value.ranges);
      var partLen := store.disk.PartLen();
      offset := if recorded <= partLen then recorded else partLen;
    }
  }

  /**
   * Everything up to the point where the body can be read: looks at the destination, loads the
   * manifest, asks for the rest of the file, and asks again from the start if the range is
   * refused. Returns the response and where its body belongs, or how the worker ended.
   */
  method Connect(store: Store, overwrite: bool) returns (ended: Option<WorkerEnd>, resp: Response, start: nat)
    requires store.Valid() && store.w.phase.Idle?
    modifies store
    ensures store.Valid() && old(store.trail) <= store.trail && store.disk == old(store.disk)
    ensures ended.Some? ==> store.w.phase == Done(ended.value) && (ended.value.Ok? ==> ended.value.value.Stopped?)
    ensures ended.None? ==> store.w.phase == Opening(resp, start, false)
    ensures store.disk.dest.Some? && !overwrite ==> ended == Some(Err(FileExists)) || ended == Some(Err(Io))
    ensures ended == Some(Err(FileExists)) ==> store.disk.dest.Some? && !overwrite
  {
    hide Legal, Exec, Answers;
    resp, start := Response(0, 0, None, None, None, []), 0;
    var statFails: bool := *;
    if statFails {
      store.Take(BeginFails);
      return Some(Err(Io)), resp, start;
    }
    if store.disk.dest.Some? && !overwrite {
      store.Take(Begin(overwrite));
      return Some(Err(FileExists)), resp, start;
    }
    var prior, offset := ResumePoint(store);
    store.Take(Begin(overwrite));
    var answer := Exchange(store, MakeGet(offset, prior));
    if answer.Ok? && answer.value.Some? && answer.value.value.status == RANGE_NOT_SATISFIABLE {
      answer := Exchange(store, MakeGet(0, None));
    }
    match answer {
      case Err(e) => ended := Some(Err(e));
      case Ok(None) => ended := Some(Ok(Stopped));
      case Ok(Some(response)) =>
        resp := response;
        if !IsSuccess(resp.status) {
          return Some(Err(HttpStatus(resp.status))), resp, start;
        }
        start := if resp.status == PARTIAL_CONTENT then offset else 0;
        ended := None;
    }
  }

  /** What reading the body once gives: nothing at its end, otherwise at most a buffer full. */
  method ReadChunk(remaining: nat) returns (r: Result<nat>)
    ensures r.Ok? ==> r.value <= remaining && r.value <= BUFFER_BYTES && (r.value == 0 <==> remaining == 0)
  {
    var fails: bool := *;
    if fails {
      return Err(Network);
    }
    var n: nat := *;
    var most := if remaining <= BUFFER_BYTES then remaining else BUFFER_BYTES;
    r := Ok(if 0 < n <= most then n else most);
  }

  /** The counts published since `from`: ascending, up to `bytes`, and never 128 KiB apart. */
  ghost predicate PublishedUpTo(values: seq<nat>, from: nat, bytes: nat) {
    && from <= |values|
    && Ascending(values[from..])
    && (forall i :: from <= i < |values| ==> values[i] <= bytes)
    && (forall i :: from < i < |values| ==> values[i] < values[i - 1] + 131_072)
  }

  lemma PublishMore(values: seq<nat>, from: nat, bytes: nat, more: nat)
    requires PublishedUpTo(values, from, bytes) && bytes <= more
    ensures PublishedUpTo(values, from, more)
    ensures |values| == from || more < values[|values| - 1] + 131_072 ==> PublishedUpTo(values + [more], from, more)
  {
    assert (values + [more])[from..] == values[from..] + [more];
  }

  /** What was published last is what the counter compares with. */
  ghost predicate LastPublished(progressTx: ProgressChannel, progress: Progress, from: nat)
    reads progressTx, progress
  {
    from < |progressTx.values| && progressTx.values[|progressTx.values| - 1] == progress.lastSampleBytes
  }

  /** The state between two reads: file, counter and session agree on how far the transfer is. */
  ghost predicate InStep(store: Store, part: PartFile, progress: Progress, body: Bytes, got: nat)
    reads store, part, progress
  {
    && store.Valid() && part.store == store && progress.Valid()
    && store.w.phase.Streaming? && store.w.phase.at.Reading? && part.Tracks(store.w.phase.x)
    && store.w.phase.x.body == body && store.w.phase.x.got == got
    && store.disk.part.Some? && |store.disk.PartData()| == part.pos == progress.bytes
  }

  /** Writes one chunk, counts it and publishes the count if it is time to. */
  method Pump(store: Store, body: Bytes, got: nat, n: nat, part: PartFile, progress: Progress,
              progressTx: ProgressChannel, ghost from: nat)
    returns (r: Result<()>)
    requires InStep(store, part, progress, body, got) && 0 < n <= BUFFER_BYTES && got + n <= |body|
    requires PublishedUpTo(progressTx.values, from, progress.bytes) && LastPublished(progressTx, progress, from)
    modifies store, part, progress, progressTx
    ensures store.Valid() && old(store.trail) <= store.trail
    ensures old(progressTx.values) <= progressTx.values
    ensures r.Err? ==> !r.error.FileExists?
    ensures r.Err? ==> store.w.phase == Done(Err(r.error)) && PublishedUpTo(progressTx.values, from, progress.bytes)
    ensures r.Ok? ==>
      && InStep(store, part, progress, body, got + n)
      && progress.bytes == old(progress.bytes) + n
      && PublishedUpTo(progressTx.values, from, progress.bytes) && LastPublished(progressTx, progress, from)
  {
    hide Legal, Exec, PublishedUpTo;
    r := part.Write(body[got..got + n], store.w.phase.x);
    if r.Ok? {
      PublishMore(progressTx.values, from, progress.bytes, progress.bytes + n);
      var elapsed: bool := *;
      var publish := progress.Add(n, elapsed);
      if publish {
        progressTx.values := progressTx.values + [progress.bytes];
      }
    }
  }

  /** The body has ended: the last count is published, then the file. */
  method Complete(store: Store, part: PartFile, progress: Progress, progressTx: ProgressChannel, ghost from: nat)
    returns (end: WorkerEnd)
    requires store.Valid() && part.store == store && progress.Valid()
    requires store.w.phase.Streaming? && store.w.phase.at.FinalSync? && part.Tracks(store.w.phase.x)
    requires store.disk.part.Some? && |store.disk.PartData()| == part.pos == progress.bytes
    requires PublishedUpTo(progressTx.values, from, progress.bytes) && LastPublished(progressTx, progress, from)
    modifies store, progress, progressTx
    ensures store.Valid() && old(store.trail) <= store.trail
    ensures old(progressTx.values) <= progressTx.values
    ensures end.Err? ==> !end.error.FileExists?
    ensures store.w.phase == Done(end) && progress.bytes == old(progress.bytes)
    ensures PublishedUpTo(progressTx.values, from, progress.bytes)
    ensures progressTx.values != [] && progressTx.values[|progressTx.values| - 1] == progress.bytes
    ensures end.Ok? ==> end.value.Finished? && end.value.result.bytes == progress.bytes
    ensures end.Ok? ==> store.disk.dest.Some? && |store.disk.dest.value| == progress.bytes
  {
    hide Legal, Exec, PublishedUpTo;
    progress.ForceUpdate();
    PublishMore(progressTx.values, from, progress.bytes, progress.bytes);
    progressTx.values := progressTx.values + [progress.bytes];
    var path := part.Finalize(store.w.phase.x);
    match path {
      case Err(e) => end := Err(e);
      case Ok(p) => end := Ok(Finished(DownloadResult(p, progress.bytes)));
    }
  }

  /** Reads the body into the partial file until it ends, fails or is told to stop. */
  method Transfer(store: Store, resp: Response, part: PartFile, progress: Progress,
                  progressTx: ProgressChannel, ghost from: nat)
    returns (end: WorkerEnd)
    requires InStep(store, part, progress, resp.body, 0)
    requires PublishedUpTo(progressTx.values, from, progress.bytes) && LastPublished(progressTx, progress, from)
    modifies store, part, progress, progressTx
    ensures store.Valid() && old(store.trail) <= store.trail
    ensures old(progressTx.values) <= progressTx.values
    ensures end.Err? ==> !end.error.FileExists?
    ensures store.w.phase == Done(end)
    ensures exists bytes: nat :: PublishedUpTo(progressTx.values, from, bytes)
    ensures end.Ok? && end.value.Finished? ==>
      && end.value.result.bytes == progress.bytes == old(progress.bytes) + |resp.body|
      && store.disk.dest.Some? && |store.disk.dest.value| == progress.bytes
      && progressTx.values != [] && progressTx.values[|progressTx.values| - 1] == progress.bytes
  {
    hide Legal, Exec, PublishedUpTo;
    var got := 0;
    while true
      invariant InStep(store, part, progress, resp.body, got) && old(store.trail) <= store.trail
      invariant 0 <= got <= |resp.body| && progress.bytes == old(progress.bytes) + got
      invariant PublishedUpTo(progressTx.values, from, progress.bytes) && LastPublished(progressTx, progress, from)
      invariant old(progressTx.values) <= progressTx.values
      decreases |resp.body| - got
    {
      store.Elapse();
      ghost var x := store.w.phase.x;
      var stopped: bool := *;
      if stopped {
        store.Take(StopSeen);
        var saved := part.Checkpoint(x, OnStop);
        return if saved.Ok? then Ok(Stopped) else Err(saved.error);
      }
      var read := ReadChunk(|resp.body| - got);
      if read.Err? {
        store.Take(ReadFails);
        var _ := part.Checkpoint(x, OnError);
        return Err(Network);
      }
      if read.value == 0 {
        store.Take(EndOfBody);
        break;
      }
      var written := Pump(store, resp.body, got, read.value, part, progress, progressTx, from);
      if written.Err? {
        return Err(written.error);
      }
      got := got + read.value;
    }
    end := Complete(store, part, progress, progressTx, from);
  }

  /**
   * One whole worker, on any server. It makes only legal steps of the transfer machine and ends
   * as that machine ends. If it reports success, the length of the destination's file is what it
   * reports and the last progress value it published; and if no validator betrays it, that file
   * holds exactly one version's bytes.
   */
  method Run(store: Store, overwrite: bool, progressTx: ProgressChannel) returns (end: WorkerEnd)
    requires store.Valid() && store.w.phase.Idle? && Accounting.Consistent(store.origin)
    modifies store, progressTx
    ensures store.Valid() && old(store.trail) <= store.trail
    ensures store.w.phase == Done(end) && Accounting.Consistent(store.w)
    ensures Invariant.Inv(store.origin) ==> Invariant.Inv(store.w)
    ensures exists bytes: nat :: PublishedUpTo(progressTx.values, old(|progressTx.values|), bytes)
    ensures old(progressTx.values) <= progressTx.values
    ensures old(store.disk).dest.Some? && !overwrite ==>
      (end == Err(FileExists) || end == Err(Io)) && store.disk == old(store.disk)
    ensures end == Err(FileExists) ==> old(store.disk).dest.Some? && !overwrite && store.disk == old(store.disk)
    ensures end.Ok? && end.value.Finished? ==>
      && end.value.result.path == store.path
      && store.disk.dest.Some? && |store.disk.dest.value| == end.value.result.bytes
      && progressTx.values != [] && progressTx.values[|progressTx.values| - 1] == end.value.result.bytes
    ensures Invariant.Inv(store.origin) && end.Ok? && end.value.Finished? ==>
      Invariant.HoldsWhole(store.w, end.value.result.bytes)
    ensures end != Err(Error.Cancelled)
  {
    hide Legal, Exec, Invariant.Inv, Invariant.HoldsWhole, Accounting.Consistent;
    ghost var from := |progressTx.values|;
    assert PublishedUpTo(progressTx.values, from, 0);
    var ended, resp, start := Connect(store, overwrite);
    if ended.Some? {
      end := ended.value;
    } else {
      Known(store);
      Theorems.OpensWithin(store.w);
      var manifest := Manifest(store.url, resp.etag, resp.lastModified,
        if resp.length.Some? then Some(start + resp.length.value) else None, []).SetContiguous(start);
      var file := PartFile.Open(store, start, manifest);
      match file {
        case Err(e) => end := Err(e);
        case Ok(part) =>
          var progress := new Progress(start, manifest.total);
          PublishMore(progressTx.values, from, 0, start);
          progressTx.values := progressTx.values + [progress.bytes];
          end := Transfer(store, resp, part, progress, progressTx, from);
      }
    }
    Known(store);
    EndsWell(store.w, end);
  }

  lemma EndsWell(w: World, end: WorkerEnd)
    requires Accounting.Consistent(w) && w.phase == Done(end)
    ensures end != Err(Error.Cancelled)
    ensures end.Ok? && end.value.Finished? ==>
      && end.value.result.path == w.path
      && w.disk.dest.Some? && |w.disk.dest.value| == end.value.result.bytes
    ensures Invariant.Inv(w) && end.Ok? && end.value.Finished? ==> Invariant.HoldsWhole(w, end.value.result.bytes)
  {
  }
}
