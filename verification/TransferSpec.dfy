/**
 * One destination, the server it is fetched from and the worker that fetches it, as a state
 * machine in which every change of the disk is a step of its own. A process crash may come
 * between any two steps.
 */
module TransferSpec {
  import opened Types
  import opened Manifests

  newtype Byte = x: int | 0 <= x < 256
  type Bytes = seq<Byte>

  // ----- the disk

  /** The first `synced` bytes of a file are on stable storage. */
  datatype File = File(data: Bytes, synced: nat)

  datatype Disk = Disk(dest: Option<Bytes>, part: Option<File>, manifest: Option<Manifest>) {
    function PartLen(): nat {
      if part.Some? then |part.value.data| else 0
    }

    function PartData(): Bytes {
      if part.Some? then part.value.data else []
    }

    /** The manifest a new worker may resume from. */
    function Resumable(url: Url): Option<Manifest> {
      if manifest.Some? && manifest.value.IsResumableFor(url) then manifest else None
    }

    /** Where the next worker for `url` starts reading. */
    function NextOffset(url: Url): nat {
      OffsetOf(Resumable(url))
    }

    function OffsetOf(prior: Option<Manifest>): nat {
      if prior.None? then 0
      else if prior.value.ResumeOffset() <= PartLen() then prior.value.ResumeOffset()
      else PartLen()
    }

    /** Opening the partial file creates it if needed and cuts it at `offset`. */
    function Created(): Disk {
      this.(part := Some(if part.Some? then part.value else File([], 0)))
    }

    function CutAt(offset: nat): Disk
      requires part.Some? && offset <= PartLen()
    {
      var f := part.value;
      this.(part := Some(File(f.data[..offset], if f.synced <= offset then f.synced else offset)))
    }

    function Appended(bytes: Bytes): Disk
      requires part.Some?
    {
      this.(part := Some(part.value.(data := part.value.data + bytes)))
    }

    function Synced(): Disk
      requires part.Some?
    {
      this.(part := Some(part.value.(synced := |part.value.data|)))
    }

    function Published(): Disk
      requires part.Some?
    {
      this.(dest := Some(part.value.data), part := None)
    }
  }

  const CHECKPOINT_BYTES: nat := 4 * 1024 * 1024

  /** The body is read and written a buffer at a time. */
  const BUFFER_BYTES: nat := 64 * 1024

  /** A worker never has this many bytes in the file that its manifest does not record. */
  const UNSAVED_BYTES: nat := CHECKPOINT_BYTES + BUFFER_BYTES

  // ----- the server

  datatype Version = Version(body: Bytes, etag: Option<Validator>, lastModified: Option<Validator>) {
    predicate Names(v: Validator) {
      etag == Some(v) || lastModified == Some(v)
    }
  }

  /**
   * How a validator can betray a worker at byte `p`: it named version `i`, long enough to have
   * recorded that byte; version `k`, the same or a later one, left another byte there than
   * version `j` has; and the validator names `j`, which still has something to send. A later
   * `k` leaves the record of `i` in place only for as long as it takes no checkpoint.
   */
  predicate MixesUp(versions: seq<Version>, i: nat, k: nat, j: nat, v: Validator, p: nat) {
    && i <= k <= j < |versions|
    && versions[i].Names(v) && versions[j].Names(v)
    && p < |versions[i].body| && p < |versions[k].body| && p + 1 < |versions[j].body|
    && versions[k].body[p] != versions[j].body[p]
    && (i == k || p + 1 < UNSAVED_BYTES)
  }

  /** No validator ever betrays a worker. */
  ghost predicate NeverMixesUp(versions: seq<Version>) {
    forall i: nat, k: nat, j: nat, v, p: nat :: !MixesUp(versions, i, k, j, v, p)
  }

  /** All representations the resource will ever have, in order, and the one it has now. */
  datatype Server = Server(versions: seq<Version>, current: nat) {
    ghost predicate Honest() {
      current < |versions| && NeverMixesUp(versions)
    }
  }

  datatype Get = Get(range: Option<nat>, ifRange: Option<Validator>)

  datatype Response = Response(
    status: nat,
    version: nat,
    etag: Option<Validator>,
    lastModified: Option<Validator>,
    length: Option<nat>,
    body: Bytes)

  const PARTIAL_CONTENT: nat := 206
  const RANGE_NOT_SATISFIABLE: nat := 416

  predicate IsSuccess(status: nat) {
    200 <= status < 300
  }

  /** A range is asked for exactly when resuming, and then with the prior validator. */
  function MakeGet(offset: nat, prior: Option<Manifest>): Get {
    if offset > 0 then Get(Some(offset), if prior.Some? then prior.value.Validator() else None)
    else Get(None, None)
  }

  /**
   * What a conforming server may answer: a 206 only to a satisfiable range whose If-Range
   * validator matches the current representation (RFC 9110, sections 13.1.5, 14.2 and
   * 15.3.7), its body starting at the requested byte; any other success carries the whole
   * current representation. Validators and length may be left out of any answer.
   */
  predicate Answers(server: Server, get: Get, resp: Response) {
    server.current < |server.versions| &&
    var v := server.versions[server.current];
    && resp.version == server.current
    && (resp.etag.Some? ==> resp.etag == v.etag)
    && (resp.lastModified.Some? ==> resp.lastModified == v.lastModified)
    && (resp.length.Some? ==> resp.length.value == |resp.body|)
    && (resp.status == PARTIAL_CONTENT ==>
          && get.range.Some? && get.range.value < |v.body|
          && (get.ifRange.Some? ==> v.Names(get.ifRange.value))
          && resp.body == v.body[get.range.value..])
    && (IsSuccess(resp.status) && resp.status != PARTIAL_CONTENT ==> resp.body == v.body)
  }

  // ----- the worker

  /** Why a checkpoint is taken; it decides what follows. */
  datatype Why = Cadence | OnStop | OnError

  /** Where in its loop a transfer is; while writing, how much of the buffer is in the file. */
  datatype At =
    | Reading
    | Writing(done: nat)
    | Written
    | Syncing(why: Why)
    | Saving(why: Why)
    | FinalSync
    | FinalRename
    | FinalRemove
  {
    function InBuffer(): nat {
      if Writing? then done else 0
    }
  }

  /**
   * A transfer in progress. `body` is the whole response body and `got` how much of it is in
   * the partial file; `saved` remembers whether this session has written its manifest yet.
   */
  datatype Session = Session(
    version: nat, body: Bytes, start: nat, got: nat, manifest: Manifest, dirty: bool, saved: bool)
  {
    function Position(): nat {
      start + got
    }
  }

  datatype Phase =
    | Idle
    | Asking(offset: nat, prior: Option<Manifest>, again: bool)
    | Opening(resp: Response, start: nat, created: bool)
    | Streaming(x: Session, at: At)
    | Done(end: WorkerEnd)

  datatype World = World(url: Url, path: Destination, disk: Disk, server: Server, phase: Phase) {
    function Ends(end: WorkerEnd): World {
      this.(phase := Done(end))
    }
  }

  datatype Action =
    | Begin(overwrite: bool)
    | BeginFails
    | Respond(resp: Response)
    | SendFails(error: Error)
    | StopSeen
    | Create
    | SetLen
    | OpenFails
    | Append(n: nat, more: bool)
    | WriteFails
    | CheckCadence
    | ReadFails
    | EndOfBody
    | Sync
    | Save
    | CheckpointFails
    | SyncAll
    | Rename
    | Remove(ok: bool)
    | FinalizeFails
    | Panics
    // between two workers
    | Deliver
    | DiscardPart
    | DiscardManifest
    // at any time
    | Advance
    | Crash

  function SessionManifest(url: Url, resp: Response, start: nat): Manifest {
    Manifest(url, resp.etag, resp.lastModified,
      if resp.length.Some? then Some(start + resp.length.value) else None,
      []).SetContiguous(start)
  }

  /** The request a worker has out: the rest of the file, or after a refused range all of it. */
  function RequestOf(p: Phase): Get
    requires p.Asking?
  {
    if p.again then MakeGet(0, None) else MakeGet(p.offset, p.prior)
  }

  predicate SendError(error: Error) {
    error.Network? || error.InvalidHeaderValue? || error.InvalidRequest?
  }

  predicate Enabled(w: World, a: Action) {
    var p := w.phase;
    match a
    case Begin(_) => p.Idle?
    case BeginFails => p.Idle?
    case Respond(resp) => p.Asking? && Answers(w.server, RequestOf(p), resp)
    case SendFails(error) => p.Asking? && SendError(error)
    case StopSeen => p.Asking? || (p.Streaming? && p.at.Reading?)
    case Create => p.Opening? && !p.created
    case SetLen => p.Opening? && p.created && w.disk.part.Some? && p.start <= w.disk.PartLen()
    case OpenFails => p.Opening?
    case Append(n, more) =>
      && p.Streaming? && (p.at.Reading? || p.at.Writing?)
      && w.disk.part.Some? && (n > 0 || more)
      && p.at.InBuffer() + n <= BUFFER_BYTES && p.x.got + n <= |p.x.body|
    case WriteFails => p.Streaming? && (p.at.Writing? || p.at.Written?)
    case CheckCadence => p.Streaming? && p.at.Written?
    case ReadFails => p.Streaming? && p.at.Reading?
    case EndOfBody => p.Streaming? && p.at.Reading? && p.x.got == |p.x.body|
    case Sync => p.Streaming? && p.at.Syncing? && w.disk.part.Some?
    case Save => p.Streaming? && p.at.Saving?
    case CheckpointFails => p.Streaming? && (p.at.Syncing? || p.at.Saving?)
    case SyncAll => p.Streaming? && p.at.FinalSync? && w.disk.part.Some?
    case Rename => p.Streaming? && p.at.FinalRename? && w.disk.part.Some?
    case Remove(_) => p.Streaming? && p.at.FinalRemove?
    case FinalizeFails => p.Streaming? && (p.at.FinalSync? || p.at.FinalRename?)
    case Panics => !p.Idle? && !p.Done?
    case Deliver => p.Done?
    case DiscardPart => p.Idle?
    case DiscardManifest => p.Idle?
    case Advance => w.server.current + 1 < |w.server.versions|
    case Crash => true
  }

  /** What a checkpoint for `why` leads to, once it has been taken or has failed. */
  function AfterCheckpoint(w: World, x: Session, why: Why): World {
    match why
    case Cadence => w.(phase := Streaming(x, Reading))
    case OnStop => w.Ends(Ok(Stopped))
    case OnError => w.Ends(Err(Network))
  }

  /** A checkpoint first looks whether there is anything to record. */
  function BeginCheckpoint(w: World, x: Session, why: Why): World {
    if x.dirty then w.(phase := Streaming(x, Syncing(why))) else AfterCheckpoint(w, x, why)
  }

  function Received(w: World, p: Phase, resp: Response): World
    requires p.Asking?
  {
    if resp.status == RANGE_NOT_SATISFIABLE && !p.again then w.(phase := p.(again := true))
    else if !IsSuccess(resp.status) then w.Ends(Err(HttpStatus(resp.status)))
    else w.(phase := Opening(resp, if resp.status == PARTIAL_CONTENT then p.offset else 0, false))
  }

  function Apply(w: World, a: Action): World
    requires Enabled(w, a)
  {
    var p := w.phase;
    match a
    case Begin(overwrite) =>
      if w.disk.dest.Some? && !overwrite then w.Ends(Err(FileExists))
      else w.(phase := Asking(w.disk.NextOffset(w.url), w.disk.Resumable(w.url), false))
    case BeginFails => w.Ends(Err(Io))
    case Respond(resp) => Received(w, p, resp)
    case SendFails(error) => w.Ends(Err(error))
    case StopSeen => if p.Asking? then w.Ends(Ok(Stopped)) else BeginCheckpoint(w, p.x, OnStop)
    case Create => w.(disk := w.disk.Created(), phase := p.(created := true))
    case SetLen =>
      w.(disk := w.disk.CutAt(p.start),
         phase := Streaming(
           Session(p.resp.version, p.resp.body, p.start, 0, SessionManifest(w.url, p.resp, p.start), false, false),
           Reading))
    case OpenFails => w.Ends(Err(Io))
    case Append(n, more) =>
      w.(disk := w.disk.Appended(p.x.body[p.x.got..p.x.got + n]),
         phase := Streaming(
           p.x.(got := p.x.got + n, dirty := p.x.dirty || !more),
           if more then Writing(p.at.InBuffer() + n) else Written))
    case WriteFails => w.Ends(Err(Io))
    case CheckCadence =>
      if p.x.Position() - p.x.manifest.ResumeOffset() >= CHECKPOINT_BYTES then BeginCheckpoint(w, p.x, Cadence)
      else w.(phase := p.(at := Reading))
    case ReadFails => BeginCheckpoint(w, p.x, OnError)
    case EndOfBody => w.(phase := p.(at := FinalSync))
    case Sync => w.(disk := w.disk.Synced(), phase := p.(at := Saving(p.at.why)))
    case Save =>
      var m := p.x.manifest.SetContiguous(p.x.Position());
      AfterCheckpoint(
        w.(disk := w.disk.(manifest := Some(m))), p.x.(manifest := m, dirty := false, saved := true), p.at.why)
    case CheckpointFails => w.Ends(if p.at.why.OnError? then Err(Network) else Err(Io))
    case SyncAll => w.(disk := w.disk.Synced(), phase := p.(at := FinalRename))
    case Rename => w.(disk := w.disk.Published(), phase := p.(at := FinalRemove))
    case Remove(ok) =>
      w.(disk := if ok then w.disk.(manifest := None) else w.disk)
       .Ends(Ok(Finished(DownloadResult(w.path, p.x.Position()))))
    case FinalizeFails => w.Ends(Err(Io))
    case Panics => w.Ends(Err(Unknown))
    case Deliver => w.(phase := Idle)
    case DiscardPart => w.(disk := w.disk.(part := None))
    case DiscardManifest => w.(disk := w.disk.(manifest := None))
    case Advance => w.(server := w.server.(current := w.server.current + 1))
    case Crash => w.(phase := Idle)
  }

  /**
   * What a cleanup leaves, given its answer: both files go, the partial file first, unless a
   * removal fails.
   */
  function Cleaned(w: World, cleanup: Option<Error>, partGone: bool): World {
    if cleanup.None? then w.(disk := w.disk.(part := None, manifest := None))
    else if partGone then w.(disk := w.disk.(part := None))
    else w
  }

  /** `acts` can be taken one after the other from `w`. */
  predicate Legal(w: World, acts: seq<Action>)
    decreases |acts|
  {
    acts == [] || (Enabled(w, acts[0]) && Legal(Apply(w, acts[0]), acts[1..]))
  }

  function Exec(w: World, acts: seq<Action>): World
    requires Legal(w, acts)
    decreases |acts|
  {
    if acts == [] then w else Exec(Apply(w, acts[0]), acts[1..])
  }

  lemma {:induction false} ExecAppend(w: World, acts: seq<Action>, a: Action)
    requires Legal(w, acts) && Enabled(Exec(w, acts), a)
    ensures Legal(w, acts + [a]) && Exec(w, acts + [a]) == Apply(Exec(w, acts), a)
    decreases |acts|
  {
    hide Apply, Enabled;
    if acts == [] {
      assert [a][1..] == [];
    } else {
      ExecAppend(Apply(w, acts[0]), acts[1..], a);
      assert (acts + [a])[1..] == acts[1..] + [a];
    }
  }

  lemma {:induction false} ExecConcat(w: World, a: seq<Action>, b: seq<Action>)
    requires Legal(w, a) && Legal(Exec(w, a), b)
    ensures Legal(w, a + b) && Exec(w, a + b) == Exec(Exec(w, a), b)
    decreases |a|
  {
    hide Apply, Enabled;
    if a == [] {
      assert a + b == b;
    } else {
      ExecConcat(Apply(w, a[0]), a[1..], b);
      assert (a + b)[1..] == a[1..] + b;
    }
  }

  /** Some legal run leads from `w` to `r`. */
  ghost predicate Leads(w: World, r: World) {
    exists acts :: Takes(w, acts, r)
  }

  predicate Takes(w: World, acts: seq<Action>, r: World) {
    Legal(w, acts) && Exec(w, acts) == r
  }

  lemma LeadsNowhere(w: World)
    ensures Leads(w, w)
  {
    assert Takes(w, [], w);
  }

  lemma LeadsOn(w: World, r: World, a: Action)
    requires Leads(w, r) && Enabled(r, a)
    ensures Leads(w, Apply(r, a))
  {
    hide Enabled, Apply, Legal, Exec;
    var acts :| Takes(w, acts, r);
    ExecAppend(w, acts, a);
    assert Takes(w, acts + [a], Apply(r, a));
  }

  lemma LeadsFurther(w: World, m: World, r: World)
    requires Leads(w, m) && Leads(m, r)
    ensures Leads(w, r)
  {
    hide Enabled, Apply, Legal, Exec;
    var before :| Takes(w, before, m);
    var after :| Takes(m, after, r);
    ExecConcat(w, before, after);
    assert Takes(w, before + after, r);
  }
}
