/** The invariant that keeps versions apart, and its preservation by every step. */
module TransferInvariant {
  import opened Types
  import opened Manifests
  import opened TransferSpec
  import opened TransferAccounting

  /** Version `i` has the manifest's validator, and every byte the manifest records. */
  predicate RecordOf(versions: seq<Version>, m: Manifest, i: nat) {
    && i < |versions|
    && m.Validator().Some? && versions[i].Names(m.Validator().value)
    && m.ResumeOffset() <= |versions[i].body|
  }

  /** The manifest a worker might resume from was taken from a version no later than `v`. */
  ghost predicate OriginUpTo(w: World, v: nat) {
    var m := w.disk.Resumable(w.url);
    m.Some? ==> exists i :: 0 <= i <= v && RecordOf(w.server.versions, m.value, i)
  }

  /**
   * If the server comes to match that manifest with a version it could send the rest of, the
   * bytes a worker would keep are that version's.
   */
  ghost predicate KeepsPrefix(w: World) {
    forall j :: w.server.current <= j && Matches(w, j) && w.disk.NextOffset(w.url) < |w.server.versions[j].body| ==>
      IsPrefix(w.disk.PartData(), w.disk.NextOffset(w.url), w.server.versions[j].body)
  }

  /** More than that: byte by byte, even where the version is shorter than what is kept. */
  ghost predicate KeepsBytes(w: World) {
    forall j :: w.server.current <= j && Matches(w, j) ==>
      Agrees(w.disk.PartData(), w.disk.NextOffset(w.url), w.server.versions[j].body)
  }

  /** As far as a worker could keep them and still have something to ask for, the bytes agree. */
  ghost predicate Agrees(data: Bytes, n: nat, body: Bytes) {
    forall p :: 0 <= p < n && p < |data| && p + 1 < |body| ==> data[p] == body[p]
  }

  ghost predicate IsPrefix(data: Bytes, n: nat, body: Bytes) {
    n <= |data| && n <= |body| && data[..n] == body[..n]
  }

  ghost predicate Safe(w: World) {
    OriginUpTo(w, w.server.current) && KeepsPrefix(w)
  }

  /** The version is one the server would match the manifest on disk with. */
  predicate Matches(w: World, v: nat) {
    var m := w.disk.Resumable(w.url);
    m.Some? && v < |w.server.versions| && w.server.versions[v].Names(m.value.Validator().value)
  }

  /** These response headers are the version's own, as far as they are there at all. */
  ghost predicate HeadersOf(etag: Option<Validator>, lastModified: Option<Validator>, v: Version) {
    && (etag.Some? ==> etag == v.etag)
    && (lastModified.Some? ==> lastModified == v.lastModified)
  }

  ghost predicate OpeningOk(w: World, resp: Response, start: nat) {
    && resp.version <= w.server.current
    && resp.version < |w.server.versions|
    && (var v := w.server.versions[resp.version];
        && HeadersOf(resp.etag, resp.lastModified, v)
        && start <= |v.body| && resp.body == v.body[start..]
        && IsPrefix(w.disk.PartData(), start, v.body))
    && OriginUpTo(w, resp.version)
    && (start > 0 ==> Matches(w, resp.version))
  }

  /** The session is fetching one version, which its manifest names if it names any. */
  ghost predicate HoldsVersion(w: World, x: Session) {
    && x.version <= w.server.current
    && x.version < |w.server.versions|
    && (var v := w.server.versions[x.version];
        && HeadersOf(x.manifest.etag, x.manifest.lastModified, v)
        && x.start <= |v.body| && x.body == v.body[x.start..])
    && (!x.saved ==> OriginUpTo(w, x.version) && (x.start > 0 ==> Matches(w, x.version)))
  }

  /** And the partial file holds that version's first bytes. */
  ghost predicate FileHolds(w: World, x: Session)
    requires x.version < |w.server.versions|
  {
    && x.Position() <= |w.server.versions[x.version].body|
    && w.disk.PartData() == w.server.versions[x.version].body[..x.Position()]
  }

  ghost predicate StreamingOk(w: World, x: Session, at: At) {
    && HoldsVersion(w, x)
    && (if at.FinalRemove? then
          && w.disk.dest == Some(w.server.versions[x.version].body)
          && x.Position() == |w.server.versions[x.version].body|
        else FileHolds(w, x))
  }

  /** The destination holds one whole version and nothing else. */
  ghost predicate HoldsWhole(w: World, bytes: nat) {
    exists v :: 0 <= v < |w.server.versions| && v <= w.server.current &&
      w.disk.dest == Some(w.server.versions[v].body) && bytes == |w.server.versions[v].body|
  }

  ghost predicate PhaseOk(w: World) {
    match w.phase
    case Idle => true
    case Asking(_, _, _) => true
    case Opening(resp, start, _) => OpeningOk(w, resp, start)
    case Streaming(x, at) => StreamingOk(w, x, at)
    case Done(end) => end.Ok? && end.value.Finished? ==> HoldsWhole(w, end.value.result.bytes)
  }

  ghost predicate Inv(w: World) {
    Consistent(w) && w.server.Honest() && Safe(w) && PhaseOk(w)
  }

  /** A good place to start: whatever files are there, no worker would resume from them. */
  ghost predicate Fresh(w: World) {
    AtRest(w) && w.server.Honest() && w.disk.Resumable(w.url).None?
  }

  lemma FreshIsInv(w: World)
    requires Fresh(w)
    ensures Inv(w) && KeepsBytes(w)
  {
  }

  // ----- steps that leave the disk alone

  lemma AdvanceKeeps(w: World)
    requires Inv(w) && Enabled(w, Advance)
    ensures Inv(Apply(w, Advance))
  {
    var r := Apply(w, Advance);
    assert r.disk == w.disk;
    match w.phase
    case Done(end) =>
      if end.Ok? && end.value.Finished? {
        var v :| 0 <= v < |w.server.versions| && v <= w.server.current &&
          w.disk.dest == Some(w.server.versions[v].body) && end.value.result.bytes == |w.server.versions[v].body|;
        assert r.server.versions[v] == w.server.versions[v];
      }
    case _ =>
  }

  lemma RespondKeeps(w: World, resp: Response)
    requires Inv(w) && Enabled(w, Respond(resp))
    ensures Inv(Apply(w, Respond(resp)))
  {
    var r := Apply(w, Respond(resp));
    var v := w.server.versions[w.server.current];
    if r.phase.Opening? {
      if resp.status == PARTIAL_CONTENT {
        assert IsPrefix(w.disk.PartData(), w.phase.offset, v.body);
      }
    }
  }

  // ----- steps on the partial file

  lemma CreateKeeps(w: World)
    requires Inv(w) && Enabled(w, Create)
    ensures Inv(Apply(w, Create))
  {
    var r := Apply(w, Create);
    assert r.disk.PartData() == w.disk.PartData();
    assert r.disk.NextOffset(w.url) == w.disk.NextOffset(w.url);
  }

  /** The session's bytes agree with any version its own validator, or an older record's, names later. */
  lemma SessionAgrees(w: World, x: Session, j: nat, p: nat)
    requires w.server.Honest() && RecordOk(w, x) && HoldsVersion(w, x) && FileHolds(w, x)
    requires w.server.current <= j && Matches(w, j)
    requires p < w.disk.NextOffset(w.url) && p + 1 < |w.server.versions[j].body|
    ensures w.disk.PartData()[p] == w.server.versions[j].body[p]
  {
    var m := w.disk.Resumable(w.url).value;
    var v := m.Validator().value;
    if w.server.versions[x.version].Names(v) {
      assert !MixesUp(w.server.versions, x.version, x.version, j, v, p);
    } else {
      var i :| 0 <= i <= x.version && RecordOf(w.server.versions, m, i);
      assert !MixesUp(w.server.versions, i, x.version, j, v, p);
    }
  }

  /** As long as the partial file is a prefix of the session's version, resuming is safe. */
  lemma SessionIsSafe(w: World, x: Session)
    requires w.server.Honest() && RecordOk(w, x) && HoldsVersion(w, x)
    requires w.disk.part.Some? ==> FileHolds(w, x)
    ensures Safe(w) && KeepsBytes(w)
  {
    var m := w.disk.Resumable(w.url);
    if m.Some? {
      if x.saved {
        assert x.Position() <= |w.server.versions[x.version].body|;
        assert RecordOf(w.server.versions, m.value, x.version);
      } else {
        var i :| 0 <= i <= x.version && RecordOf(w.server.versions, m.value, i);
      }
      forall j, p |
        && w.server.current <= j && Matches(w, j)
        && 0 <= p < w.disk.NextOffset(w.url) && p < |w.disk.PartData()| && p + 1 < |w.server.versions[j].body|
        ensures w.disk.PartData()[p] == w.server.versions[j].body[p]
      {
        SessionAgrees(w, x, j, p);
      }
    }
  }

  lemma SetLenKeeps(w: World)
    requires Inv(w) && Enabled(w, SetLen)
    ensures Inv(Apply(w, SetLen))
  {
    var r := Apply(w, SetLen);
    var x := r.phase.x;
    var body := w.server.versions[x.version].body;
    ContiguousOffset(Manifest(w.url, w.phase.resp.etag, w.phase.resp.lastModified, x.manifest.total, []), x.start);
    assert r.disk.Resumable(w.url) == w.disk.Resumable(w.url);
    assert HoldsVersion(r, x);
    assert FileHolds(r, x);
    SessionIsSafe(r, x);
  }

  /** The next bytes of the body are the next bytes of the version. */
  lemma BodyContinues(body: Bytes, start: nat, rest: Bytes, got: nat, n: nat)
    requires start <= |body| && rest == body[start..] && got + n <= |rest|
    ensures start + got + n <= |body|
    ensures body[..start + got] + rest[got..got + n] == body[..start + got + n]
  {
  }

  lemma AppendHolds(w: World, n: nat, more: bool)
    requires Inv(w) && Enabled(w, Append(n, more))
    ensures var r := Apply(w, Append(n, more)); HoldsVersion(r, r.phase.x) && FileHolds(r, r.phase.x)
  {
    hide Safe;
    var r := Apply(w, Append(n, more));
    var x := w.phase.x;
    BodyContinues(w.server.versions[x.version].body, x.start, x.body, x.got, n);
    assert r.disk.Resumable(w.url) == w.disk.Resumable(w.url);
  }

  lemma AppendKeeps(w: World, n: nat, more: bool)
    requires Inv(w) && Enabled(w, Append(n, more))
    ensures Inv(Apply(w, Append(n, more)))
  {
    hide Safe;
    var r := Apply(w, Append(n, more));
    AppendHolds(w, n, more);
    SessionIsSafe(r, r.phase.x);
    hide HoldsVersion, FileHolds;
  }

  lemma SyncKeeps(w: World, a: Action)
    requires Inv(w) && Enabled(w, a) && (a.Sync? || a.SyncAll?)
    ensures Inv(Apply(w, a))
  {
    var r := Apply(w, a);
    assert r.disk.Resumable(w.url) == w.disk.Resumable(w.url);
    SessionIsSafe(r, r.phase.x);
  }

  lemma SaveKeeps(w: World)
    requires Inv(w) && Enabled(w, Save)
    ensures Inv(Apply(w, Save)) && KeepsBytes(Apply(w, Save))
  {
    var r := Apply(w, Save);
    var x := w.phase.x;
    ContiguousOffset(x.manifest, x.Position());
    var y := x.(manifest := x.manifest.SetContiguous(x.Position()), dirty := false, saved := true);
    assert HoldsVersion(r, y);
    assert FileHolds(r, y);
    SessionIsSafe(r, y);
  }

  lemma RenameKeeps(w: World)
    requires Inv(w) && Enabled(w, Rename)
    ensures Inv(Apply(w, Rename))
  {
    var r := Apply(w, Rename);
    var x := w.phase.x;
    var body := w.server.versions[x.version].body;
    assert x.Position() == |body| && body[..|body|] == body;
    assert r.disk.Resumable(w.url) == w.disk.Resumable(w.url);
    SessionIsSafe(r, x);
  }

  lemma RemoveKeeps(w: World, ok: bool)
    requires Inv(w) && Enabled(w, Remove(ok))
    ensures Inv(Apply(w, Remove(ok)))
  {
    assert w.disk.dest == Some(w.server.versions[w.phase.x.version].body);
  }

  lemma DiscardKeeps(w: World, a: Action)
    requires Inv(w) && Enabled(w, a) && (a.DiscardPart? || a.DiscardManifest?)
    ensures Inv(Apply(w, a))
  {
    var r := Apply(w, a);
    assert a.DiscardPart? ==> r.disk.NextOffset(w.url) == 0;
  }

  lemma CheckpointKeeps(w: World, a: Action)
    requires Inv(w) && Enabled(w, a) && w.phase.Streaming?
    requires a.StopSeen? || a.CheckCadence? || a.ReadFails? || a.CheckpointFails? || a.EndOfBody?
    ensures Inv(Apply(w, a))
  {
    hide Safe, HoldsWhole;
    assert Apply(w, a).disk == w.disk;
    SafeStays(w, Apply(w, a));
  }

  lemma SafeStays(w: World, r: World)
    requires Safe(w) && r.url == w.url && r.disk == w.disk && r.server == w.server
    ensures Safe(r)
  {
  }

  // ----- every step

  lemma PartsMakeInv(w: World)
    requires Consistent(w) && w.server.Honest() && Safe(w) && PhaseOk(w)
    ensures Inv(w)
  {
  }

  /** Every step keeps each part of the invariant. */
  lemma StepKeeps(w: World, a: Action)
    requires Inv(w) && Enabled(w, a)
    ensures var r := Apply(w, a); Consistent(r) && r.server.Honest() && Safe(r) && PhaseOk(r)
  {
    match a
    case Advance => AdvanceKeeps(w);
    case Respond(resp) => RespondKeeps(w, resp);
    case Create => CreateKeeps(w);
    case SetLen => SetLenKeeps(w);
    case Append(n, more) => AppendKeeps(w, n, more);
    case Sync => SyncKeeps(w, a);
    case SyncAll => SyncKeeps(w, a);
    case Save => SaveKeeps(w);
    case Rename => RenameKeeps(w);
    case Remove(ok) => RemoveKeeps(w, ok);
    case DiscardPart => DiscardKeeps(w, a);
    case DiscardManifest => DiscardKeeps(w, a);
    case StopSeen =>
      if w.phase.Streaming? {
        CheckpointKeeps(w, a);
      } else {
        EndKeeps(w, a);
      }
    case CheckCadence => CheckpointKeeps(w, a);
    case ReadFails => CheckpointKeeps(w, a);
    case CheckpointFails => CheckpointKeeps(w, a);
    case EndOfBody => CheckpointKeeps(w, a);
    case _ => EndKeeps(w, a);
  }

  /** The remaining steps change neither disk nor server. */
  lemma EndKeeps(w: World, a: Action)
    requires Inv(w) && Enabled(w, a)
    requires a.Begin? || a.BeginFails? || a.SendFails? || a.OpenFails? || a.WriteFails? || a.FinalizeFails? ||
             a.Panics? || a.Deliver? || a.Crash? || (a.StopSeen? && w.phase.Asking?)
    ensures Inv(Apply(w, a))
  {
    assert Apply(w, a).disk == w.disk && Apply(w, a).server == w.server;
  }

  /** The bytes kept for any manifest agree at every step, not only where a server could use them. */
  lemma StepKeepsBytes(w: World, a: Action)
    requires Inv(w) && KeepsBytes(w) && Enabled(w, a)
    ensures KeepsBytes(Apply(w, a))
  {
    hide Safe, HoldsWhole;
    var r := Apply(w, a);
    if r.phase.Streaming? {
      StepKeeps(w, a);
      SessionIsSafe(r, r.phase.x);
    } else if a.Save? {
      SaveKeeps(w);
    } else if !a.DiscardPart? && !a.DiscardManifest? && !a.Remove? {
      BytesStay(w, r);
    }
  }

  /** An empty partial file where there was none is no change. */
  lemma BytesStay(w: World, r: World)
    requires KeepsBytes(w) && r.url == w.url
    requires r.server.versions == w.server.versions && r.server.current >= w.server.current
    requires r.disk.PartData() == w.disk.PartData() && r.disk.manifest == w.disk.manifest
    ensures KeepsBytes(r)
  {
    assert r.disk.Resumable(r.url) == w.disk.Resumable(w.url);
    assert r.disk.PartLen() == w.disk.PartLen();
  }

  lemma {:induction false} RunKeeps(w: World, acts: seq<Action>)
    requires Inv(w) && Legal(w, acts)
    ensures Inv(Exec(w, acts))
    ensures KeepsBytes(w) ==> KeepsBytes(Exec(w, acts))
    decreases |acts|
  {
    hide Inv, KeepsBytes;
    if acts != [] {
      StepKeeps(w, acts[0]);
      PartsMakeInv(Apply(w, acts[0]));
      if KeepsBytes(w) {
        StepKeepsBytes(w, acts[0]);
      }
      RunKeeps(Apply(w, acts[0]), acts[1..]);
    }
  }

  lemma LeadsKeeps(w: World, r: World)
    requires Inv(w) && Leads(w, r)
    ensures Inv(r)
    ensures KeepsBytes(w) ==> KeepsBytes(r)
  {
    hide Inv, KeepsBytes, Legal, Exec;
    var acts :| Takes(w, acts, r);
    RunKeeps(w, acts);
  }

  /** Some chain of attempts leads here that began with nothing to resume, on an honest server. */
  ghost predicate ReachedSafely(w: World) {
    exists start :: Fresh(start) && Leads(start, w)
  }

  lemma ReachedSafelyIsInv(w: World)
    requires ReachedSafely(w)
    ensures Inv(w) && KeepsBytes(w)
  {
    hide Inv, KeepsBytes, Fresh, Leads;
    var start :| Fresh(start) && Leads(start, w);
    FreshIsInv(start);
    LeadsKeeps(start, w);
  }
}
