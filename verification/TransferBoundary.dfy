/**
 * Where the transfer's promises end: exactly which servers make a worker join two versions,
 * exactly when a loss of power does, and runs in which weaker promises fail.
 */
module TransferBoundary {
  import opened Types
  import opened Manifests
  import opened TransferSpec
  import opened TransferAccounting
  import opened TransferInvariant
  import opened TransferTheorems
  import opened TransferRuns

  /** Whatever files are there, no worker would resume from them; nothing is said of validators. */
  ghost predicate StartsOn(start: World, versions: seq<Version>) {
    && AtRest(start) && start.disk.Resumable(start.url).None?
    && start.server.versions == versions && start.server.current < |versions|
  }

  /** A file just published, its success about to be reported, is what the server was serving. */
  predicate ServedWhole(w: World) {
    w.phase.Streaming? && w.phase.at.FinalRemove? ==>
      w.phase.x.version < |w.server.versions| && w.disk.dest == Some(w.server.versions[w.phase.x.version].body)
  }

  /** The first bytes of one version, followed by the rest of another. */
  function Splice(a: Bytes, b: Bytes, n: nat): Bytes
    requires n <= |a| && n <= |b|
  {
    a[..n] + b[n..]
  }

  // ----- which servers are safe

  /** A destination whose record stands for the first `n` bytes of some version named by `v`. */
  predicate Holds(w: World, v: Validator, n: nat, data: Bytes) {
    && w.phase.Idle? && w.disk.part.Some? && w.disk.PartData() == data
    && w.disk.Resumable(w.url).Some? && w.disk.Resumable(w.url).value.Validator() == Some(v)
    && w.disk.Resumable(w.url).value.ResumeOffset() == n
  }

  /** A worker writes the first `n` bytes of a version and is stopped. */
  lemma Leaves(w: World, i: nat, v: Validator, n: nat) returns (r: World)
    requires w.phase.Idle? && w.server.current <= i < |w.server.versions|
    requires w.server.versions[i].Names(v) && 0 < n <= |w.server.versions[i].body|
    ensures Leads(w, r) && r.url == w.url && r.server == w.server.(current := i)
    ensures Holds(r, v, n, w.server.versions[i].body[..n])
  {
    hide Leads;
    var byTag := w.server.versions[i].etag == Some(v);
    var w1 := MovesOn(w, i);
    var w2 := Restarts(w1, if byTag then Some(v) else None, if byTag then None else Some(v));
    ContiguousOffset(Manifest(w.url, w2.phase.x.manifest.etag, w2.phase.x.manifest.lastModified, None, []), 0);
    r := WritesAndStops(w2, n);
    LeadsFurther(w, w1, w2);
    LeadsFurther(w, w2, r);
    var body := w.server.versions[i].body;
    assert [] + body[0..n] == body[..n];
    assert r.disk.manifest.value.Validator() == Some(v);
  }

  /** The next one starts over on a later version and crashes before it has recorded anything. */
  lemma Overwrites(w: World, k: nat, v: Validator, n: nat, data: Bytes) returns (r: World)
    requires Holds(w, v, n, data) && w.server.current <= k < |w.server.versions|
    requires n <= |w.server.versions[k].body| && n < UNSAVED_BYTES
    ensures Leads(w, r) && r.url == w.url && r.server == w.server.(current := k)
    ensures Holds(r, v, n, w.server.versions[k].body[..n])
  {
    hide Leads;
    var body := w.server.versions[k].body;
    var w1 := MovesOn(w, k);
    var w2 := Restarts(w1, None, None);
    ContiguousOffset(Manifest(w.url, None, None, None, []), 0);
    var most := if n < CHECKPOINT_BYTES then n else CHECKPOINT_BYTES - 1;
    var w3 := WritesUnrecorded(w2, most);
    LeadsFurther(w, w1, w2);
    LeadsFurther(w, w2, w3);
    assert body[0..most] == body[..most];
    var w4 := w3;
    if most < n {
      LeadsOn(w, w3, Append(n - most, false));
      w4 := Apply(w3, Append(n - most, false));
      assert body[..most] + body[most..n] == body[..n];
    }
    LeadsOn(w, w4, Crash);
    r := Apply(w4, Crash);
  }

  /** And one that finds its validator matched fetches the rest and publishes the whole. */
  lemma FinishesWith(w: World, j: nat, v: Validator, data: Bytes) returns (r: World)
    requires w.phase.Idle? && w.disk.part.Some? && w.disk.Resumable(w.url).Some?
    requires w.disk.Resumable(w.url).value.Validator() == Some(v)
    requires w.server.current <= j < |w.server.versions| && w.server.versions[j].Names(v)
    requires 0 < w.disk.NextOffset(w.url) < |w.server.versions[j].body|
    requires data == w.disk.PartData()[..w.disk.NextOffset(w.url)]
    ensures Leads(w, r) && r.phase.Streaming? && r.phase.at.FinalRemove? && r.phase.x.version == j
    ensures r.disk.dest == Some(data + w.server.versions[j].body[|data|..])
    ensures r.phase.x.Position() == |w.server.versions[j].body|
    ensures r.server == w.server.(current := j)
  {
    hide Leads;
    var n := w.disk.NextOffset(w.url);
    var w1 := MovesOn(w, j);
    var w2 := Continues(w1);
    ContiguousOffset(Manifest(w.url, None, None, None, []), n);
    r := Publishes(w2);
    LeadsFurther(w, w1, w2);
    LeadsFurther(w, w2, r);
  }

  /** Whenever a validator betrays, there is a run in which a worker publishes the splice. */
  lemma MixUpSplices(start: World, i: nat, k: nat, j: nat, v: Validator, p: nat) returns (r: World)
    requires MixesUp(start.server.versions, i, k, j, v, p) && start.phase.Idle? && start.server.current <= i
    ensures Leads(start, r) && r.phase.Streaming? && r.phase.at.FinalRemove? && r.phase.x.version == j
    ensures r.server == start.server.(current := j)
    ensures var vs := start.server.versions;
      r.disk.dest == Some(Splice(vs[k].body, vs[j].body, p + 1)) && r.phase.x.Position() == |vs[j].body|
  {
    hide Leads;
    var vs := start.server.versions;
    var w1 := Leaves(start, i, v, p + 1);
    var w2 := w1;
    if i < k {
      w2 := Overwrites(w1, k, v, p + 1, vs[i].body[..p + 1]);
      LeadsFurther(start, w1, w2);
    }
    var data := vs[k].body[..p + 1];
    assert data[..p + 1] == data;
    r := FinishesWith(w2, j, v, data);
    LeadsFurther(start, w2, r);
  }

  lemma SpliceDiffers(a: Bytes, b: Bytes, p: nat)
    requires p < |a| && p < |b| && a[p] != b[p]
    ensures Splice(a, b, p + 1) != b
  {
    assert Splice(a, b, p + 1)[p] == a[p];
  }

  lemma InvServes(start: World, r: World)
    requires Inv(start) && Leads(start, r)
    ensures ServedWhole(r)
  {
    LeadsKeeps(start, r);
  }

  /**
   * Workers publish only what they were being served, over every run against a server, if and
   * only if none of its validators betrays them.
   */
  lemma NoSplicingExactly(versions: seq<Version>)
    ensures (forall start, r :: StartsOn(start, versions) && Leads(start, r) ==> ServedWhole(r))
      <==> NeverMixesUp(versions)
  {
    hide Leads;
    if NeverMixesUp(versions) {
      forall start, r | StartsOn(start, versions) && Leads(start, r)
        ensures ServedWhole(r)
      {
        FreshIsInv(start);
        InvServes(start, r);
      }
    } else {
      var i: nat, k: nat, j: nat, v, p: nat :| MixesUp(versions, i, k, j, v, p);
      var start := World(0, 0, Disk(None, None, None), Server(versions, 0), Idle);
      var r := MixUpSplices(start, i, k, j, v, p);
      SpliceDiffers(versions[k].body, versions[j].body, p);
      assert StartsOn(start, versions) && !ServedWhole(r);
    }
  }

  /** While a validator still names a later version, nothing else was served in between. */
  ghost predicate NamesRuns(versions: seq<Version>) {
    forall i, k, j, v :: 0 <= i <= k <= j < |versions| && versions[i].Names(v) && versions[j].Names(v) ==>
      versions[k].body == versions[j].body
  }

  /** What RFC 9110, section 8.8.1, asks of a strong validator: the same one, the same bytes. */
  ghost predicate NamesBytes(versions: seq<Version>) {
    forall i, j, v :: 0 <= i < j < |versions| && versions[i].Names(v) && versions[j].Names(v) ==>
      versions[i].body == versions[j].body
  }

  /** Validators that never come back once the bytes have changed are enough. */
  lemma RunsSuffice(versions: seq<Version>)
    requires NamesRuns(versions)
    ensures NeverMixesUp(versions)
  {
    forall i: nat, k: nat, j: nat, v, p: nat
      ensures !MixesUp(versions, i, k, j, v, p)
    {
    }
  }

  const BEFORE := Version([0, 0], Some(7), None)
  const BETWEEN := Version([1, 1], Some(8), None)

  /** A success reported over bytes that were never any version's. */
  ghost predicate ReportsNoVersion(w: World) {
    && w.phase.Done? && w.phase.end.Ok? && w.phase.end.value.Finished?
    && !exists v :: 0 <= v < |w.server.versions| && w.disk.dest == Some(w.server.versions[v].body)
  }

  /**
   * Strong validators are not enough. A resource is changed and changed back, its entity tags
   * following its content: the worker that sees the change crashes before its first checkpoint,
   * and the next one resumes from what the manifest of the first no longer describes.
   */
  lemma RollbackSplices() returns (start: World, r: World)
    ensures StartsOn(start, [BEFORE, BETWEEN, BEFORE]) && NamesBytes(start.server.versions)
    ensures Leads(start, r) && ReportsNoVersion(r)
  {
    hide Leads;
    var versions := [BEFORE, BETWEEN, BEFORE];
    start := World(0, 0, Disk(None, None, None), Server(versions, 0), Idle);
    assert MixesUp(versions, 0, 1, 2, 7, 0);
    var w := MixUpSplices(start, 0, 1, 2, 7, 0);
    assert Splice(BETWEEN.body, BEFORE.body, 1) == [1, 0];
    LeadsOn(start, w, Remove(true));
    r := Apply(w, Remove(true));
    assert versions[0].body == [0, 0] && versions[1].body == [1, 1] && versions[2].body == [0, 0];
  }

  /** A tag kept by mistake joins the first half of one version to the second half of the next. */
  lemma RecurringValidatorSplices() returns (start: World, r: World)
    ensures StartsOn(start, [BEFORE, BETWEEN.(etag := Some(7))])
    ensures Leads(start, r) && ReportsNoVersion(r)
  {
    hide Leads;
    var versions := [BEFORE, BETWEEN.(etag := Some(7))];
    start := World(0, 0, Disk(None, None, None), Server(versions, 0), Idle);
    assert MixesUp(versions, 0, 0, 1, 7, 0);
    var w := MixUpSplices(start, 0, 0, 1, 7, 0);
    assert Splice(BEFORE.body, BETWEEN.body, 1) == [0, 1];
    LeadsOn(start, w, Remove(true));
    r := Apply(w, Remove(true));
    assert versions[0].body == [0, 0] && versions[1].body == [1, 1];
  }

  // ----- losing power

  /**
   * Losing power keeps the synced bytes, whatever may follow them, and leaves the given
   * manifest: saving one syncs nothing, so it need not be the last.
   */
  function PowerLoss(w: World, m: Option<Manifest>, tail: Bytes): World
    requires DiskOk(w.disk)
  {
    var part :=
      if w.disk.part.None? then None
      else
        var f := w.disk.part.value;
        Some(f.(data := f.data[..f.synced] + tail));
    w.(phase := Idle, disk := w.disk.(part := part, manifest := m))
  }

  /** None, or one that records bytes of a version up to the current one. */
  ghost predicate MayReturn(w: World, m: Option<Manifest>)
    requires DiskOk(w.disk)
  {
    OriginUpTo(PowerLoss(w, m, []), w.server.current)
  }

  /** As every manifest does that was ever on disk here. */
  lemma EarlierMayReturn(before: World, w: World)
    requires Inv(before) && Leads(before, w)
    ensures DiskOk(w.disk) && MayReturn(w, before.disk.manifest)
  {
    hide Leads;
    LeadsKeeps(before, w);
    LeadsMovesOn(before, w);
    var lost := PowerLoss(w, before.disk.manifest, []);
    assert lost.disk.Resumable(w.url) == before.disk.Resumable(before.url);
    if before.disk.Resumable(before.url).Some? {
      var m := before.disk.Resumable(before.url).value;
      var i :| 0 <= i <= before.server.current && RecordOf(before.server.versions, m, i);
      assert RecordOf(lost.server.versions, m, i);
    }
  }

  /** A server could match this manifest with version `j`. */
  predicate CouldMatch(w: World, m: Option<Manifest>, j: nat) {
    && m.Some? && m.value.IsResumableFor(w.url)
    && w.server.current <= j < |w.server.versions| && w.server.versions[j].Names(m.value.Validator().value)
  }

  /** How many synced bytes the manifest would have a worker keep. */
  function Kept(w: World, m: Manifest): nat
    requires w.disk.part.Some?
  {
    if m.ResumeOffset() <= w.disk.part.value.synced then m.ResumeOffset() else w.disk.part.value.synced
  }

  /**
   * For every version that the manifest could be matched with: it has nothing beyond the synced
   * bytes that would be kept, or has those bytes, and only they could be kept at all.
   */
  ghost predicate ReturnHarmless(w: World, m: Option<Manifest>)
    requires DiskOk(w.disk)
  {
    w.disk.part.None? ||
    forall j: nat :: CouldMatch(w, m, j) ==>
      var body := w.server.versions[j].body;
      || |body| <= Kept(w, m.value)
      || (&& IsPrefix(w.disk.PartData(), Kept(w, m.value), body)
          && (m.value.ResumeOffset() <= w.disk.part.value.synced || |body| <= w.disk.part.value.synced + 1))
  }

  lemma LossKeeps(w: World, m: Option<Manifest>, tail: Bytes)
    requires Inv(w) && MayReturn(w, m) && ReturnHarmless(w, m)
    ensures Inv(PowerLoss(w, m, tail))
  {
    var lost := PowerLoss(w, m, tail);
    assert lost.disk.Resumable(w.url) == PowerLoss(w, m, []).disk.Resumable(w.url);
    var n := lost.disk.NextOffset(w.url);
    forall j | lost.server.current <= j && Matches(lost, j) && n < |lost.server.versions[j].body|
      ensures IsPrefix(lost.disk.PartData(), n, lost.server.versions[j].body)
    {
      if w.disk.part.Some? {
        assert CouldMatch(w, m, j);
        assert n == Kept(w, m.value);
        assert lost.disk.PartData()[..n] == w.disk.PartData()[..n];
      }
    }
  }

  lemma LossSplices(w: World, m: Option<Manifest>) returns (tail: Bytes, r: World)
    requires Inv(w) && !ReturnHarmless(w, m)
    ensures Leads(PowerLoss(w, m, tail), r) && !ServedWhole(r)
  {
    hide Leads, Safe, PhaseOk;
    var j: nat :| CouldMatch(w, m, j) &&
      var body := w.server.versions[j].body;
      && |body| > Kept(w, m.value)
      && (IsPrefix(w.disk.PartData(), Kept(w, m.value), body) ==>
            m.value.ResumeOffset() > w.disk.part.value.synced && |body| > w.disk.part.value.synced + 1);
    var v := m.value.Validator().value;
    var body := w.server.versions[j].body;
    var k := Kept(w, m.value);
    if IsPrefix(w.disk.PartData(), k, body) {
      tail := [if body[k] == 0 then 1 else 0];
      var lost := PowerLoss(w, m, tail);
      var data := lost.disk.PartData();
      assert |data| == k + 1 && data[k] != body[k] && data[..k + 1] == data;
      assert lost.disk.NextOffset(w.url) == k + 1;
      r := FinishesWith(lost, j, v, data);
      assert (data + body[k + 1..])[k] == data[k];
    } else {
      tail := [];
      var lost := PowerLoss(w, m, tail);
      assert lost.disk.PartData() == w.disk.PartData()[..w.disk.part.value.synced];
      assert lost.disk.NextOffset(w.url) == k;
      var data := lost.disk.PartData()[..k];
      assert data == w.disk.PartData()[..k] && data != body[..k];
      r := FinishesWith(lost, j, v, data);
      assert (data + body[k..])[..k] == data;
    }
  }

  /**
   * Whatever a loss of power leaves behind the synced bytes, and whichever manifest of the past
   * it brings back, later workers publish only what they were being served exactly under that
   * condition; and then every success is one whole version.
   */
  lemma ReturnHarmlessExactly(w: World, m: Option<Manifest>)
    requires Inv(w) && MayReturn(w, m)
    ensures (forall tail, r :: Leads(PowerLoss(w, m, tail), r) ==> ServedWhole(r)) <==> ReturnHarmless(w, m)
    ensures ReturnHarmless(w, m) ==> forall tail, r ::
      Leads(PowerLoss(w, m, tail), r) && r.phase.Done? && r.phase.end.Ok? && r.phase.end.value.Finished? ==>
        HoldsWhole(r, r.phase.end.value.result.bytes)
  {
    hide Leads, MayReturn, ReturnHarmless, ServedWhole, HoldsWhole, Safe;
    if ReturnHarmless(w, m) {
      forall tail, r | Leads(PowerLoss(w, m, tail), r)
        ensures ServedWhole(r)
        ensures r.phase.Done? && r.phase.end.Ok? && r.phase.end.value.Finished? ==>
          HoldsWhole(r, r.phase.end.value.result.bytes)
      {
        LossKeeps(w, m, tail);
        InvServes(PowerLoss(w, m, tail), r);
        LeadsKeeps(PowerLoss(w, m, tail), r);
      }
    } else {
      var tail, r := LossSplices(w, m);
    }
  }

  /**
   * There is nothing to resume, or only synced bytes would be kept, or every version that the
   * record could be matched with has at most one byte beyond the synced ones.
   */
  predicate LossHarmless(w: World) {
    var m := w.disk.Resumable(w.url);
    || m.None? || w.disk.part.None?
    || m.value.ResumeOffset() <= w.disk.part.value.synced
    || forall j ::
         w.server.current <= j < |w.server.versions| && w.server.versions[j].Names(m.value.Validator().value) ==>
           |w.server.versions[j].body| <= w.disk.part.value.synced + 1
  }

  /** For the last manifest the synced bytes are known to be right. */
  lemma LastReturnHarmless(w: World)
    requires Inv(w) && KeepsBytes(w)
    ensures ReturnHarmless(w, w.disk.manifest) <==> LossHarmless(w)
  {
    hide Safe, PhaseOk;
    var m := w.disk.manifest;
    assert forall j: nat :: CouldMatch(w, m, j) <==> w.server.current <= j && Matches(w, j);
    if LossHarmless(w) && w.disk.part.Some? {
      forall j: nat | CouldMatch(w, m, j) && |w.server.versions[j].body| > Kept(w, m.value)
        ensures IsPrefix(w.disk.PartData(), Kept(w, m.value), w.server.versions[j].body)
      {
        assert Kept(w, m.value) <= w.disk.NextOffset(w.url);
        assert Agrees(w.disk.PartData(), w.disk.NextOffset(w.url), w.server.versions[j].body);
      }
    } else if w.disk.part.Some? {
      var j :| w.server.current <= j && Matches(w, j) && |w.server.versions[j].body| > w.disk.part.value.synced + 1;
      assert CouldMatch(w, m, j);
    }
  }

  /** A loss of power that leaves the last manifest is as harmless as a crash exactly under that condition. */
  lemma PowerLossHarmlessExactly(w: World)
    requires Inv(w) && KeepsBytes(w)
    ensures (forall tail, r :: Leads(PowerLoss(w, w.disk.manifest, tail), r) ==> ServedWhole(r)) <==> LossHarmless(w)
    ensures LossHarmless(w) ==> forall tail, r ::
      Leads(PowerLoss(w, w.disk.manifest, tail), r)
      && r.phase.Done? && r.phase.end.Ok? && r.phase.end.value.Finished? ==>
        HoldsWhole(r, r.phase.end.value.result.bytes)
  {
    hide Leads, MayReturn, ReturnHarmless, LossHarmless, ServedWhole, HoldsWhole, Safe;
    LeadsNowhere(w);
    EarlierMayReturn(w, w);
    LastReturnHarmless(w);
    ReturnHarmlessExactly(w, w.disk.manifest);
  }

  // ----- runs in which less is kept

  /** A destination at rest on a server that has at least one byte to send now. */
  ghost predicate SomethingToSend(w: World) {
    AtRest(w) && w.server.current < |w.server.versions| && |w.server.versions[w.server.current].body| > 0
  }

  lemma RestLeads(w: World, r: World)
    requires AtRest(w) && Leads(w, r)
    ensures Reached(r)
  {
  }

  /**
   * On any server with something to send, a worker that restarts over a checkpointed file leaves
   * a manifest on disk that claims more than is synced.
   */
  lemma RestartUndoesDurability(w: World) returns (before: World, r: World)
    requires SomethingToSend(w)
    ensures Reached(before) && before.phase.Idle? && Durable(before.disk)
    ensures Leads(before, r) && Reached(r) && r.phase.Streaming? && !Durable(r.disk)
  {
    hide Leads, Reached;
    var w1 := Restarts(w, None, None);
    ContiguousOffset(Manifest(w.url, None, None, None, []), 0);
    var w2 := WritesByte(w1);
    before := Stops(w2);
    r := Restarts(before, None, None);
    LeadsFurther(w, w1, w2);
    LeadsFurther(w, w2, before);
    LeadsFurther(w, before, r);
    RestLeads(w, before);
    RestLeads(w, r);
  }

  /** On the same servers, a worker told no validator and stopped cleanly loses what it wrote. */
  lemma StopWithoutValidatorForgets(w: World) returns (r: World)
    requires SomethingToSend(w)
    ensures Reached(r) && r.phase.Streaming? && r.phase.at.Reading? && r.phase.x.Position() == 1
    ensures Legal(r, StopSteps(r.phase.x.dirty))
    ensures var stopped := Exec(r, StopSteps(r.phase.x.dirty));
      stopped.phase == Done(Ok(Stopped)) && stopped.disk.NextOffset(w.url) == 0
  {
    hide Leads, Legal, Exec;
    var w1 := Restarts(w, None, None);
    ContiguousOffset(Manifest(w.url, None, None, None, []), 0);
    r := WritesByte(w1);
    LeadsFurther(w, w1, r);
    RestLeads(w, r);
    ReachedCounts(r);
    StopStepsRun(r);
  }
}
