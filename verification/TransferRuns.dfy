/**
 * Building runs of the transfer machine, whatever the server's validators are: connecting,
 * writing byte by byte with checkpoints where they fall due, stopping and finishing.
 */
module TransferRuns {
  import opened Types
  import opened Manifests
  import opened TransferSpec

  lemma {:induction false} MovesOn(w: World, v: nat) returns (r: World)
    requires w.server.current <= v < |w.server.versions|
    ensures Leads(w, r) && r == w.(server := w.server.(current := v))
    decreases v
  {
    if w.server.current == v {
      LeadsNowhere(w);
      r := w;
    } else {
      var before := MovesOn(w, v - 1);
      LeadsOn(w, before, Advance);
      r := Apply(before, Advance);
    }
  }

  // ----- connecting

  /** A whole version whose answer carries the given headers. */
  function Whole(w: World, etag: Option<Validator>, lastModified: Option<Validator>): Response
    requires w.server.current < |w.server.versions|
  {
    Response(200, w.server.current, etag, lastModified, None, w.server.versions[w.server.current].body)
  }

  function Fetching(w: World, resp: Response, start: nat): Session {
    Session(resp.version, resp.body, start, 0, SessionManifest(w.url, resp, start), false, false)
  }

  /** The server sends everything, with those of its validators that it likes to tell. */
  lemma Restarts(w: World, etag: Option<Validator>, lastModified: Option<Validator>) returns (r: World)
    requires w.phase.Idle? && w.server.current < |w.server.versions|
    requires etag.Some? ==> etag == w.server.versions[w.server.current].etag
    requires lastModified.Some? ==> lastModified == w.server.versions[w.server.current].lastModified
    ensures Leads(w, r)
    ensures r == w.(disk := w.disk.(part := Some(File([], 0))),
                    phase := Streaming(Fetching(w, Whole(w, etag, lastModified), 0), Reading))
  {
    var resp := Whole(w, etag, lastModified);
    var w1 := Apply(w, Begin(true));
    assert Answers(w1.server, MakeGet(w1.phase.offset, w1.phase.prior), resp);
    var w2 := Apply(w1, Respond(resp));
    var w3 := Apply(w2, Create);
    LeadsNowhere(w);
    LeadsOn(w, w, Begin(true));
    LeadsOn(w, w1, Respond(resp));
    LeadsOn(w, w2, Create);
    LeadsOn(w, w3, SetLen);
    r := Apply(w3, SetLen);
  }

  /** What a worker asks for that finds this disk, and what it gets if the validator matches. */
  function Rest(w: World): Response
    requires w.server.current < |w.server.versions|
    requires w.disk.NextOffset(w.url) <= |w.server.versions[w.server.current].body|
  {
    Response(PARTIAL_CONTENT, w.server.current, None, None, None,
      w.server.versions[w.server.current].body[w.disk.NextOffset(w.url)..])
  }

  lemma Continues(w: World) returns (r: World)
    requires w.phase.Idle? && w.server.current < |w.server.versions| && w.disk.part.Some?
    requires w.disk.Resumable(w.url).Some?
    requires w.server.versions[w.server.current].Names(w.disk.Resumable(w.url).value.Validator().value)
    requires 0 < w.disk.NextOffset(w.url) < |w.server.versions[w.server.current].body|
    ensures Leads(w, r)
    ensures r == w.(disk := w.disk.CutAt(w.disk.NextOffset(w.url)),
                    phase := Streaming(Fetching(w, Rest(w), w.disk.NextOffset(w.url)), Reading))
  {
    var w1 := Apply(w, Begin(true));
    assert Answers(w1.server, MakeGet(w1.phase.offset, w1.phase.prior), Rest(w));
    var w2 := Apply(w1, Respond(Rest(w)));
    var w3 := Apply(w2, Create);
    LeadsNowhere(w);
    LeadsOn(w, w, Begin(true));
    LeadsOn(w, w1, Respond(Rest(w)));
    LeadsOn(w, w2, Create);
    LeadsOn(w, w3, SetLen);
    r := Apply(w3, SetLen);
  }

  // ----- writing

  /** Between two reads: what the manifest does not record yet is less than a checkpoint's worth. */
  predicate Going(w: World) {
    && w.phase.Streaming? && w.phase.at.Reading? && w.disk.part.Some?
    && w.phase.x.got <= |w.phase.x.body|
    && w.phase.x.manifest.ResumeOffset() <= w.phase.x.Position()
    && w.phase.x.Position() - w.phase.x.manifest.ResumeOffset() < CHECKPOINT_BYTES
  }

  /** One byte more that does not make a checkpoint due. */
  lemma WritesByte(w: World) returns (r: World)
    requires Going(w) && w.phase.x.got < |w.phase.x.body|
    requires w.phase.x.Position() + 1 - w.phase.x.manifest.ResumeOffset() < CHECKPOINT_BYTES
    ensures Leads(w, r) && Going(r)
    ensures r == w.(disk := w.disk.Appended([w.phase.x.body[w.phase.x.got]]),
                    phase := Streaming(w.phase.x.(got := w.phase.x.got + 1, dirty := true), Reading))
  {
    var x := w.phase.x;
    assert x.body[x.got..x.got + 1] == [x.body[x.got]];
    var w1 := Apply(w, Append(1, false));
    LeadsNowhere(w);
    LeadsOn(w, w, Append(1, false));
    LeadsOn(w, w1, CheckCadence);
    r := Apply(w1, CheckCadence);
  }

  /** Bytes that do not make a checkpoint due leave the manifest on disk alone. */
  lemma {:induction false} WritesUnrecorded(w: World, n: nat) returns (r: World)
    requires Going(w) && w.phase.x.got + n <= |w.phase.x.body|
    requires w.phase.x.Position() + n - w.phase.x.manifest.ResumeOffset() < CHECKPOINT_BYTES
    ensures Leads(w, r) && Going(r)
    ensures var x := w.phase.x;
      r == w.(disk := w.disk.Appended(x.body[x.got..x.got + n]),
              phase := Streaming(x.(got := x.got + n, dirty := x.dirty || n > 0), Reading))
    decreases n
  {
    var x := w.phase.x;
    if n == 0 {
      LeadsNowhere(w);
      assert w.disk.part.value.data + x.body[x.got..x.got] == w.disk.part.value.data;
      r := w;
    } else {
      var before := WritesUnrecorded(w, n - 1);
      r := WritesByte(before);
      LeadsFurther(w, before, r);
      assert x.body[x.got..x.got + (n - 1)] + [x.body[x.got + (n - 1)]] == x.body[x.got..x.got + n];
      var data := w.disk.part.value.data;
      assert data + x.body[x.got..x.got + (n - 1)] + [x.body[x.got + (n - 1)]] == data + x.body[x.got..x.got + n];
    }
  }

  /** The same transfer, `n` bytes further on; everything in the file is recorded or will be. */
  ghost predicate Further(w: World, r: World, n: nat)
    requires Going(w)
  {
    var x := w.phase.x;
    && Going(r) && r.phase.x.got == x.got + n
    && r == w.(disk := r.disk, phase := Streaming(r.phase.x, Reading))
    && r.phase.x.version == x.version && r.phase.x.body == x.body && r.phase.x.start == x.start
    && r.phase.x.manifest == x.manifest.(ranges := r.phase.x.manifest.ranges)
    && x.got + n <= |x.body|
    && r.disk.PartData() == w.disk.PartData() + x.body[x.got..x.got + n]
    && r.disk.dest == w.disk.dest
    && (n > 0 ==> r.phase.x.dirty || Recorded(r))
  }

  predicate Recorded(w: World)
    requires Going(w)
  {
    w.disk.manifest == Some(w.phase.x.manifest) && w.phase.x.manifest.ResumeOffset() == w.phase.x.Position()
  }

  /** The byte that makes a checkpoint due. */
  lemma WritesLastByte(w: World) returns (r: World)
    requires Going(w) && w.phase.x.got < |w.phase.x.body|
    requires w.phase.x.Position() + 1 - w.phase.x.manifest.ResumeOffset() == CHECKPOINT_BYTES
    ensures Leads(w, r) && Further(w, r, 1)
  {
    hide Leads;
    var x := w.phase.x;
    var y := x.(got := x.got + 1, dirty := true);
    var w1 := Apply(w, Append(1, false));
    LeadsNowhere(w);
    LeadsOn(w, w, Append(1, false));
    LeadsOn(w, w1, CheckCadence);
    var w2 := w1.(phase := Streaming(y, Syncing(Cadence)));
    assert Apply(w1, CheckCadence) == w2;
    r := Checkpoints(w2, y, Cadence);
    LeadsFurther(w, w2, r);
  }

  /** A checkpoint on its way is taken. */
  lemma Checkpoints(w: World, x: Session, why: Why) returns (r: World)
    requires w.phase == Streaming(x, Syncing(why)) && w.disk.part.Some?
    ensures Leads(w, r)
    ensures var m := x.manifest.SetContiguous(x.Position());
      && r == AfterCheckpoint(
           w.(disk := w.disk.Synced().(manifest := Some(m))), x.(manifest := m, dirty := false, saved := true), why)
      && m.ResumeOffset() == x.Position() && m == x.manifest.(ranges := m.ranges)
  {
    hide Leads;
    LeadsNowhere(w);
    LeadsOn(w, w, Sync);
    var w1 := Apply(w, Sync);
    LeadsOn(w, w1, Save);
    r := Apply(w1, Save);
    ContiguousOffset(x.manifest, x.Position());
  }

  lemma {:induction false} Writes(w: World, n: nat) returns (r: World)
    requires Going(w) && w.phase.x.got + n <= |w.phase.x.body|
    ensures Leads(w, r) && Further(w, r, n)
    decreases n
  {
    var x := w.phase.x;
    if n == 0 {
      LeadsNowhere(w);
      r := w;
    } else {
      var before := Writes(w, n - 1);
      var y := before.phase.x;
      if y.Position() + 1 - y.manifest.ResumeOffset() < CHECKPOINT_BYTES {
        r := WritesByte(before);
      } else {
        r := WritesLastByte(before);
      }
      LeadsFurther(w, before, r);
      BytesJoin(w.disk.PartData(), x.body, x.got, n - 1);
    }
  }

  lemma BytesJoin(data: Bytes, body: Bytes, got: nat, n: nat)
    requires got + n < |body|
    ensures data + body[got..got + n] + body[got + n..got + n + 1] == data + body[got..got + n + 1]
    ensures body[got + n..got + n + 1] == [body[got + n]]
  {
    assert body[got..got + n] + body[got + n..got + n + 1] == body[got..got + n + 1];
    assert data + body[got..got + n] + body[got + n..got + n + 1]
        == data + (body[got..got + n] + body[got + n..got + n + 1]);
  }

  // ----- stopping and finishing

  /** A stop that records what was written; the next worker may start. */
  lemma Stops(w: World) returns (r: World)
    requires Going(w) && (w.phase.x.dirty || Recorded(w))
    ensures Leads(w, r)
    ensures r == w.(phase := Idle, disk := r.disk)
    ensures r.disk.dest == w.disk.dest && r.disk.part.Some? && r.disk.PartData() == w.disk.PartData()
    ensures w.phase.x.dirty ==> r.disk.part.value.synced == r.disk.PartLen()
    ensures r.disk.manifest.Some?
      && r.disk.manifest.value == w.phase.x.manifest.(ranges := r.disk.manifest.value.ranges)
      && r.disk.manifest.value.ResumeOffset() == w.phase.x.Position()
  {
    hide Leads;
    var x := w.phase.x;
    LeadsNowhere(w);
    LeadsOn(w, w, StopSeen);
    var w1 := Apply(w, StopSeen);
    if x.dirty {
      var w2 := Checkpoints(w1, x, OnStop);
      LeadsFurther(w, w1, w2);
      w1 := w2;
    }
    LeadsOn(w, w1, Deliver);
    r := Apply(w1, Deliver);
  }

  /** A worker that writes `n` bytes and is stopped leaves them in the file and on record. */
  lemma WritesAndStops(w: World, n: nat) returns (r: World)
    requires Going(w) && 0 < n && w.phase.x.got + n <= |w.phase.x.body|
    ensures Leads(w, r) && r == w.(phase := Idle, disk := r.disk)
    ensures var x := w.phase.x;
      && r.disk.part.Some? && r.disk.PartData() == w.disk.PartData() + x.body[x.got..x.got + n]
      && r.disk.manifest.Some?
      && r.disk.manifest.value == x.manifest.(ranges := r.disk.manifest.value.ranges)
      && r.disk.manifest.value.ResumeOffset() == x.Position() + n
  {
    hide Leads, Recorded;
    var mid := Writes(w, n);
    r := Stops(mid);
    LeadsFurther(w, mid, r);
  }

  /** The rest of the body is written and the file published. */
  lemma Publishes(w: World) returns (r: World)
    requires Going(w)
    ensures Leads(w, r)
    ensures r.phase.Streaming? && r.phase.at.FinalRemove? && r.phase.x.version == w.phase.x.version
    ensures r.phase.x.Position() == w.phase.x.start + |w.phase.x.body|
    ensures r.disk.dest == Some(w.disk.PartData() + w.phase.x.body[w.phase.x.got..])
    ensures r.server == w.server
  {
    var x := w.phase.x;
    var w1 := Writes(w, |x.body| - x.got);
    assert x.body[x.got..|x.body|] == x.body[x.got..];
    LeadsOn(w, w1, EndOfBody);
    var w2 := Apply(w1, EndOfBody);
    LeadsOn(w, w2, SyncAll);
    var w3 := Apply(w2, SyncAll);
    LeadsOn(w, w3, Rename);
    r := Apply(w3, Rename);
  }
}
