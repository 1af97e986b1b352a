/** What the file upload receiver promises over every run and every schedule of
    its pool. */
module FileUploadTheorems {
  import opened Options
  import opened FileUpload
  import opened FileUploadSafety

  // ----- accounting -----

  /** For each live upload `writes_in_flight` is the number of its writes posted
      and not yet replied, and the accepted bytes never exceed the declared
      size. */
  lemma UploadAccounting(h: History, digest: Digest, id: Id)
    requires id in Run(h, digest).uploads
    ensures var up, ws := Run(h, digest).uploads[id], WritesOf(Run(h, digest).pool, id);
            up.inFlight == Unreplied(ws) && up.received == Total(ws) <= up.declared && up.nextSeq == |ws|
  {
    RunKeepsOk(h, digest, id);
  }

  /** A read-back is posted only by an end, or by the reply of a write. */
  lemma OnlyTheseHash(w: World, e: Event, digest: Digest, id: Id)
    requires Enabled(w, e) && !(e.End? && e.id == id) && !(e.WriteReplies? && e.id == id)
    ensures |HashesOf(Happen(w, e, digest).pool, id)| == |HashesOf(w.pool, id)|
  {
    assert e.End? ==> HashesOf(HandleEnd(w, e.id).pool, id) == HashesOf(w.pool, id);
  }

  /** A read-back is posted only for a live upload none of whose writes is
      outstanding. */
  lemma HashPostedWhenQuiet(h: History, e: Event, digest: Digest, id: Id)
    requires |HashesOf(Run(Then(h, e), digest).pool, id)| > |HashesOf(Run(h, digest).pool, id)|
    ensures var w := Run(Then(h, e), digest);
            id in w.uploads && Unreplied(WritesOf(w.pool, id)) == 0
  {
    var w := Run(h, digest);
    RunKeepsOk(Then(h, e), digest, id);
    if !(e.End? && e.id == id) && !(e.WriteReplies? && e.id == id) {
      OnlyTheseHash(w, e, digest, id);
    } else if e.End? {
      assert Run(Then(h, e), digest) == HandleEnd(w, id);
    } else {
      ReplyPostsAtZero(w, id, e.n);
    }
  }

  lemma ReplyPostsAtZero(w: World, id: Id, n: nat)
    requires n < |WritesOf(w.pool, id)| && WritesOf(w.pool, id)[n].phase.Ran?
    ensures var ok := WritesOf(w.pool, id)[n].phase.ok;
            var w' := OnChunkWritten(w.(pool := SetWrite(w.pool, id, n, Replied(ok))), id, ok);
            |HashesOf(w'.pool, id)| > |HashesOf(w.pool, id)| ==> id in w'.uploads && w'.uploads[id].inFlight == 0
  {
  }

  /** The reply of the one write still outstanding settles an early end: the
      read-back is posted, or the upload is abandoned. */
  lemma LastReplySettles(h: History, digest: Digest, id: Id, n: nat)
    requires var w := Run(h, digest);
             && id in w.uploads && w.uploads[id].endPending && Unreplied(WritesOf(w.pool, id)) == 1
             && n < |WritesOf(w.pool, id)| && WritesOf(w.pool, id)[n].phase.Ran?
    ensures var w, w' := Run(h, digest), Run(Then(h, WriteReplies(id, n)), digest);
            if WritesOf(w.pool, id)[n].phase.ok then HashesOf(w'.pool, id) == HashesOf(w.pool, id) + [Posted]
            else id !in w'.uploads && w'.replies == w.replies + [Error(id, WriteFailed)]
  {
    UploadAccounting(h, digest, id);
  }

  /** A live upload has no read-back delivered, and one still to come if its end
      has and no write is outstanding.  Read-backs and deletes belong to ids that
      were started, and a live upload's file is not to be deleted. */
  ghost predicate EndOk(w: World, id: Id) {
    && (id in w.uploads ==>
          && id !in w.pool.deletes
          && Undelivered(HashesOf(w.pool, id))
          && (w.uploads[id].endPending && w.uploads[id].inFlight == 0 ==> HashesOf(w.pool, id) != []))
    && (HashesOf(w.pool, id) != [] || id in w.pool.deletes || id in w.uploads ==> id in w.pool.writes)
  }

  predicate Undelivered(jobs: seq<Hash>) {
    forall j :: 0 <= j < |jobs| ==> jobs[j].Posted? || jobs[j].Read?
  }

  lemma PoolKeepsEnd(w: World, e: Event, digest: Digest, id: Id)
    requires Enabled(w, e) && EndOk(w, id)
    requires e.WriteRuns? || e.HashRuns? || e.DeleteRuns? || e.WipeRuns?
    ensures EndOk(Happen(w, e, digest), id)
  {
  }

  lemma ReplyKeepsEnd(w: World, x: Id, n: nat, id: Id)
    requires EndOk(w, id) && n < |WritesOf(w.pool, x)| && WritesOf(w.pool, x)[n].phase.Ran?
    ensures var ok := WritesOf(w.pool, x)[n].phase.ok;
            EndOk(OnChunkWritten(w.(pool := SetWrite(w.pool, x, n, Replied(ok))), x, ok), id)
  {
  }

  lemma HashKeepsEnd(w: World, x: Id, j: nat, actual: string, total: nat, id: Id)
    requires EndOk(w, id) && j < |HashesOf(w.pool, x)|
    ensures EndOk(OnFinalised(w.(pool := SetHash(w.pool, x, j, Delivered)), x, actual, total), id)
  {
  }

  lemma HandlerKeepsEnd(w: World, e: Event, digest: Digest, id: Id)
    requires Enabled(w, e) && EndOk(w, id)
    requires e.Start? || e.Chunk? || e.End? || e.Cancel? || e.OpenChooser? || e.CloseChooser? || e.Deadline? || e.Reset?
    ensures EndOk(Happen(w, e, digest), id)
  {
    if e.End? {
      assert Undelivered(HashesOf(w.pool, id)) ==> Undelivered(HashesOf(PostHash(w.pool, e.id), id));
    } else {
      assert HashesOf(Happen(w, e, digest).pool, id) == HashesOf(w.pool, id);
    }
  }

  lemma {:induction false} RunKeepsEnd(h: History, digest: Digest, id: Id)
    ensures EndOk(Run(h, digest), id)
  {
    if h.Then? {
      RunKeepsEnd(h.past, digest, id);
      var w, e := Run(h.past, digest), h.event;
      if Enabled(w, e) {
        match e
        case WriteReplies(x, n) => ReplyKeepsEnd(w, x, n, id);
        case HashReplies(x, j) =>
          var content := HashesOf(w.pool, x)[j].content;
          HashKeepsEnd(w, x, j, HashOf(digest, content), SizeOf(content), id);
        case WriteRuns(_, _, _) => PoolKeepsEnd(w, e, digest, id);
        case HashRuns(_, _, _) => PoolKeepsEnd(w, e, digest, id);
        case DeleteRuns(_) => PoolKeepsEnd(w, e, digest, id);
        case WipeRuns => PoolKeepsEnd(w, e, digest, id);
        case _ => HandlerKeepsEnd(w, e, digest, id);
      }
    }
  }

  /** No early end is lost: in every run a live upload whose end has come and
      whose writes are all replied has a read-back on the way. */
  lemma EarlyEndIsNotLost(h: History, digest: Digest, id: Id)
    requires id in Run(h, digest).uploads && Run(h, digest).uploads[id].endPending
    requires Unreplied(WritesOf(Run(h, digest).pool, id)) == 0
    ensures var jobs := HashesOf(Run(h, digest).pool, id);
            |jobs| > 0 && Undelivered(jobs)
  {
    UploadAccounting(h, digest, id);
    RunKeepsEnd(h, digest, id);
  }

  /** And the delivery of a read-back decides the upload: it is gone, with one
      reply that says complete or what failed. */
  lemma ReadBackDecides(h: History, digest: Digest, id: Id, j: nat)
    requires id in Run(h, digest).uploads && Enabled(Run(h, digest), HashReplies(id, j))
    ensures var w, w' := Run(h, digest), Run(Then(h, HashReplies(id, j)), digest);
            && id !in w'.uploads && |w'.replies| == |w.replies| + 1 && w'.replies[..|w.replies|] == w.replies
            && var r := w'.replies[|w.replies|]; r.id == id && !r.Progress?
  {
  }

  // ----- a complete upload is whole -----

  /** Whatever order the pool ran the writes in, a read-back as long as the
      declared size has found every non-empty chunk accepted so far in the file,
      whole and exactly once. */
  lemma ReadBackSeesEveryChunk(h: History, digest: Digest, id: Id)
    requires id in Run(h, digest).uploads && id in Run(h, digest).files.disk
    requires |Run(h, digest).files.disk[id]| == Run(h, digest).uploads[id].declared
    ensures var w := Run(h, digest);
            && w.files.disk[id] == Flatten(WritesOf(w.pool, id), LandedOf(w.files, id))
            && Covers(WritesOf(w.pool, id), LandedOf(w.files, id))
  {
    RunKeepsOk(h, digest, id);
    FullFileCovers(WritesOf(Run(h, digest).pool, id), LandedOf(Run(h, digest).files, id));
  }

  predicate Completes(w: World, w': World, id: Id) {
    exists attached :: w'.replies == w.replies + [Complete(id, attached)]
  }

  /** Only the reply of a read-back completes an upload. */
  lemma OnlyHashCompletes(w: World, e: Event, digest: Digest, id: Id)
    requires Completes(w, Step(w, e, digest), id)
    ensures e.HashReplies? && e.id == id && Enabled(w, e)
  {
    var w' := Step(w, e, digest);
    assert w'.replies[|w.replies|].Complete?;
  }

  /** An upload reported complete had, when it was read back, the declared
      length, the declared digest if one was declared, and every non-empty
      accepted chunk whole and exactly once, chunk 0 first. */
  lemma CompleteUploadIsWhole(h: History, e: Event, digest: Digest, id: Id)
    requires Completes(Run(h, digest), Run(Then(h, e), digest), id)
    ensures var w := Run(h, digest);
            && e.HashReplies? && e.id == id && Enabled(w, e) && id in w.uploads
            && var job, up, ws := HashesOf(w.pool, id)[e.j], w.uploads[id], WritesOf(w.pool, id);
               && job.content.Some? && |job.content.value| == up.declared
               && (up.sha != "" ==> digest(job.content.value) == up.sha)
               && job.content.value == Flatten(ws, job.pieces) && WellMade(ws, job.pieces) && Covers(ws, job.pieces)
  {
    var w := Run(h, digest);
    OnlyHashCompletes(w, e, digest, id);
    RunKeepsOk(h, digest, id);
    var job := HashesOf(w.pool, id)[e.j];
    assert JobOk(w, id, job);
    assert Run(Then(h, e), digest).replies[|w.replies|].Complete?;
  }

  ghost predicate Injective(digest: Digest) {
    forall a, b :: digest(a) == digest(b) ==> a == b
  }

  /** So with a digest that tells files apart, what was read back is the client's
      file. */
  lemma CompleteUploadIsTheClientsFile(h: History, e: Event, digest: Digest, id: Id, file: Bytes)
    requires Completes(Run(h, digest), Run(Then(h, e), digest), id)
    requires id in Run(h, digest).uploads && Run(h, digest).uploads[id].sha == digest(file) != ""
    requires Injective(digest)
    ensures e.HashReplies? && e.j < |HashesOf(Run(h, digest).pool, id)|
    ensures var job := HashesOf(Run(h, digest).pool, id)[e.j];
            job.Read? && job.content == Some(file)
  {
    CompleteUploadIsWhole(h, e, digest, id);
  }

  // ----- the chooser -----

  /** Choosers are resolved in the order they were parked, each exactly once; one
      is pending exactly while the deadline is armed. */
  ghost predicate ChooserOk(c: Chooser) {
    && (c.deadline <==> c.listener.Some?)
    && c.parked == |c.resolved| + (if c.listener.Some? then 1 else 0)
    && (c.listener.Some? ==> c.listener.value == |c.resolved|)
    && (forall i :: 0 <= i < |c.resolved| ==> c.resolved[i].0 == i)
  }

  lemma StepKeepsChooser(w: World, e: Event, digest: Digest)
    requires ChooserOk(w.chooser)
    ensures ChooserOk(Step(w, e, digest).chooser)
  {
    assert ChooserOk(CancelChooser(w.chooser)) && ChooserOk(BeginChooser(w.chooser));
    if e.HashReplies? {
      assert ChooserOk(ResolveChooser(w.chooser, e.id));
    }
  }

  /** Listener conservation over every run, and after destruction none is left
      unresolved. */
  lemma {:induction false} ListenersAreConserved(h: History, digest: Digest)
    ensures ChooserOk(Run(h, digest).chooser)
    ensures var c := CancelChooser(Run(h, digest).chooser);
            c.listener.None? && |c.resolved| == c.parked == Run(h, digest).chooser.parked
  {
    if h.Then? {
      ListenersAreConserved(h.past, digest);
      StepKeepsChooser(Run(h.past, digest), h.event, digest);
    }
  }

  /** A listener gets a file only from an upload that completes in the same
      step, and so is past every check. */
  lemma SelectionMeansComplete(w: World, e: Event, digest: Digest, id: Id)
    requires ChooserOk(w.chooser)
    requires var c, c' := w.chooser, Step(w, e, digest).chooser;
             |c'.resolved| > |c.resolved| && c'.resolved[|c.resolved|].1 == FileSelected(id)
    ensures Step(w, e, digest).replies == w.replies + [Complete(id, true)]
    ensures Completes(w, Step(w, e, digest), id)
  {
    assert Step(w, e, digest).replies == w.replies + [Complete(id, true)];
  }

  // ----- the session quota -----

  /** Bytes declared by the uploads in progress. */
  ghost function Reserved(m: map<Id, Upload>): nat
    decreases |m|
  {
    if m == map[] then 0
    else
      var id :| id in m;
      m[id].declared + Reserved(m - {id})
  }

  lemma {:induction false} ReservedRemove(m: map<Id, Upload>, id: Id)
    requires id in m
    ensures Reserved(m) == m[id].declared + Reserved(m - {id})
    decreases |m|
  {
    var x :| x in m && Reserved(m) == m[x].declared + Reserved(m - {x});
    if x != id {
      ReservedRemove(m - {x}, id);
      ReservedRemove(m - {id}, x);
      assert m - {x} - {id} == m - {id} - {x};
    }
  }

  lemma ReservedAdd(m: map<Id, Upload>, id: Id, up: Upload)
    ensures Reserved(m[id := up]) == Reserved(m - {id}) + up.declared
    ensures Reserved(m - {id}) <= Reserved(m)
  {
    ReservedRemove(m[id := up], id);
    assert m[id := up] - {id} == m - {id};
    if id in m {
      ReservedRemove(m, id);
    } else {
      assert m - {id} == m;
    }
  }

  /** An accepted start leaves room for every upload already in progress. */
  ghost predicate Roomy(w: World, e: Event) {
    e.Start? && 0 < e.declared <= MAX_UPLOAD_BYTES && w.sessionBytes + e.declared <= MAX_SESSION_BYTES ==>
      w.sessionBytes + Reserved(w.uploads) + e.declared <= MAX_SESSION_BYTES
  }

  ghost predicate AllRoomy(h: History, digest: Digest) {
    h.Then? ==> AllRoomy(h.past, digest) && Roomy(Run(h.past, digest), h.event)
  }

  /** An event other than an accepted start changes no declared size, starts no
      upload, and credits only what it takes off the uploads in progress. */
  lemma LedgerStep(w: World, e: Event, digest: Digest)
    requires !e.Start?
    ensures var w' := Step(w, e, digest);
            w'.sessionBytes + Reserved(w'.uploads) <= w.sessionBytes + Reserved(w.uploads)
  {
    if Enabled(w, e) {
      match e
      case Chunk(id, seqNo, decoded) => LedgerOne(w, HandleChunk(w, id, seqNo, decoded), id);
      case End(id) => LedgerOne(w, HandleEnd(w, id), id);
      case Cancel(id) => LedgerOne(w, HandleCancel(w, id), id);
      case WriteReplies(id, n) =>
        var ok := WritesOf(w.pool, id)[n].phase.ok;
        LedgerOne(w, OnChunkWritten(w.(pool := SetWrite(w.pool, id, n, Replied(ok))), id, ok), id);
      case HashReplies(id, j) =>
        var content := HashesOf(w.pool, id)[j].content;
        LedgerOne(w, OnFinalised(w.(pool := SetHash(w.pool, id, j, Delivered)), id, HashOf(digest, content), SizeOf(content)), id);
      case _ =>
    }
  }

  lemma LedgerOne(w: World, w': World, id: Id)
    requires w'.uploads == w.uploads
             || w'.uploads == w.uploads - {id}
             || (id in w.uploads && id in w'.uploads && w'.uploads == w.uploads[id := w'.uploads[id]]
                 && w'.uploads[id].declared == w.uploads[id].declared)
    requires w'.sessionBytes == w.sessionBytes
             || (id in w.uploads && w'.uploads == w.uploads - {id} && w'.sessionBytes == w.sessionBytes + w.uploads[id].declared)
    ensures w'.sessionBytes + Reserved(w'.uploads) <= w.sessionBytes + Reserved(w.uploads)
  {
    if id in w.uploads {
      ReservedRemove(w.uploads, id);
      if id in w'.uploads {
        ReservedAdd(w.uploads, id, w'.uploads[id]);
      }
    } else {
      assert w.uploads - {id} == w.uploads;
    }
  }

  /** While every accepted start leaves room for the uploads in progress, a
      session never stores more than its quota. */
  lemma {:induction false} QuotaHolds(h: History, digest: Digest)
    requires AllRoomy(h, digest)
    ensures Run(h, digest).sessionBytes + Reserved(Run(h, digest).uploads) <= MAX_SESSION_BYTES
  {
    if h.Then? {
      QuotaHolds(h.past, digest);
      var w, e := Run(h.past, digest), h.event;
      if e.Start? {
        ReservedAdd(w.uploads, e.id, Upload(e.name, e.sha, if e.declared < 0 then 0 else e.declared, 0, 0, 0, false));
      } else {
        LedgerStep(w, e, digest);
      }
    }
  }

  ghost predicate OneAtATime(h: History, digest: Digest) {
    h.Then? ==> OneAtATime(h.past, digest) && (h.event.Start? ==> Run(h.past, digest).uploads == map[])
  }

  /** With no other upload in flight at each start, the receiver's own check is
      enough. */
  lemma {:induction false} QuotaHoldsOneAtATime(h: History, digest: Digest)
    requires OneAtATime(h, digest)
    ensures Run(h, digest).sessionBytes + Reserved(Run(h, digest).uploads) <= MAX_SESSION_BYTES
  {
    if h.Then? {
      QuotaHoldsOneAtATime(h.past, digest);
      var w, e := Run(h.past, digest), h.event;
      if e.Start? {
        ReservedAdd(w.uploads, e.id, Upload(e.name, e.sha, if e.declared < 0 then 0 else e.declared, 0, 0, 0, false));
        assert w.uploads - {e.id} == w.uploads;
      } else {
        LedgerStep(w, e, digest);
      }
    }
  }
}
