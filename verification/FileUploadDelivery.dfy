/** What is on disk when an upload is reported complete: the file that was read
    back, unless the wipe of an earlier session ran in between. */
module FileUploadDelivery {
  import opened Options
  import opened FileUpload
  import opened FileUploadSafety
  import opened FileUploadTheorems

  predicate Takes(w: World, e: Event, id: Id, j: nat) { e.HashRuns? && e.id == id && e.j == j && Enabled(w, e) }
  predicate Wipes(w: World, e: Event) { e.WipeRuns? && Enabled(w, e) }

  /** Uploads/ was wiped, and read-back j of id was not taken after that. */
  ghost predicate WipedSince(h: History, digest: Digest, id: Id, j: nat) {
    && h.Then?
    && !Takes(Run(h.past, digest), h.event, id, j)
    && (Wipes(Run(h.past, digest), h.event) || WipedSince(h.past, digest, id, j))
  }

  /** Read-back j of a live upload found the whole declared file. */
  predicate FullRead(w: World, id: Id, j: nat) {
    && id in w.uploads && j < |HashesOf(w.pool, id)|
    && var job := HashesOf(w.pool, id)[j];
       job.Read? && job.content.Some? && |job.content.value| == w.uploads[id].declared
  }

  /** Chunks that were read back are not in the pool any more. */
  ghost predicate Settled(w: World, id: Id, job: Hash) {
    job.Read? ==> forall i :: 0 <= i < |job.pieces| && job.pieces[i].n < |WritesOf(w.pool, id)| ==>
                    WritesOf(w.pool, id)[job.pieces[i].n].phase != Queued
  }

  ghost predicate Kept(w: World, id: Id, j: nat, wiped: bool) {
    FullRead(w, id, j) ==>
      var job := HashesOf(w.pool, id)[j];
      && Settled(w, id, job)
      && (if wiped then id !in w.files.disk else id in w.files.disk && w.files.disk[id] == job.content.value)
  }

  /** Any write that still runs is of an empty chunk, or finds no file. */
  lemma LateWriteIsEmpty(w: World, id: Id, j: nat, n: nat)
    requires Ok(w, id) && FullRead(w, id, j) && Settled(w, id, HashesOf(w.pool, id)[j])
    requires n < |WritesOf(w.pool, id)| && WritesOf(w.pool, id)[n].phase == Queued
    ensures n > 0 && WritesOf(w.pool, id)[n].bytes == []
  {
    var ws, job := WritesOf(w.pool, id), HashesOf(w.pool, id)[j];
    assert JobOk(w, id, job);
    assert job.pieces[0].n == 0;
    assert Covers(ws, job.pieces);
  }

  lemma WriteKeeps(w: World, id: Id, n: nat, fate: Fate, j: nat, wiped: bool)
    requires Ok(w, id) && Kept(w, id, j, wiped)
    requires n < |WritesOf(w.pool, id)| && WritesOf(w.pool, id)[n].phase == Queued
    ensures Kept(RunWrite(w, id, n, fate), id, j, wiped)
  {
    var w' := RunWrite(w, id, n, fate);
    assert HashesOf(w'.pool, id) == HashesOf(w.pool, id);
    if FullRead(w, id, j) {
      LateWriteIsEmpty(w, id, j, n);
    }
  }

  /** Nothing about the file, the read-back or the declared size has changed. */
  lemma SameFile(w: World, w': World, id: Id, j: nat, wiped: bool)
    requires Ok(w, id) && Kept(w, id, j, wiped)
    requires FullRead(w', id, j) ==> j < |HashesOf(w.pool, id)| && HashesOf(w'.pool, id)[j] == HashesOf(w.pool, id)[j]
    requires id in w'.uploads ==> id in w.uploads && w'.uploads[id].declared == w.uploads[id].declared
    requires (id in w'.files.disk <==> id in w.files.disk) && (id in w.files.disk ==> w'.files.disk[id] == w.files.disk[id])
    requires |WritesOf(w.pool, id)| <= |WritesOf(w'.pool, id)|
    requires forall n :: 0 <= n < |WritesOf(w.pool, id)| && WritesOf(w'.pool, id)[n].phase == Queued ==> WritesOf(w.pool, id)[n].phase == Queued
    ensures Kept(w', id, j, wiped)
  {
    if FullRead(w', id, j) {
      assert JobOk(w, id, HashesOf(w.pool, id)[j]);
    }
  }

  lemma ReplyKeeps(w: World, x: Id, n: nat, id: Id, j: nat, wiped: bool)
    requires Ok(w, id) && Kept(w, id, j, wiped) && n < |WritesOf(w.pool, x)| && WritesOf(w.pool, x)[n].phase.Ran?
    ensures var ok := WritesOf(w.pool, x)[n].phase.ok;
            Kept(OnChunkWritten(w.(pool := SetWrite(w.pool, x, n, Replied(ok))), x, ok), id, j, wiped)
  {
    var ok := WritesOf(w.pool, x)[n].phase.ok;
    var w' := OnChunkWritten(w.(pool := SetWrite(w.pool, x, n, Replied(ok))), x, ok);
    assert WritesOf(w'.pool, id) == WritesOf(SetWrite(w.pool, x, n, Replied(ok)), id);
    SameFile(w, w', id, j, wiped);
  }

  lemma HashKeeps(w: World, x: Id, i: nat, actual: string, total: nat, id: Id, j: nat, wiped: bool)
    requires Ok(w, id) && Kept(w, id, j, wiped) && i < |HashesOf(w.pool, x)|
    ensures Kept(OnFinalised(w.(pool := SetHash(w.pool, x, i, Delivered)), x, actual, total), id, j, wiped)
  {
    SameFile(w, OnFinalised(w.(pool := SetHash(w.pool, x, i, Delivered)), x, actual, total), id, j, wiped);
  }

  /** A start is of an id nothing is known of. */
  lemma StartKeeps(w: World, w': World, x: Id, id: Id, j: nat, wiped: bool)
    requires Ok(w, id) && EndOk(w, id) && Kept(w, id, j, wiped) && x !in w.pool.writes
    requires w'.files == w.files && w'.pool.hashes == w.pool.hashes
    requires x != id ==> WritesOf(w'.pool, id) == WritesOf(w.pool, id)
    requires x != id && id in w'.uploads ==> id in w.uploads && w'.uploads[id] == w.uploads[id]
    ensures Kept(w', id, j, wiped)
  {
    if x != id {
      assert HashesOf(w'.pool, id) == HashesOf(w.pool, id);
      SameFile(w, w', id, j, wiped);
    } else {
      assert HashesOf(w.pool, id) == [] && HashesOf(w'.pool, id) == [];
    }
  }

  lemma StartStepKeeps(w: World, x: Id, name: string, sha: string, declared: int, id: Id, j: nat, wiped: bool)
    requires Ok(w, id) && EndOk(w, id) && Kept(w, id, j, wiped) && x !in w.pool.writes
    ensures Kept(HandleStart(w.(pool := w.pool.(writes := w.pool.writes[x := []])), x, name, sha, declared), id, j, wiped)
  {
    var w1 := w.(pool := w.pool.(writes := w.pool.writes[x := []]));
    StartEffect(w1, x, name, sha, declared);
    StartKeeps(w, HandleStart(w1, x, name, sha, declared), x, id, j, wiped);
  }

  lemma HandlerKeeps(w: World, e: Event, digest: Digest, id: Id, j: nat, wiped: bool)
    requires Enabled(w, e) && Ok(w, id) && Kept(w, id, j, wiped)
    requires e.End? || e.Cancel? || e.OpenChooser? || e.CloseChooser? || e.Deadline? || e.Reset?
    ensures Kept(Happen(w, e, digest), id, j, wiped)
  {
    match e
    case End(x) => SameFile(w, HandleEnd(w, x), id, j, wiped);
    case Cancel(x) => SameFile(w, HandleCancel(w, x), id, j, wiped);
    case Reset => SameFile(w, ResetForNewSession(w), id, j, wiped);
    case OpenChooser => SameFile(w, w.(chooser := BeginChooser(w.chooser)), id, j, wiped);
    case _ => SameFile(w, w.(chooser := CancelChooser(w.chooser)), id, j, wiped);
  }

  lemma ChunkKeeps(w: World, x: Id, seqNo: int, decoded: Option<Bytes>, id: Id, j: nat, wiped: bool)
    requires Ok(w, id) && Kept(w, id, j, wiped)
    ensures Kept(HandleChunk(w, x, seqNo, decoded), id, j, wiped)
  {
    var w' := HandleChunk(w, x, seqNo, decoded);
    assert HashesOf(w'.pool, id) == HashesOf(w.pool, id);
    SameFile(w, w', id, j, wiped);
  }

  lemma DeleteKeeps(w: World, w': World, x: Id, id: Id, j: nat, wiped: bool)
    requires Ok(w, id) && EndOk(w, id) && Kept(w, id, j, wiped) && x in w.pool.deletes
    requires w'.uploads == w.uploads && w'.files == DeleteFile(w.files, x)
    requires w'.pool.writes == w.pool.writes && w'.pool.hashes == w.pool.hashes
    ensures Kept(w', id, j, wiped)
  {
    if x != id {
      SameFile(w, w', id, j, wiped);
    }
  }

  lemma ReadKeeps(w: World, x: Id, i: nat, readable: bool, id: Id, j: nat, wiped: bool)
    requires Ok(w, id) && Kept(w, id, j, wiped) && i < |HashesOf(w.pool, x)| && HashesOf(w.pool, x)[i] == Posted
    ensures Kept(RunHash(w, x, i, readable), id, j, if x == id && i == j then false else wiped)
  {
    var w' := RunHash(w, x, i, readable);
    if x == id && i == j {
      assert FileOk(w, id);
    } else {
      SameFile(w, w', id, j, wiped);
    }
  }

  lemma PoolStepKeeps(w: World, e: Event, digest: Digest, id: Id, j: nat, wiped: bool)
    requires Enabled(w, e) && Ok(w, id) && EndOk(w, id) && Kept(w, id, j, wiped)
    requires e.WriteRuns? || e.WriteReplies? || e.HashReplies? || e.DeleteRuns?
    ensures Kept(Happen(w, e, digest), id, j, wiped)
  {
    match e
    case WriteReplies(x, n) => ReplyKeeps(w, x, n, id, j, wiped);
    case HashReplies(x, i) =>
      var content := HashesOf(w.pool, x)[i].content;
      HashKeeps(w, x, i, HashOf(digest, content), SizeOf(content), id, j, wiped);
    case WriteRuns(x, n, fate) =>
      if x == id {
        WriteKeeps(w, id, n, fate, j, wiped);
      } else {
        SameFile(w, RunWrite(w, x, n, fate), id, j, wiped);
      }
    case DeleteRuns(x) => DeleteKeeps(w, Happen(w, e, digest), x, id, j, wiped);
  }

  lemma StepKeeps(w: World, e: Event, digest: Digest, id: Id, j: nat, wiped: bool)
    requires Ok(w, id) && EndOk(w, id) && Kept(w, id, j, wiped)
    ensures Kept(Step(w, e, digest), id, j, !Takes(w, e, id, j) && (Wipes(w, e) || wiped))
  {
    if Enabled(w, e) {
      match e
      case HashRuns(x, i, readable) => ReadKeeps(w, x, i, readable, id, j, wiped);
      case WipeRuns =>
      case Start(x, name, sha, declared) => StartStepKeeps(w, x, name, sha, declared, id, j, wiped);
      case Chunk(x, seqNo, decoded) => ChunkKeeps(w, x, seqNo, decoded, id, j, wiped);
      case WriteReplies(_, _) => PoolStepKeeps(w, e, digest, id, j, wiped);
      case HashReplies(_, _) => PoolStepKeeps(w, e, digest, id, j, wiped);
      case WriteRuns(_, _, _) => PoolStepKeeps(w, e, digest, id, j, wiped);
      case DeleteRuns(_) => PoolStepKeeps(w, e, digest, id, j, wiped);
      case _ => HandlerKeeps(w, e, digest, id, j, wiped);
    }
  }

  lemma {:induction false} RunKeepsFile(h: History, digest: Digest, id: Id, j: nat)
    ensures Kept(Run(h, digest), id, j, WipedSince(h, digest, id, j))
  {
    if h.Then? {
      RunKeepsFile(h.past, digest, id, j);
      RunKeepsOk(h.past, digest, id);
      RunKeepsEnd(h.past, digest, id);
      StepKeeps(Run(h.past, digest), h.event, digest, id, j, WipedSince(h.past, digest, id, j));
    }
  }

  /** The file of a complete upload is on disk exactly as it was read back, if and
      only if no wipe ran since; otherwise it is gone. */
  lemma CompleteFileOnDisk(h: History, e: Event, digest: Digest, id: Id)
    requires Completes(Run(h, digest), Run(Then(h, e), digest), id)
    ensures e.HashReplies? && e.j < |HashesOf(Run(h, digest).pool, id)|
    ensures var w', job := Run(Then(h, e), digest), HashesOf(Run(h, digest).pool, id)[e.j];
            && job.Read? && job.content.Some?
            && (id in w'.files.disk <==> !WipedSince(h, digest, id, e.j))
            && (id in w'.files.disk ==> w'.files.disk[id] == job.content.value)
  {
    CompleteUploadIsWhole(h, e, digest, id);
    RunKeepsFile(h, digest, id, e.j);
    assert FullRead(Run(h, digest), id, e.j);
  }

  /** With a digest that tells files apart, the page is handed the client's file,
      if and only if no wipe ran since it was read back. */
  lemma PageGetsTheClientsFile(h: History, e: Event, digest: Digest, id: Id, file: Bytes)
    requires Completes(Run(h, digest), Run(Then(h, e), digest), id) && Injective(digest)
    requires id in Run(h, digest).uploads && Run(h, digest).uploads[id].sha == digest(file) != ""
    ensures e.HashReplies?
    ensures var disk := Run(Then(h, e), digest).files.disk;
            id in disk && disk[id] == file <==> !WipedSince(h, digest, id, e.j)
  {
    CompleteFileOnDisk(h, e, digest, id);
    CompleteUploadIsTheClientsFile(h, e, digest, id, file);
  }
}
