/** When the chunks of an upload land in order: exactly when the client never
    sends a chunk over an earlier one, other than the first, still waiting in the
    pool. */
module FileUploadOrder {
  import opened Options
  import opened FileUpload
  import opened FileUploadSafety
  import opened FileUploadTheorems

  /** The chunks one after the other, as the client cut its file. */
  function Joined(ws: seq<Write>): Bytes {
    if ws == [] then [] else Joined(ws[..|ws| - 1]) + ws[|ws| - 1].bytes
  }

  ghost predicate Increasing(ps: seq<Piece>) {
    forall i, j :: 0 <= i < j < |ps| ==> ps[i].n < ps[j].n
  }

  /** The pieces of all chunks but the last. */
  function Older(ws: seq<Write>, ps: seq<Piece>): seq<Piece>
    requires ws != []
  {
    if ps != [] && ps[|ps| - 1].n == |ws| - 1 then ps[..|ps| - 1] else ps
  }

  /** Whole chunks in increasing order make the client's file. */
  lemma {:induction false} InOrderIsJoined(ws: seq<Write>, ps: seq<Piece>)
    requires WellMade(ws, ps) && Covers(ws, ps) && Increasing(ps)
    ensures Flatten(ws, ps) == Joined(ws)
    decreases |ws|
  {
    if ws == [] {
      NoWritesNoPieces(ps);
    } else {
      var ws', ps' := ws[..|ws| - 1], Older(ws, ps);
      OlderPieces(ws, ps);
      OlderCovers(ws, ps);
      InOrderIsJoined(ws', ps');
      LastChunk(ws, ps);
      FlattenOlder(ws, ps);
    }
  }

  lemma FlattenOlder(ws: seq<Write>, ps: seq<Piece>)
    requires ws != [] && WellMade(ws[..|ws| - 1], Older(ws, ps))
    requires var m := |ws| - 1;
             if ps != [] && ps[|ps| - 1].n == m then ps[|ps| - 1].k == |ws[m].bytes| else ws[m].bytes == []
    ensures Flatten(ws, ps) == Flatten(ws[..|ws| - 1], Older(ws, ps)) + ws[|ws| - 1].bytes
  {
    var m, older := |ws| - 1, Older(ws, ps);
    FlattenKept(ws[..m], ws, older);
    if ps != [] && ps[|ps| - 1].n == m {
      assert Flatten(ws, ps) == Flatten(ws, older) + ws[m].bytes[..|ws[m].bytes|];
    } else {
      assert older == ps;
    }
  }

  lemma OlderPieces(ws: seq<Write>, ps: seq<Piece>)
    requires ws != [] && WellMade(ws, ps) && Increasing(ps)
    ensures WellMade(ws[..|ws| - 1], Older(ws, ps)) && Increasing(Older(ws, ps))
  {
    var older := Older(ws, ps);
    assert forall i :: 0 <= i < |older| ==> older[i] == ps[i];
    forall i | 0 <= i < |older|
      ensures older[i].n < |ws| - 1
    {
      assert ps[i].n <= ps[|ps| - 1].n;
    }
  }

  lemma OlderCovers(ws: seq<Write>, ps: seq<Piece>)
    requires ws != [] && Covers(ws, ps)
    ensures Covers(ws[..|ws| - 1], Older(ws, ps))
  {
    var ws', ps' := ws[..|ws| - 1], Older(ws, ps);
    forall n | 0 <= n < |ws'| && |ws'[n].bytes| > 0
      ensures exists i :: Holds(ws', ps', n, i)
    {
      var i :| Holds(ws, ps, n, i);
      assert Holds(ws', ps', n, i);
    }
  }

  lemma LastChunk(ws: seq<Write>, ps: seq<Piece>)
    requires ws != [] && WellMade(ws, ps) && Covers(ws, ps) && Increasing(ps)
    ensures var m := |ws| - 1;
            if ps != [] && ps[|ps| - 1].n == m then ps[|ps| - 1].k == |ws[m].bytes| else ws[m].bytes == []
  {
    var m := |ws| - 1;
    if |ws[m].bytes| > 0 {
      var i :| Holds(ws, ps, m, i);
      assert ps[i].n <= ps[|ps| - 1].n;
    }
  }

  // ----- writes that can still land out of order -----

  predicate InFile(ps: seq<Piece>, n: nat) {
    exists i :: 0 <= i < |ps| && ps[i].n == n
  }

  /** There is a file to append to, or the write that creates it is to come. */
  predicate CanLand(w: World, id: Id) {
    id in w.files.disk || (|WritesOf(w.pool, id)| > 0 && WritesOf(w.pool, id)[0].phase == Queued)
  }

  /** Chunk m is still in the pool, and chunk n after it may land first or has. */
  predicate Crosses(ws: seq<Write>, ps: seq<Piece>, m: nat, n: nat) {
    1 <= m < n < |ws| && ws[m].phase == Queued && (ws[n].phase == Queued || InFile(ps, n))
  }

  ghost predicate Crossable(w: World, id: Id) {
    CanLand(w, id) && exists m: nat, n: nat :: Crosses(WritesOf(w.pool, id), LandedOf(w.files, id), m, n)
  }

  ghost predicate JobsInOrder(jobs: seq<Hash>) {
    forall j :: 0 <= j < |jobs| && jobs[j].Read? ==> Increasing(jobs[j].pieces)
  }

  /** What has landed, and what has been read back, is in order and stays so. */
  ghost predicate InOrder(w: World, id: Id) {
    !Crossable(w, id) && Increasing(LandedOf(w.files, id)) && JobsInOrder(HashesOf(w.pool, id))
  }

  predicate Accepts(w: World, e: Event, id: Id) {
    && e.Chunk? && e.id == id && id in w.uploads && e.seqNo == w.uploads[id].nextSeq && e.decoded.Some?
    && w.uploads[id].received + |e.decoded.value| <= w.uploads[id].declared
  }

  /** A chunk is accepted only when no earlier write is in the pool, the first
      one aside. */
  predicate Spaced(w: World, e: Event, id: Id) {
    Accepts(w, e, id) && CanLand(w, id) ==>
      forall m :: 1 <= m < |WritesOf(w.pool, id)| ==> WritesOf(w.pool, id)[m].phase != Queued
  }

  ghost predicate AllSpaced(h: History, digest: Digest, id: Id) {
    h.Then? ==> AllSpaced(h.past, digest, id) && Spaced(Run(h.past, digest), h.event, id)
  }

  // ----- spaced chunks land in order -----

  /** Fewer queued writes, and nothing new in the file, make no new crossing. */
  lemma FewerCrossings(w: World, w': World, id: Id)
    requires !Crossable(w, id) && (CanLand(w', id) ==> CanLand(w, id))
    requires var ws, ws' := WritesOf(w.pool, id), WritesOf(w'.pool, id);
             && |ws'| == |ws|
             && (forall n :: 0 <= n < |ws| && ws'[n].phase == Queued ==> ws[n].phase == Queued)
    requires forall n: nat :: n < |WritesOf(w.pool, id)| && InFile(LandedOf(w'.files, id), n) ==>
               InFile(LandedOf(w.files, id), n) || WritesOf(w.pool, id)[n].phase == Queued
    ensures !Crossable(w', id)
  {
    var ws, ps := WritesOf(w.pool, id), LandedOf(w.files, id);
    var ws', ps' := WritesOf(w'.pool, id), LandedOf(w'.files, id);
    if Crossable(w', id) {
      var m: nat, n: nat :| Crosses(ws', ps', m, n);
      assert Crosses(ws, ps, m, n);
    }
  }

  lemma WriteEffect(w: World, id: Id, n: nat, fate: Fate)
    requires Ok(w, id) && n < |WritesOf(w.pool, id)| && WritesOf(w.pool, id)[n].phase == Queued
    ensures var w', ws, ps := RunWrite(w, id, n, fate), WritesOf(w.pool, id), LandedOf(w.files, id);
            && WritesOf(w'.pool, id) == ws[n := ws[n].(phase := WritesOf(w'.pool, id)[n].phase)]
            && WritesOf(w'.pool, id)[n].phase.Ran?
            && ((LandedOf(w'.files, id) == ps && (id in w'.files.disk <==> id in w.files.disk))
                || ((n == 0 || id in w.files.disk) && id in w'.files.disk
                    && exists k: nat :: LandedOf(w'.files, id) == ps + [Piece(n, k)]))
            && (fate == Works && (n == 0 || id in w.files.disk) ==>
                  && id in w'.files.disk && LandedOf(w'.files, id) == ps + [Piece(n, |ws[n].bytes|)]
                  && WritesOf(w'.pool, id)[n].phase == Ran(true))
  {
    var ws, ps := WritesOf(w.pool, id), LandedOf(w.files, id);
    assert n == 0 ==> ps == [];
    var k := BytesWritten(ws[n].bytes, fate);
    if k.Some? && (n == 0 || id in w.files.disk) {
      assert LandedOf(RunWrite(w, id, n, fate).files, id) == ps + [Piece(n, k.value)];
    }
  }

  /** A write that cannot be crossed lands behind everything in the file. */
  lemma WriteInOrder(w: World, id: Id, n: nat, fate: Fate)
    requires Ok(w, id) && InOrder(w, id) && n < |WritesOf(w.pool, id)| && WritesOf(w.pool, id)[n].phase == Queued
    ensures InOrder(RunWrite(w, id, n, fate), id)
  {
    var ws, ps, w' := WritesOf(w.pool, id), LandedOf(w.files, id), RunWrite(w, id, n, fate);
    WriteEffect(w, id, n, fate);
    if LandedOf(w'.files, id) != ps {
      forall i | 0 <= i < |ps|
        ensures ps[i].n < n
      {
        assert InFile(ps, ps[i].n);
        assert !Crosses(ws, ps, n, ps[i].n);
      }
    }
    FewerCrossings(w, w', id);
    assert HashesOf(w'.pool, id) == HashesOf(w.pool, id);
  }

  lemma ChunkInOrder(w: World, id: Id, seqNo: int, decoded: Option<Bytes>)
    requires Ok(w, id) && InOrder(w, id) && Spaced(w, Chunk(id, seqNo, decoded), id)
    ensures InOrder(HandleChunk(w, id, seqNo, decoded), id)
  {
    var w' := HandleChunk(w, id, seqNo, decoded);
    assert HashesOf(w'.pool, id) == HashesOf(w.pool, id) && LandedOf(w'.files, id) == LandedOf(w.files, id);
    if Accepts(w, Chunk(id, seqNo, decoded), id) {
      var ws, ps, ws' := WritesOf(w.pool, id), LandedOf(w.files, id), WritesOf(w'.pool, id);
      assert ws' == ws + [Write(decoded.value, Queued)];
      assert forall m: nat, n: nat :: n < |ws| && Crosses(ws', ps, m, n) ==> Crosses(ws, ps, m, n);
    } else {
      FewerCrossings(w, w', id);
    }
  }

  /** Every other event leaves the writes and the file of id alone, moves a phase
      on, or removes the file. */
  lemma OtherInOrder(w: World, e: Event, digest: Digest, id: Id)
    requires Enabled(w, e) && InOrder(w, id)
    requires !(e.Chunk? && e.id == id) && !(e.WriteRuns? && e.id == id)
    ensures InOrder(Happen(w, e, digest), id)
  {
    match e
    case WriteReplies(x, n) => ReplyInOrder(w, x, n, id);
    case HashReplies(x, j) =>
      var content := HashesOf(w.pool, x)[j].content;
      HashInOrder(w, x, j, HashOf(digest, content), SizeOf(content), id);
    case HashRuns(x, j, readable) =>
      assert JobsInOrder(HashesOf(RunHash(w, x, j, readable).pool, id));
      FewerCrossings(w, RunHash(w, x, j, readable), id);
    case End(x) => EndInOrder(w, x, id);
    case Start(x, name, sha, declared) =>
      StartEffect(w.(pool := w.pool.(writes := w.pool.writes[x := []])), x, name, sha, declared);
      LeftAlone(w, Happen(w, e, digest), id);
    case Chunk(x, seqNo, decoded) => LeftAlone(w, HandleChunk(w, x, seqNo, decoded), id);
    case WriteRuns(x, n, fate) => LeftAlone(w, RunWrite(w, x, n, fate), id);
    case _ =>
      assert HashesOf(Happen(w, e, digest).pool, id) == HashesOf(w.pool, id);
      FewerCrossings(w, Happen(w, e, digest), id);
  }

  lemma LeftAlone(w: World, w': World, id: Id)
    requires InOrder(w, id) && WritesOf(w'.pool, id) == WritesOf(w.pool, id) && HashesOf(w'.pool, id) == HashesOf(w.pool, id)
    requires LandedOf(w'.files, id) == LandedOf(w.files, id) && (id in w'.files.disk <==> id in w.files.disk)
    ensures InOrder(w', id)
  {
    FewerCrossings(w, w', id);
  }

  lemma HashInOrder(w: World, x: Id, j: nat, actual: string, total: nat, id: Id)
    requires InOrder(w, id) && j < |HashesOf(w.pool, x)|
    ensures InOrder(OnFinalised(w.(pool := SetHash(w.pool, x, j, Delivered)), x, actual, total), id)
  {
    assert JobsInOrder(HashesOf(SetHash(w.pool, x, j, Delivered), id));
    FewerCrossings(w, OnFinalised(w.(pool := SetHash(w.pool, x, j, Delivered)), x, actual, total), id);
  }

  lemma EndInOrder(w: World, x: Id, id: Id)
    requires InOrder(w, id)
    ensures InOrder(HandleEnd(w, x), id)
  {
    assert JobsInOrder(HashesOf(PostHash(w.pool, x), id));
    FewerCrossings(w, HandleEnd(w, x), id);
  }

  lemma ReplyInOrder(w: World, x: Id, n: nat, id: Id)
    requires InOrder(w, id) && n < |WritesOf(w.pool, x)| && WritesOf(w.pool, x)[n].phase.Ran?
    ensures var ok := WritesOf(w.pool, x)[n].phase.ok;
            InOrder(OnChunkWritten(w.(pool := SetWrite(w.pool, x, n, Replied(ok))), x, ok), id)
  {
    var ok := WritesOf(w.pool, x)[n].phase.ok;
    var p := SetWrite(w.pool, x, n, Replied(ok));
    var w' := OnChunkWritten(w.(pool := p), x, ok);
    assert JobsInOrder(HashesOf(p, id)) && JobsInOrder(HashesOf(PostHash(p, x), id));
    assert WritesOf(w'.pool, id) == WritesOf(p, id);
    FewerCrossings(w, w', id);
  }

  lemma StepInOrder(w: World, e: Event, digest: Digest, id: Id)
    requires Ok(w, id) && InOrder(w, id) && Spaced(w, e, id)
    ensures InOrder(Step(w, e, digest), id)
  {
    if Enabled(w, e) {
      if e.Chunk? && e.id == id {
        ChunkInOrder(w, id, e.seqNo, e.decoded);
      } else if e.WriteRuns? && e.id == id {
        WriteInOrder(w, id, e.n, e.fate);
      } else {
        OtherInOrder(w, e, digest, id);
      }
    }
  }

  lemma {:induction false} SpacedKeepsOrder(h: History, digest: Digest, id: Id)
    requires AllSpaced(h, digest, id)
    ensures InOrder(Run(h, digest), id)
  {
    if h.Then? {
      SpacedKeepsOrder(h.past, digest, id);
      RunKeepsOk(h.past, digest, id);
      StepInOrder(Run(h.past, digest), h.event, digest, id);
    }
  }

  /** Spaced chunks complete in order, with or without a declared digest. */
  lemma SpacedUploadIsInOrder(h: History, e: Event, digest: Digest, id: Id)
    requires AllSpaced(h, digest, id) && Completes(Run(h, digest), Run(Then(h, e), digest), id)
    ensures e.HashReplies? && e.j < |HashesOf(Run(h, digest).pool, id)|
    ensures var w := Run(h, digest);
            var job := HashesOf(w.pool, id)[e.j];
            job.Read? && job.content == Some(Joined(WritesOf(w.pool, id)))
  {
    CompleteUploadIsWhole(h, e, digest, id);
    SpacedKeepsOrder(h, digest, id);
    var w := Run(h, digest);
    var job := HashesOf(w.pool, id)[e.j];
    InOrderIsJoined(WritesOf(w.pool, id), job.pieces);
  }

  /** Whatever the client does, one or two chunks complete in order. */
  lemma TwoChunksAreInOrder(h: History, e: Event, digest: Digest, id: Id)
    requires Completes(Run(h, digest), Run(Then(h, e), digest), id) && |WritesOf(Run(h, digest).pool, id)| <= 2
    ensures e.HashReplies? && e.j < |HashesOf(Run(h, digest).pool, id)|
    ensures var w := Run(h, digest);
            var job := HashesOf(w.pool, id)[e.j];
            job.Read? && job.content == Some(Joined(WritesOf(w.pool, id)))
  {
    CompleteUploadIsWhole(h, e, digest, id);
    var w := Run(h, digest);
    InOrderIsJoined(WritesOf(w.pool, id), HashesOf(w.pool, id)[e.j].pieces);
  }

  // ----- and no others do -----

  /** h' goes on from h without another chunk of id. */
  ghost predicate GoesOn(h': History, h: History, digest: Digest, id: Id) {
    h' == h || (h'.Then? && GoesOn(h'.past, h, digest, id) && !Accepts(Run(h'.past, digest), h'.event, id))
  }

  /** Some schedule of the pool, from here on, lands a later chunk first. */
  ghost predicate CanScramble(h: History, digest: Digest, id: Id) {
    exists h' :: GoesOn(h', h, digest, id) && !Increasing(LandedOf(Run(h', digest).files, id))
  }

  lemma {:induction false} StaysInOrder(h: History, h': History, digest: Digest, id: Id)
    requires GoesOn(h', h, digest, id) && InOrder(Run(h, digest), id)
    ensures InOrder(Run(h', digest), id)
  {
    if h' != h {
      StaysInOrder(h, h'.past, digest, id);
      RunKeepsOk(h'.past, digest, id);
      StepInOrder(Run(h'.past, digest), h'.event, digest, id);
    }
  }

  lemma LandWhole(h: History, digest: Digest, id: Id, n: nat)
    requires var w := Run(h, digest);
             && n < |WritesOf(w.pool, id)| && WritesOf(w.pool, id)[n].phase == Queued && (n == 0 || id in w.files.disk)
    ensures var w, w' := Run(h, digest), Run(Then(h, WriteRuns(id, n, Works)), digest);
            && id in w'.files.disk
            && LandedOf(w'.files, id) == LandedOf(w.files, id) + [Piece(n, |WritesOf(w.pool, id)[n].bytes|)]
            && WritesOf(w'.pool, id) == WritesOf(w.pool, id)[n := WritesOf(w.pool, id)[n].(phase := Ran(true))]
            && w'.uploads == w.uploads && w'.pool.hashes == w.pool.hashes
  {
    RunKeepsOk(h, digest, id);
    WriteEffect(Run(h, digest), id, n, Works);
  }

  lemma CrossingOnDisk(h: History, digest: Digest, id: Id, m: nat, n: nat) returns (h': History)
    requires var w := Run(h, digest);
             id in w.files.disk && Crosses(WritesOf(w.pool, id), LandedOf(w.files, id), m, n)
    ensures GoesOn(h', h, digest, id) && !Increasing(LandedOf(Run(h', digest).files, id))
  {
    var w := Run(h, digest);
    var ps := LandedOf(w.files, id);
    var h1 := h;
    if WritesOf(w.pool, id)[n].phase == Queued {
      LandWhole(h, digest, id, n);
      h1 := Then(h, WriteRuns(id, n, Works));
      assert LandedOf(Run(h1, digest).files, id)[|ps|].n == n;
    }
    var ps1 := LandedOf(Run(h1, digest).files, id);
    var i :| 0 <= i < |ps1| && ps1[i].n == n;
    LandWhole(h1, digest, id, m);
    assert GoesOn(h, h, digest, id) && GoesOn(h1, h, digest, id);
    h' := Then(h1, WriteRuns(id, m, Works));
    assert LandedOf(Run(h', digest).files, id)[i].n == n && LandedOf(Run(h', digest).files, id)[|ps1|].n == m;
  }

  lemma CrossingScrambles(h: History, digest: Digest, id: Id)
    requires Crossable(Run(h, digest), id)
    ensures CanScramble(h, digest, id)
  {
    var w := Run(h, digest);
    var m: nat, n: nat :| Crosses(WritesOf(w.pool, id), LandedOf(w.files, id), m, n);
    if id in w.files.disk {
      var h' := CrossingOnDisk(h, digest, id, m, n);
    } else {
      RunKeepsOk(h, digest, id);
      LandWhole(h, digest, id, 0);
      var h1 := Then(h, WriteRuns(id, 0, Works));
      assert GoesOn(h, h, digest, id) && GoesOn(h1, h, digest, id);
      var h' := CrossingOnDisk(h1, digest, id, m, n);
      GoesOnFurther(h', h1, h, digest, id);
    }
  }

  lemma {:induction false} GoesOnFurther(h2: History, h1: History, h: History, digest: Digest, id: Id)
    requires GoesOn(h2, h1, digest, id) && GoesOn(h1, h, digest, id)
    ensures GoesOn(h2, h, digest, id)
  {
    if h2 != h1 {
      GoesOnFurther(h2.past, h1, h, digest, id);
    }
  }

  /** In a state reached in order, the pool can still scramble the file exactly
      when two of its writes can cross. */
  lemma ScramblesExactly(h: History, digest: Digest, id: Id)
    requires InOrder(Run(h, digest), id) || Crossable(Run(h, digest), id)
    ensures CanScramble(h, digest, id) <==> Crossable(Run(h, digest), id)
  {
    if Crossable(Run(h, digest), id) {
      CrossingScrambles(h, digest, id);
    } else if CanScramble(h, digest, id) {
      var h' :| GoesOn(h', h, digest, id) && !Increasing(LandedOf(Run(h', digest).files, id));
      StaysInOrder(h, h', digest, id);
    }
  }

  /** The pool could have scrambled the file at some point of the run. */
  ghost predicate EverScrambles(h: History, digest: Digest, id: Id) {
    CanScramble(h, digest, id) || (h.Then? && EverScrambles(h.past, digest, id))
  }

  lemma UnspacedCrosses(w: World, e: Event, digest: Digest, id: Id)
    requires LiveOk(w, id) && !Spaced(w, e, id)
    ensures Crossable(Step(w, e, digest), id)
  {
    var ws, w' := WritesOf(w.pool, id), Step(w, e, digest);
    var m :| 1 <= m < |ws| && ws[m].phase == Queued;
    assert WritesOf(w'.pool, id) == ws + [Write(e.decoded.value, Queued)];
    assert Crosses(WritesOf(w'.pool, id), LandedOf(w'.files, id), m, |ws|);
  }

  /** The discipline is exact: a run is spaced if and only if at no point of it
      could any schedule of the pool have put its chunks out of order. */
  lemma {:induction false} SpacedExactly(h: History, digest: Digest, id: Id)
    ensures AllSpaced(h, digest, id) <==> !EverScrambles(h, digest, id)
  {
    if h.Then? {
      SpacedExactly(h.past, digest, id);
    }
    if AllSpaced(h, digest, id) {
      SpacedKeepsOrder(h, digest, id);
      ScramblesExactly(h, digest, id);
    } else if AllSpaced(h.past, digest, id) {
      RunKeepsOk(h.past, digest, id);
      UnspacedCrosses(Run(h.past, digest), h.event, digest, id);
      CrossingScrambles(h, digest, id);
    }
  }

  // ----- a client that waits -----

  /** From the third chunk on, a chunk is sent only when every write but the
      first has been replied to. */
  predicate Waits(w: World, e: Event, id: Id) {
    Accepts(w, e, id) ==> forall m :: 1 <= m < |WritesOf(w.pool, id)| ==> WritesOf(w.pool, id)[m].phase.Replied?
  }

  ghost predicate AlwaysWaits(h: History, digest: Digest, id: Id) {
    h.Then? ==> AlwaysWaits(h.past, digest, id) && Waits(Run(h.past, digest), h.event, id)
  }

  /** What a client can do with the progress replies alone is enough. */
  lemma {:induction false} WaitingIsSpaced(h: History, digest: Digest, id: Id)
    requires AlwaysWaits(h, digest, id)
    ensures AllSpaced(h, digest, id)
  {
    if h.Then? {
      WaitingIsSpaced(h.past, digest, id);
    }
  }
}
