/** What holds of every file and every upload under any schedule of the pool. */
module FileUploadSafety {
  import opened Options
  import opened FileUpload

  // ----- what a file is made of -----

  function Flatten(ws: seq<Write>, ps: seq<Piece>): Bytes {
    if ps == [] then []
    else
      var p := ps[|ps| - 1];
      Flatten(ws, ps[..|ps| - 1]) + if p.n < |ws| && p.k <= |ws[p.n].bytes| then ws[p.n].bytes[..p.k] else []
  }

  /** Pieces of distinct chunks, each a prefix of its chunk, chunk 0 first. */
  ghost predicate WellMade(ws: seq<Write>, ps: seq<Piece>) {
    && (forall i :: 0 <= i < |ps| ==> ps[i].n < |ws| && ps[i].k <= |ws[ps[i].n].bytes|)
    && (forall i, j :: 0 <= i < j < |ps| ==> ps[i].n != ps[j].n)
    && (ps != [] ==> ps[0].n == 0)
  }

  function Total(ws: seq<Write>): nat {
    if ws == [] then 0 else Total(ws[..|ws| - 1]) + |ws[|ws| - 1].bytes|
  }

  /** Writes posted whose reply has not been handled. */
  function Unreplied(ws: seq<Write>): nat {
    if ws == [] then 0 else Unreplied(ws[..|ws| - 1]) + if ws[|ws| - 1].phase.Replied? then 0 else 1
  }

  /** Bytes of chunk n in the file. */
  function Got(ps: seq<Piece>, n: nat): nat {
    if ps == [] then 0 else Got(ps[..|ps| - 1], n) + if ps[|ps| - 1].n == n then ps[|ps| - 1].k else 0
  }

  function SumGot(ps: seq<Piece>, m: nat): nat {
    if m == 0 then 0 else SumGot(ps, m - 1) + Got(ps, m - 1)
  }

  /** Every non-empty chunk is in the file, whole, exactly once. */
  ghost predicate Covers(ws: seq<Write>, ps: seq<Piece>) {
    forall n :: 0 <= n < |ws| && |ws[n].bytes| > 0 ==> exists i :: Holds(ws, ps, n, i)
  }

  ghost predicate Holds(ws: seq<Write>, ps: seq<Piece>, n: nat, i: int) {
    && n < |ws| && 0 <= i < |ps| && ps[i] == Piece(n, |ws[n].bytes|)
    && (forall j :: 0 <= j < |ps| && j != i ==> ps[j].n != n)
  }

  lemma {:induction false} SumGotSnoc(ps: seq<Piece>, p: Piece, m: nat)
    ensures SumGot(ps + [p], m) == SumGot(ps, m) + if p.n < m then p.k else 0
  {
    if m > 0 {
      SumGotSnoc(ps, p, m - 1);
      assert (ps + [p])[..|ps|] == ps;
    }
  }

  lemma {:induction false} FileSize(ws: seq<Write>, ps: seq<Piece>)
    requires forall i :: 0 <= i < |ps| ==> ps[i].n < |ws| && ps[i].k <= |ws[ps[i].n].bytes|
    ensures |Flatten(ws, ps)| == SumGot(ps, |ws|)
  {
    if ps == [] {
      NothingGot(|ws|);
    } else {
      var init, p := ps[..|ps| - 1], ps[|ps| - 1];
      FileSize(ws, init);
      SumGotSnoc(init, p, |ws|);
      assert init + [p] == ps;
    }
  }

  lemma {:induction false} NothingGot(m: nat)
    ensures SumGot([], m) == 0
  {
    if m > 0 {
      NothingGot(m - 1);
    }
  }

  /** With distinct chunks, what is got of chunk n is one piece. */
  lemma {:induction false} GotIsOnePiece(ps: seq<Piece>, n: nat)
    requires forall i, j :: 0 <= i < j < |ps| ==> ps[i].n != ps[j].n
    ensures (forall i :: 0 <= i < |ps| ==> ps[i].n != n) ==> Got(ps, n) == 0
    ensures forall i :: 0 <= i < |ps| && ps[i].n == n ==> Got(ps, n) == ps[i].k
  {
    if ps != [] {
      GotIsOnePiece(ps[..|ps| - 1], n);
    }
  }

  lemma {:induction false} GotBounded(ws: seq<Write>, ps: seq<Piece>, m: nat)
    requires WellMade(ws, ps) && m <= |ws|
    ensures SumGot(ps, m) <= Total(ws[..m])
    ensures SumGot(ps, m) == Total(ws[..m]) ==> forall n :: 0 <= n < m ==> Got(ps, n) == |ws[n].bytes|
  {
    if m > 0 {
      GotBounded(ws, ps, m - 1);
      GotIsOnePiece(ps, m - 1);
      assert ws[..m][..m - 1] == ws[..m - 1];
      assert Got(ps, m - 1) <= |ws[m - 1].bytes|;
    }
  }

  /** A file as long as all accepted chunks together holds every one of them. */
  lemma FullFileCovers(ws: seq<Write>, ps: seq<Piece>)
    requires WellMade(ws, ps)
    ensures |Flatten(ws, ps)| <= Total(ws)
    ensures |Flatten(ws, ps)| == Total(ws) ==> Covers(ws, ps)
  {
    FileSize(ws, ps);
    GotBounded(ws, ps, |ws|);
    assert ws[..|ws|] == ws;
    if |Flatten(ws, ps)| == Total(ws) {
      forall n | 0 <= n < |ws| && |ws[n].bytes| > 0
        ensures exists i :: Holds(ws, ps, n, i)
      {
        GotIsOnePiece(ps, n);
        assert Got(ps, n) > 0;
        var i :| 0 <= i < |ps| && ps[i].n == n;
        assert Holds(ws, ps, n, i);
      }
    }
  }

  // ----- writes only ever gain phases and successors -----

  predicate SameBytes(ws: seq<Write>, ws': seq<Write>) {
    |ws| <= |ws'| && forall n :: 0 <= n < |ws| ==> ws'[n].bytes == ws[n].bytes
  }

  lemma {:induction false} FlattenKept(ws: seq<Write>, ws': seq<Write>, ps: seq<Piece>)
    requires SameBytes(ws, ws') && forall i :: 0 <= i < |ps| ==> ps[i].n < |ws|
    ensures Flatten(ws', ps) == Flatten(ws, ps)
  {
    if ps != [] {
      FlattenKept(ws, ws', ps[..|ps| - 1]);
    }
  }

  lemma FlattenSnoc(ws: seq<Write>, ps: seq<Piece>, n: nat, k: nat)
    requires n < |ws| && k <= |ws[n].bytes|
    ensures Flatten(ws, ps + [Piece(n, k)]) == Flatten(ws, ps) + ws[n].bytes[..k]
  {
    assert (ps + [Piece(n, k)])[..|ps|] == ps;
  }

  lemma TotalSnoc(ws: seq<Write>, x: Write)
    ensures Total(ws + [x]) == Total(ws) + |x.bytes|
    ensures Unreplied(ws + [x]) == Unreplied(ws) + if x.phase.Replied? then 0 else 1
  {
    assert (ws + [x])[..|ws|] == ws;
  }

  lemma {:induction false} PhaseChange(ws: seq<Write>, n: nat, phase: Phase)
    requires n < |ws|
    ensures var ws' := ws[n := ws[n].(phase := phase)];
            && Total(ws') == Total(ws) && SameBytes(ws, ws')
            && Unreplied(ws') == Unreplied(ws) + (if phase.Replied? then 0 else 1) - if ws[n].phase.Replied? then 0 else 1
  {
    var ws' := ws[n := ws[n].(phase := phase)];
    var last := |ws| - 1;
    if n == last {
      assert ws'[..last] == ws[..last];
    } else {
      PhaseChange(ws[..last], n, phase);
      assert ws'[..last] == ws[..last][n := ws[n].(phase := phase)];
    }
  }

  // ----- the invariant of one upload id -----

  /** The file is the pieces that landed, none of them still queued. */
  ghost predicate FileOk(w: World, id: Id) {
    var ws, ps := WritesOf(w.pool, id), LandedOf(w.files, id);
    && WellMade(ws, ps)
    && (forall i :: 0 <= i < |ps| ==> ws[ps[i].n].phase != Queued)
    && (id in w.files.disk <==> ps != [])
    && (id in w.files.disk ==> w.files.disk[id] == Flatten(ws, ps))
  }

  /** The receiver's counters count the posted writes. */
  ghost predicate LiveOk(w: World, id: Id) {
    id in w.uploads ==>
      var up, ws := w.uploads[id], WritesOf(w.pool, id);
      && id in w.pool.writes
      && 0 < up.declared <= MAX_UPLOAD_BYTES
      && up.nextSeq == |ws|
      && up.received == Total(ws) <= up.declared
      && up.inFlight == Unreplied(ws)
  }

  /** A read-back of the declared size saw every non-empty chunk. */
  ghost predicate JobOk(w: World, id: Id, job: Hash) {
    var ws := WritesOf(w.pool, id);
    job.Read? && job.content.Some? ==>
      && job.pieces != [] && WellMade(ws, job.pieces) && job.content.value == Flatten(ws, job.pieces)
      && (id in w.uploads && |job.content.value| == w.uploads[id].declared ==> Covers(ws, job.pieces))
  }

  ghost predicate HashOk(w: World, id: Id) {
    forall j :: 0 <= j < |HashesOf(w.pool, id)| ==> JobOk(w, id, HashesOf(w.pool, id)[j])
  }

  ghost predicate Ok(w: World, id: Id) {
    FileOk(w, id) && LiveOk(w, id) && HashOk(w, id)
  }

  /** Nothing about id has changed, or its upload is gone. */
  lemma Untouched(w: World, w': World, id: Id)
    requires Ok(w, id)
    requires WritesOf(w'.pool, id) == WritesOf(w.pool, id) && HashesOf(w'.pool, id) == HashesOf(w.pool, id)
    requires LandedOf(w'.files, id) == LandedOf(w.files, id) && (id in w'.files.disk <==> id in w.files.disk)
    requires id in w.files.disk ==> w'.files.disk[id] == w.files.disk[id]
    requires id in w.pool.writes ==> id in w'.pool.writes
    requires id in w'.uploads ==> id in w.uploads && w'.uploads[id] == w.uploads[id].(endPending := w'.uploads[id].endPending)
    ensures Ok(w', id)
  {
    forall j | 0 <= j < |HashesOf(w'.pool, id)|
      ensures JobOk(w', id, HashesOf(w'.pool, id)[j])
    {
      assert JobOk(w, id, HashesOf(w.pool, id)[j]);
    }
  }

  /** Later writes, or later phases of the same ones, keep a read-back good. */
  lemma JobKept(w: World, w': World, id: Id, job: Hash)
    requires LiveOk(w', id) && JobOk(w, id, job) && SameBytes(WritesOf(w.pool, id), WritesOf(w'.pool, id))
    requires id in w'.uploads ==> id in w.uploads && w'.uploads[id].declared == w.uploads[id].declared
    ensures JobOk(w', id, job)
  {
    var ws, ws' := WritesOf(w.pool, id), WritesOf(w'.pool, id);
    if job.Read? && job.content.Some? {
      FlattenKept(ws, ws', job.pieces);
      FullFileCovers(ws', job.pieces);
    }
  }

  lemma JobsKept(w: World, w': World, id: Id)
    requires HashOk(w, id) && LiveOk(w', id) && SameBytes(WritesOf(w.pool, id), WritesOf(w'.pool, id))
    requires HashesOf(w'.pool, id) == HashesOf(w.pool, id)
    requires id in w'.uploads ==> id in w.uploads && w'.uploads[id].declared == w.uploads[id].declared
    ensures HashOk(w', id)
  {
    forall j | 0 <= j < |HashesOf(w'.pool, id)|
      ensures JobOk(w', id, HashesOf(w'.pool, id)[j])
    {
      assert JobOk(w, id, HashesOf(w.pool, id)[j]);
      JobKept(w, w', id, HashesOf(w.pool, id)[j]);
    }
  }

  lemma ChunkAccepted(w: World, w': World, id: Id, bytes: Bytes)
    requires Ok(w, id) && id in w.uploads && w.uploads[id].received + |bytes| <= w.uploads[id].declared
    requires w'.files == w.files && w'.pool == PostWrite(w.pool, id, bytes)
    requires var up := w.uploads[id];
             w'.uploads == w.uploads[id := up.(nextSeq := up.nextSeq + 1, received := up.received + |bytes|, inFlight := up.inFlight + 1)]
    ensures Ok(w', id)
  {
    var ws, ps := WritesOf(w.pool, id), LandedOf(w.files, id);
    var ws' := ws + [Write(bytes, Queued)];
    TotalSnoc(ws, Write(bytes, Queued));
    FlattenKept(ws, ws', ps);
    JobsKept(w, w', id);
  }

  /** A write that leaves the file as it is. */
  lemma WriteMisses(w: World, w': World, id: Id, n: nat, ok: bool)
    requires Ok(w, id) && n < |WritesOf(w.pool, id)| && WritesOf(w.pool, id)[n].phase == Queued
    requires w'.files == w.files && w'.uploads == w.uploads && w'.pool == SetWrite(w.pool, id, n, Ran(ok))
    ensures Ok(w', id)
  {
    PhaseChange(WritesOf(w.pool, id), n, Ran(ok));
    FlattenKept(WritesOf(w.pool, id), WritesOf(w'.pool, id), LandedOf(w.files, id));
    JobsKept(w, w', id);
  }

  /** A write lands as one more piece of a chunk not in the file yet. */
  lemma PieceFits(w: World, w': World, id: Id, n: nat, k: nat, ok: bool)
    requires Ok(w, id) && n < |WritesOf(w.pool, id)| && WritesOf(w.pool, id)[n].phase == Queued
    requires k <= |WritesOf(w.pool, id)[n].bytes| && (n == 0 || id in w.files.disk)
    requires w'.uploads == w.uploads && w'.pool == SetWrite(w.pool, id, n, Ran(ok))
    requires var was := if id in w.files.disk then w.files.disk[id] else [];
             w'.files == Files(w.files.disk[id := was + WritesOf(w.pool, id)[n].bytes[..k]],
                               w.files.landed[id := LandedOf(w.files, id) + [Piece(n, k)]])
    ensures FileOk(w', id) && LiveOk(w', id) && SameBytes(WritesOf(w.pool, id), WritesOf(w'.pool, id))
  {
    var ws, ps := WritesOf(w.pool, id), LandedOf(w.files, id);
    PhaseChange(ws, n, Ran(ok));
    FlattenKept(ws, WritesOf(w'.pool, id), ps);
    FlattenSnoc(WritesOf(w'.pool, id), ps, n, k);
  }

  lemma PieceLands(w: World, w': World, id: Id, n: nat, k: nat, ok: bool)
    requires Ok(w, id) && n < |WritesOf(w.pool, id)| && WritesOf(w.pool, id)[n].phase == Queued
    requires k <= |WritesOf(w.pool, id)[n].bytes| && (n == 0 || id in w.files.disk)
    requires w'.uploads == w.uploads && w'.pool == SetWrite(w.pool, id, n, Ran(ok))
    requires var was := if id in w.files.disk then w.files.disk[id] else [];
             w'.files == Files(w.files.disk[id := was + WritesOf(w.pool, id)[n].bytes[..k]],
                               w.files.landed[id := LandedOf(w.files, id) + [Piece(n, k)]])
    ensures Ok(w', id)
  {
    PieceFits(w, w', id, n, k, ok);
    JobsKept(w, w', id);
  }

  /** The first chunk creates its file: it was never there before. */
  lemma WriteLands(w: World, id: Id, n: nat, fate: Fate)
    requires Ok(w, id) && n < |WritesOf(w.pool, id)| && WritesOf(w.pool, id)[n].phase == Queued
    ensures Ok(RunWrite(w, id, n, fate), id)
  {
    var w' := RunWrite(w, id, n, fate);
    var k := BytesWritten(WritesOf(w.pool, id)[n].bytes, fate);
    if k.None? || (n > 0 && id !in w.files.disk) {
      WriteMisses(w, w', id, n, false);
    } else {
      assert n == 0 ==> LandedOf(w.files, id) == [];
      PieceLands(w, w', id, n, k.value, fate == Works);
    }
  }

  /** The reply of one write leaves one less in flight. */
  lemma ReplyCounted(w: World, w': World, id: Id, n: nat, phase: Phase)
    requires Ok(w, id) && n < |WritesOf(w.pool, id)| && !WritesOf(w.pool, id)[n].phase.Replied? && phase.Replied?
    requires w'.files == w.files && w'.pool == SetWrite(w.pool, id, n, phase) && WritesOf(w.pool, id)[n].phase != Queued
    requires id in w'.uploads ==> id in w.uploads && w'.uploads[id] == w.uploads[id].(inFlight := w'.uploads[id].inFlight)
    requires id in w'.uploads ==> w'.uploads[id].inFlight == w.uploads[id].inFlight - 1
    ensures Ok(w', id)
  {
    PhaseChange(WritesOf(w.pool, id), n, phase);
    FlattenKept(WritesOf(w.pool, id), WritesOf(w'.pool, id), LandedOf(w.files, id));
    JobsKept(w, w', id);
  }

  lemma {:induction false} SomeUnreplied(ws: seq<Write>, n: nat)
    requires n < |ws| && !ws[n].phase.Replied?
    ensures Unreplied(ws) > 0
  {
    if n < |ws| - 1 {
      SomeUnreplied(ws[..|ws| - 1], n);
    }
  }

  lemma WriteReplied(w: World, id: Id, n: nat)
    requires Ok(w, id) && n < |WritesOf(w.pool, id)| && WritesOf(w.pool, id)[n].phase.Ran?
    ensures var ok := WritesOf(w.pool, id)[n].phase.ok;
            Ok(OnChunkWritten(w.(pool := SetWrite(w.pool, id, n, Replied(ok))), id, ok), id)
  {
    var ok := WritesOf(w.pool, id)[n].phase.ok;
    var w1 := w.(pool := SetWrite(w.pool, id, n, Replied(ok)));
    var w' := OnChunkWritten(w1, id, ok);
    SomeUnreplied(WritesOf(w.pool, id), n);
    if id !in w.uploads {
      ReplyCounted(w, w1, id, n, Replied(ok));
    } else {
      var up := w.uploads[id].(inFlight := w.uploads[id].inFlight - 1);
      var w2 := w1.(uploads := w.uploads[id := up]);
      ReplyCounted(w, w2, id, n, Replied(ok));
      if ok && up.endPending && up.inFlight == 0 {
        HashPosted(w2, id);
        Untouched(w2.(pool := PostHash(w2.pool, id)), w', id);
      } else {
        Untouched(w2, w', id);
      }
    }
  }

  lemma ReadBack(w: World, id: Id, j: nat, readable: bool)
    requires Ok(w, id) && j < |HashesOf(w.pool, id)|
    ensures Ok(RunHash(w, id, j, readable), id)
  {
    var w' := RunHash(w, id, j, readable);
    FullFileCovers(WritesOf(w.pool, id), LandedOf(w.files, id));
    forall i | 0 <= i < |HashesOf(w'.pool, id)|
      ensures JobOk(w', id, HashesOf(w'.pool, id)[i])
    {
      assert JobOk(w, id, HashesOf(w.pool, id)[i]);
    }
  }

  lemma HashReplied(w: World, id: Id, j: nat, actual: string, total: nat)
    requires Ok(w, id) && j < |HashesOf(w.pool, id)|
    ensures Ok(OnFinalised(w.(pool := SetHash(w.pool, id, j, Delivered)), id, actual, total), id)
  {
    var w1 := w.(pool := SetHash(w.pool, id, j, Delivered));
    forall i | 0 <= i < |HashesOf(w1.pool, id)|
      ensures JobOk(w1, id, HashesOf(w1.pool, id)[i])
    {
      assert JobOk(w, id, HashesOf(w.pool, id)[i]);
    }
    Untouched(w1, OnFinalised(w1, id, actual, total), id);
  }

  lemma Finalised(w: World, id: Id)
    requires Ok(w, id)
    ensures Ok(HandleEnd(w, id), id)
  {
    var w' := HandleEnd(w, id);
    if id in w.uploads && w.uploads[id].inFlight == 0 {
      HashPosted(w, id);
    } else {
      Untouched(w, w', id);
    }
  }

  lemma HashPosted(w: World, id: Id)
    requires Ok(w, id)
    ensures Ok(w.(pool := PostHash(w.pool, id)), id)
  {
    var w' := w.(pool := PostHash(w.pool, id));
    forall j | 0 <= j < |HashesOf(w'.pool, id)|
      ensures JobOk(w', id, HashesOf(w'.pool, id)[j])
    {
      if j < |HashesOf(w.pool, id)| {
        assert JobOk(w, id, HashesOf(w.pool, id)[j]);
      }
    }
  }

  lemma FileGone(w: World, w': World, id: Id)
    requires Ok(w, id) && w'.uploads == w.uploads && id !in w'.files.disk && LandedOf(w'.files, id) == []
    requires w'.pool.writes == w.pool.writes && w'.pool.hashes == w.pool.hashes
    ensures Ok(w', id)
  {
    forall j | 0 <= j < |HashesOf(w'.pool, id)|
      ensures JobOk(w', id, HashesOf(w'.pool, id)[j])
    {
      assert JobOk(w, id, HashesOf(w.pool, id)[j]);
    }
  }

  lemma NoWritesNoPieces(ps: seq<Piece>)
    requires WellMade([], ps)
    ensures |ps| == 0
  {
  }

  /** An id with no write yet has no file and no read-back of one. */
  lemma FreshId(w: World, id: Id)
    requires Ok(w, id) && WritesOf(w.pool, id) == []
    ensures LandedOf(w.files, id) == [] && id !in w.files.disk
    ensures forall j :: 0 <= j < |HashesOf(w.pool, id)| ==>
              !(HashesOf(w.pool, id)[j].Read? && HashesOf(w.pool, id)[j].content.Some?)
  {
    NoWritesNoPieces(LandedOf(w.files, id));
    forall j | 0 <= j < |HashesOf(w.pool, id)|
      ensures !(HashesOf(w.pool, id)[j].Read? && HashesOf(w.pool, id)[j].content.Some?)
    {
      var job := HashesOf(w.pool, id)[j];
      assert JobOk(w, id, job);
      if job.Read? && job.content.Some? {
        NoWritesNoPieces(job.pieces);
      }
    }
  }

  lemma Started(w: World, w': World, id: Id)
    requires Ok(w, id) && WritesOf(w.pool, id) == [] && w'.files == w.files
    requires id in w'.pool.writes && WritesOf(w'.pool, id) == [] && w'.pool.hashes == w.pool.hashes
    requires id in w'.uploads ==>
               var up := w'.uploads[id];
               0 < up.declared <= MAX_UPLOAD_BYTES && up.nextSeq == 0 && up.received == 0 && up.inFlight == 0
    ensures Ok(w', id)
  {
    FreshId(w, id);
    assert HashesOf(w'.pool, id) == HashesOf(w.pool, id);
    forall j | 0 <= j < |HashesOf(w'.pool, id)|
      ensures JobOk(w', id, HashesOf(w'.pool, id)[j])
    {
    }
  }

  /** What HandleStart touches. */
  lemma StartEffect(w: World, x: Id, name: string, sha: string, declared: int)
    ensures var w' := HandleStart(w, x, name, sha, declared);
            && w'.files == w.files && w'.pool == w.pool
            && (w'.uploads == w.uploads
                || (0 < declared <= MAX_UPLOAD_BYTES && w'.uploads == w.uploads[x := Upload(name, sha, declared, 0, 0, 0, false)]))
  {
  }

  lemma StartKeepsOther(w: World, w': World, x: Id, id: Id)
    requires Ok(w, id) && x != id && w'.files == w.files
    requires w'.pool == w.pool.(writes := w.pool.writes[x := []])
    requires id in w'.uploads ==> id in w.uploads && w'.uploads[id] == w.uploads[id]
    ensures Ok(w', id)
  {
    assert WritesOf(w'.pool, id) == WritesOf(w.pool, id) && HashesOf(w'.pool, id) == HashesOf(w.pool, id);
    assert id in w'.uploads ==> w'.uploads[id] == w.uploads[id].(endPending := w'.uploads[id].endPending);
    Untouched(w, w', id);
  }

  lemma StartKeepsOk(w: World, x: Id, name: string, sha: string, declared: int, id: Id)
    requires Ok(w, id) && x !in w.pool.writes
    ensures Ok(HandleStart(w.(pool := w.pool.(writes := w.pool.writes[x := []])), x, name, sha, declared), id)
  {
    var w1 := w.(pool := w.pool.(writes := w.pool.writes[x := []]));
    var w' := HandleStart(w1, x, name, sha, declared);
    StartEffect(w1, x, name, sha, declared);
    if x == id {
      Started(w, w', id);
    } else {
      StartKeepsOther(w, w', x, id);
    }
  }

  lemma ChunkKeepsOk(w: World, x: Id, seqNo: int, decoded: Option<Bytes>, id: Id)
    requires Ok(w, id)
    ensures Ok(HandleChunk(w, x, seqNo, decoded), id)
  {
    var w' := HandleChunk(w, x, seqNo, decoded);
    if x == id && id in w.uploads && seqNo == w.uploads[id].nextSeq && decoded.Some?
       && w.uploads[id].received + |decoded.value| <= w.uploads[id].declared {
      ChunkAccepted(w, w', id, decoded.value);
    } else {
      Untouched(w, w', id);
    }
  }

  lemma EndKeepsOk(w: World, x: Id, id: Id)
    requires Ok(w, id)
    ensures Ok(HandleEnd(w, x), id)
  {
    if x == id {
      Finalised(w, id);
    } else {
      Untouched(w, HandleEnd(w, x), id);
    }
  }

  /** Handlers of the UI sequence, whichever upload they are about. */
  lemma HandlerKeepsOk(w: World, e: Event, digest: Digest, id: Id)
    requires Enabled(w, e) && Ok(w, id)
    requires e.Start? || e.Chunk? || e.End? || e.Cancel? || e.OpenChooser? || e.CloseChooser? || e.Deadline? || e.Reset?
    ensures Ok(Happen(w, e, digest), id)
  {
    match e
    case Start(x, name, sha, declared) => StartKeepsOk(w, x, name, sha, declared, id);
    case Chunk(x, seqNo, decoded) => ChunkKeepsOk(w, x, seqNo, decoded, id);
    case End(x) => EndKeepsOk(w, x, id);
    case Cancel(x) => Untouched(w, HandleCancel(w, x), id);
    case Reset => Untouched(w, ResetForNewSession(w), id);
    case OpenChooser => Untouched(w, w.(chooser := BeginChooser(w.chooser)), id);
    case _ => Untouched(w, w.(chooser := CancelChooser(w.chooser)), id);
  }

  /** Pool events of another upload. */
  lemma OtherPoolEvent(w: World, e: Event, digest: Digest, id: Id)
    requires Enabled(w, e) && Ok(w, id)
    requires e.WriteRuns? || e.WriteReplies? || e.HashRuns? || e.HashReplies? || e.DeleteRuns?
    requires e.id != id
    ensures Ok(Happen(w, e, digest), id)
  {
    match e
    case WriteRuns(x, n, fate) => Untouched(w, RunWrite(w, x, n, fate), id);
    case WriteReplies(x, n) => OtherReply(w, x, n, id);
    case HashRuns(x, j, readable) => Untouched(w, RunHash(w, x, j, readable), id);
    case HashReplies(x, j) =>
      var content := HashesOf(w.pool, x)[j].content;
      OtherHash(w, x, j, HashOf(digest, content), SizeOf(content), id);
    case DeleteRuns(x) => Untouched(w, Happen(w, e, digest), id);
  }

  lemma OtherHash(w: World, x: Id, j: nat, actual: string, total: nat, id: Id)
    requires Ok(w, id) && x != id && j < |HashesOf(w.pool, x)|
    ensures Ok(OnFinalised(w.(pool := SetHash(w.pool, x, j, Delivered)), x, actual, total), id)
  {
    Untouched(w, OnFinalised(w.(pool := SetHash(w.pool, x, j, Delivered)), x, actual, total), id);
  }

  lemma OtherReply(w: World, x: Id, n: nat, id: Id)
    requires Ok(w, id) && x != id && n < |WritesOf(w.pool, x)| && WritesOf(w.pool, x)[n].phase.Ran?
    ensures var ok := WritesOf(w.pool, x)[n].phase.ok;
            Ok(OnChunkWritten(w.(pool := SetWrite(w.pool, x, n, Replied(ok))), x, ok), id)
  {
    var ok := WritesOf(w.pool, x)[n].phase.ok;
    var w1 := w.(pool := SetWrite(w.pool, x, n, Replied(ok)));
    Untouched(w, OnChunkWritten(w1, x, ok), id);
  }

  lemma PoolKeepsOk(w: World, e: Event, digest: Digest, id: Id)
    requires Enabled(w, e) && Ok(w, id)
    requires e.WriteRuns? || e.WriteReplies? || e.HashRuns? || e.HashReplies? || e.DeleteRuns? || e.WipeRuns?
    ensures Ok(Happen(w, e, digest), id)
  {
    var w' := Happen(w, e, digest);
    if !e.WipeRuns? && e.id != id {
      OtherPoolEvent(w, e, digest, id);
    } else {
      match e
      case WriteRuns(_, n, fate) => WriteLands(w, id, n, fate);
      case WriteReplies(_, n) => WriteReplied(w, id, n);
      case HashRuns(_, j, readable) => ReadBack(w, id, j, readable);
      case HashReplies(_, j) =>
        var content := HashesOf(w.pool, id)[j].content;
        HashReplied(w, id, j, HashOf(digest, content), SizeOf(content));
      case DeleteRuns(_) => FileGone(w, w', id);
      case WipeRuns => FileGone(w, w', id);
    }
  }

  /** Under any schedule, whatever the digest, every upload id keeps its
      invariant. */
  lemma {:induction false} RunKeepsOk(h: History, digest: Digest, id: Id)
    ensures Ok(Run(h, digest), id)
  {
    if h.Then? {
      RunKeepsOk(h.past, digest, id);
      var w, e := Run(h.past, digest), h.event;
      if Enabled(w, e) {
        if e.WriteRuns? || e.WriteReplies? || e.HashRuns? || e.HashReplies? || e.DeleteRuns? || e.WipeRuns? {
          PoolKeepsOk(w, e, digest, id);
        } else {
          HandlerKeepsOk(w, e, digest, id);
        }
      }
    }
  }
}
