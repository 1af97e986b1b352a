/** A crossing need not be caught: from any state in which two writes of a sound
    upload without a digest can cross, some run completes it out of order. */
module FileUploadScramble {
  import opened Options
  import opened FileUpload
  import opened FileUploadSafety
  import opened FileUploadTheorems
  import opened FileUploadOrder

  /** Write n has run, and is in the file whole. */
  predicate Whole(ws: seq<Write>, ps: seq<Piece>, n: nat)
    requires n < |ws|
  {
    (ws[n].phase == Ran(true) || ws[n].phase == Replied(true)) && Piece(n, |ws[n].bytes|) in ps
  }

  /** A live upload without a digest, all of whose writes that ran worked. */
  ghost predicate Sound(w: World, id: Id) {
    && id in w.uploads && w.uploads[id].sha == "" && WritesOf(w.pool, id) != []
    && (forall n :: 0 <= n < |WritesOf(w.pool, id)| && WritesOf(w.pool, id)[n].phase != Queued ==>
          Whole(WritesOf(w.pool, id), LandedOf(w.files, id), n))
  }

  /** Every byte is accepted, and the file is out of order already. */
  ghost predicate Doomed(w: World, id: Id) {
    && Sound(w, id) && w.uploads[id].received == w.uploads[id].declared
    && id in w.files.disk && !Increasing(LandedOf(w.files, id))
  }

  ghost predicate Extends(h': History, h: History) {
    h' == h || (h'.Then? && Extends(h'.past, h))
  }

  lemma {:induction false} ExtendsFurther(h2: History, h1: History, h: History)
    requires Extends(h2, h1) && Extends(h1, h)
    ensures Extends(h2, h)
  {
    if h2 != h1 {
      ExtendsFurther(h2.past, h1, h);
    }
  }

  // ----- running and replying to everything -----

  lemma StillUnordered(ps: seq<Piece>, p: Piece)
    requires !Increasing(ps)
    ensures !Increasing(ps + [p])
  {
    var i, j :| 0 <= i < j < |ps| && ps[i].n >= ps[j].n;
    assert (ps + [p])[i] == ps[i] && (ps + [p])[j] == ps[j];
  }

  lemma RunsOne(h: History, digest: Digest, id: Id, n: nat)
    requires var w := Run(h, digest);
             && Sound(w, id) && n < |WritesOf(w.pool, id)| && WritesOf(w.pool, id)[n].phase == Queued
             && (n == 0 || id in w.files.disk)
    ensures Sound(Run(Then(h, WriteRuns(id, n, Works)), digest), id)
  {
    LandWhole(h, digest, id, n);
  }

  /** The writes from k on run, all of them whole. */
  lemma {:induction false} RunsAll(h: History, digest: Digest, id: Id, k: nat) returns (h': History)
    requires var w := Run(h, digest);
             && Doomed(w, id) && k <= |WritesOf(w.pool, id)|
             && (forall n :: 0 <= n < k ==> WritesOf(w.pool, id)[n].phase != Queued)
    ensures Extends(h', h) && Doomed(Run(h', digest), id)
    ensures forall n :: 0 <= n < |WritesOf(Run(h', digest).pool, id)| ==> WritesOf(Run(h', digest).pool, id)[n].phase != Queued
    decreases |WritesOf(Run(h, digest).pool, id)| - k
  {
    var w := Run(h, digest);
    h' := h;
    if k < |WritesOf(w.pool, id)| {
      if WritesOf(w.pool, id)[k].phase == Queued {
        LandWhole(h, digest, id, k);
        RunsOne(h, digest, id, k);
        StillUnordered(LandedOf(w.files, id), Piece(k, |WritesOf(w.pool, id)[k].bytes|));
        var h1 := Then(h, WriteRuns(id, k, Works));
        h' := RunsAll(h1, digest, id, k + 1);
        assert Extends(h1, h);
        ExtendsFurther(h', h1, h);
      } else {
        h' := RunsAll(h, digest, id, k + 1);
      }
    }
  }

  lemma RepliesOne(h: History, digest: Digest, id: Id, n: nat)
    requires var w := Run(h, digest);
             Doomed(w, id) && n < |WritesOf(w.pool, id)| && WritesOf(w.pool, id)[n].phase == Ran(true)
    ensures var w, w' := Run(h, digest), Run(Then(h, WriteReplies(id, n)), digest);
            && Doomed(w', id)
            && WritesOf(w'.pool, id) == WritesOf(w.pool, id)[n := WritesOf(w.pool, id)[n].(phase := Replied(true))]
  {
  }

  lemma {:induction false} RepliesAll(h: History, digest: Digest, id: Id, k: nat) returns (h': History)
    requires var w := Run(h, digest);
             && Doomed(w, id) && k <= |WritesOf(w.pool, id)|
             && (forall n :: 0 <= n < |WritesOf(w.pool, id)| ==> WritesOf(w.pool, id)[n].phase != Queued)
             && (forall n :: 0 <= n < k ==> WritesOf(w.pool, id)[n].phase.Replied?)
    ensures Extends(h', h) && Doomed(Run(h', digest), id)
    ensures forall n :: 0 <= n < |WritesOf(Run(h', digest).pool, id)| ==> WritesOf(Run(h', digest).pool, id)[n].phase.Replied?
    decreases |WritesOf(Run(h, digest).pool, id)| - k
  {
    var w := Run(h, digest);
    h' := h;
    if k < |WritesOf(w.pool, id)| {
      assert Whole(WritesOf(w.pool, id), LandedOf(w.files, id), k);
      if WritesOf(w.pool, id)[k].phase == Ran(true) {
        RepliesOne(h, digest, id, k);
        var h1 := Then(h, WriteReplies(id, k));
        h' := RepliesAll(h1, digest, id, k + 1);
        assert Extends(h1, h);
        ExtendsFurther(h', h1, h);
      } else {
        h' := RepliesAll(h, digest, id, k + 1);
      }
    }
  }

  // ----- the end -----

  lemma {:induction false} NoneUnreplied(ws: seq<Write>)
    requires forall n :: 0 <= n < |ws| ==> ws[n].phase.Replied?
    ensures Unreplied(ws) == 0
  {
    if ws != [] {
      NoneUnreplied(ws[..|ws| - 1]);
    }
  }

  lemma {:induction false} AllGot(ws: seq<Write>, ps: seq<Piece>, m: nat)
    requires WellMade(ws, ps) && m <= |ws| && forall n :: 0 <= n < m ==> Piece(n, |ws[n].bytes|) in ps
    ensures SumGot(ps, m) == Total(ws[..m])
  {
    if m > 0 {
      AllGot(ws, ps, m - 1);
      GotIsOnePiece(ps, m - 1);
      assert ws[..m][..m - 1] == ws[..m - 1];
    }
  }

  /** With every write replied, the end is finalised and the read-back finds a file
      of the declared size. */
  lemma EndCompletes(h: History, digest: Digest, id: Id) returns (h': History, j: nat)
    requires Doomed(Run(h, digest), id) && forall x :: digest(x) != ""
    requires forall n :: 0 <= n < |WritesOf(Run(h, digest).pool, id)| ==> WritesOf(Run(h, digest).pool, id)[n].phase.Replied?
    ensures Extends(h', h) && j < |HashesOf(Run(h', digest).pool, id)| && HashesOf(Run(h', digest).pool, id)[j].Read?
    ensures !Increasing(HashesOf(Run(h', digest).pool, id)[j].pieces)
    ensures Completes(Run(h', digest), Run(Then(h', HashReplies(id, j)), digest), id)
  {
    var w := Run(h, digest);
    var ws, ps := WritesOf(w.pool, id), LandedOf(w.files, id);
    RunKeepsOk(h, digest, id);
    NoneUnreplied(ws);
    forall n | 0 <= n < |ws| ensures Piece(n, |ws[n].bytes|) in ps {
      assert Whole(ws, ps, n);
    }
    AllGot(ws, ps, |ws|);
    FileSize(ws, ps);
    assert ws[..|ws|] == ws;
    j := |HashesOf(w.pool, id)|;
    var h1 := Then(h, End(id));
    assert Run(h1, digest) == w.(pool := PostHash(w.pool, id));
    h' := Then(h1, HashRuns(id, j, true));
    assert Extends(h, h) && Extends(h1, h);
    var w' := Run(h', digest);
    assert HashesOf(w'.pool, id)[j] == Read(Some(w.files.disk[id]), ps);
    Delivers(w', digest, id, j);
  }

  lemma Delivers(w: World, digest: Digest, id: Id, j: nat)
    requires id in w.uploads && w.uploads[id].sha == "" && j < |HashesOf(w.pool, id)| && HashesOf(w.pool, id)[j].Read?
    requires var c := HashesOf(w.pool, id)[j].content;
             c.Some? && |c.value| == w.uploads[id].declared && digest(c.value) != ""
    ensures Completes(w, Step(w, HashReplies(id, j), digest), id)
  {
    assert Step(w, HashReplies(id, j), digest).replies == w.replies + [Complete(id, w.chooser.listener.Some?)];
  }

  lemma DoomedCompletes(h: History, digest: Digest, id: Id) returns (h': History, j: nat)
    requires Doomed(Run(h, digest), id) && forall x :: digest(x) != ""
    ensures Extends(h', h) && j < |HashesOf(Run(h', digest).pool, id)| && HashesOf(Run(h', digest).pool, id)[j].Read?
    ensures !Increasing(HashesOf(Run(h', digest).pool, id)[j].pieces)
    ensures Completes(Run(h', digest), Run(Then(h', HashReplies(id, j)), digest), id)
  {
    var h1 := RunsAll(h, digest, id, 0);
    var h2 := RepliesAll(h1, digest, id, 0);
    h', j := EndCompletes(h2, digest, id);
    ExtendsFurther(h2, h1, h);
    ExtendsFurther(h', h2, h);
  }

  // ----- from a crossing -----

  /** The client sends what is missing; the crossing stays. */
  lemma SendsTheRest(h: History, digest: Digest, id: Id) returns (h': History)
    requires Sound(Run(h, digest), id) && Crossable(Run(h, digest), id)
    ensures Extends(h', h) && Sound(Run(h', digest), id) && Crossable(Run(h', digest), id)
    ensures Run(h', digest).uploads[id].received == Run(h', digest).uploads[id].declared
  {
    var w := Run(h, digest);
    var up, ws, ps := w.uploads[id], WritesOf(w.pool, id), LandedOf(w.files, id);
    RunKeepsOk(h, digest, id);
    h' := h;
    if up.received < up.declared {
      var rest: Bytes := seq(up.declared - up.received, _ => 0);
      h' := Then(h, Chunk(id, up.nextSeq, Some(rest)));
      var w' := Run(h', digest);
      assert WritesOf(w'.pool, id) == ws + [Write(rest, Queued)] && LandedOf(w'.files, id) == ps;
      forall n | 0 <= n < |ws| && ws[n].phase != Queued ensures Whole(ws + [Write(rest, Queued)], ps, n) {
        assert Whole(ws, ps, n);
      }
      var m: nat, n: nat :| Crosses(ws, ps, m, n);
      assert Crosses(ws + [Write(rest, Queued)], ps, m, n);
    }
  }

  /** The crossing happens. */
  lemma Crossed(h: History, digest: Digest, id: Id, m: nat, n: nat) returns (h': History)
    requires var w := Run(h, digest);
             && Sound(w, id) && w.uploads[id].received == w.uploads[id].declared && id in w.files.disk
             && Crosses(WritesOf(w.pool, id), LandedOf(w.files, id), m, n)
    ensures Extends(h', h) && Doomed(Run(h', digest), id)
  {
    var w := Run(h, digest);
    var ps := LandedOf(w.files, id);
    var h1 := h;
    if WritesOf(w.pool, id)[n].phase == Queued {
      LandWhole(h, digest, id, n);
      RunsOne(h, digest, id, n);
      h1 := Then(h, WriteRuns(id, n, Works));
      assert LandedOf(Run(h1, digest).files, id)[|ps|].n == n;
    }
    var ps1 := LandedOf(Run(h1, digest).files, id);
    var i :| 0 <= i < |ps1| && ps1[i].n == n;
    LandWhole(h1, digest, id, m);
    RunsOne(h1, digest, id, m);
    h' := Then(h1, WriteRuns(id, m, Works));
    assert Extends(h, h) && Extends(h1, h);
    assert LandedOf(Run(h', digest).files, id)[i].n == n && LandedOf(Run(h', digest).files, id)[|ps1|].n == m;
  }

  /** From any reachable state in which two writes of a sound upload without a
      digest can cross, some run completes it with its chunks out of order. */
  lemma CrossingCompletes(h: History, digest: Digest, id: Id) returns (h': History, j: nat)
    requires Sound(Run(h, digest), id) && Crossable(Run(h, digest), id) && forall x :: digest(x) != ""
    ensures Extends(h', h) && j < |HashesOf(Run(h', digest).pool, id)| && HashesOf(Run(h', digest).pool, id)[j].Read?
    ensures !Increasing(HashesOf(Run(h', digest).pool, id)[j].pieces)
    ensures Completes(Run(h', digest), Run(Then(h', HashReplies(id, j)), digest), id)
  {
    var h1 := SendsTheRest(h, digest, id);
    var h2 := OnDisk(h1, digest, id);
    var w2 := Run(h2, digest);
    var m: nat, n: nat :| Crosses(WritesOf(w2.pool, id), LandedOf(w2.files, id), m, n);
    var h3 := Crossed(h2, digest, id, m, n);
    h', j := DoomedCompletes(h3, digest, id);
    ExtendsFurther(h2, h1, h);
    ExtendsFurther(h3, h2, h);
    ExtendsFurther(h', h3, h);
  }

  /** The first write creates the file, if it has not yet. */
  lemma OnDisk(h: History, digest: Digest, id: Id) returns (h': History)
    requires var w := Run(h, digest);
             Sound(w, id) && Crossable(w, id) && w.uploads[id].received == w.uploads[id].declared
    ensures Extends(h', h)
    ensures var w' := Run(h', digest);
            && Sound(w', id) && Crossable(w', id) && w'.uploads[id].received == w'.uploads[id].declared && id in w'.files.disk
  {
    var w := Run(h, digest);
    var ws, ps := WritesOf(w.pool, id), LandedOf(w.files, id);
    h' := h;
    if id !in w.files.disk {
      RunKeepsOk(h, digest, id);
      var m: nat, n: nat :| Crosses(ws, ps, m, n);
      LandWhole(h, digest, id, 0);
      RunsOne(h, digest, id, 0);
      h' := Then(h, WriteRuns(id, 0, Works));
      assert Extends(h, h);
      assert Crosses(WritesOf(Run(h', digest).pool, id), LandedOf(Run(h', digest).files, id), m, n);
    }
  }
}
