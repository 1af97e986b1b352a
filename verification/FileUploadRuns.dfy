/** Runs that show where the promises of the upload receiver stop. */
module FileUploadRuns {
  import opened Options
  import opened FileUpload
  import opened FileUploadSafety
  import opened FileUploadTheorems

  // ----- the session quota is checked against finished uploads only -----

  /** An upload just accepted, with no digest and nothing posted for it yet. */
  predicate JustStarted(w: World, id: Id, declared: nat) {
    && id in w.uploads && id in w.pool.writes && w.pool.writes[id] == [] && id !in w.pool.hashes
    && w.uploads[id] == Upload("", "", declared, 0, 0, 0, false)
  }

  predicate Unseen(w: World, id: Id) {
    id !in w.uploads && id !in w.pool.writes && id !in w.pool.hashes
  }

  /** The whole file in one chunk, the end, and every pool task in between. */
  function Finish(h: History, id: Id, bytes: Bytes): History {
    Then(Then(Then(Sent(h, id, bytes), End(id)), HashRuns(id, 0, true)), HashReplies(id, 0))
  }

  function Sent(h: History, id: Id, bytes: Bytes): History {
    Then(Then(Then(h, Chunk(id, 0, Some(bytes))), WriteRuns(id, 0, Works)), WriteReplies(id, 0))
  }

  lemma ChunkPosts(w: World, digest: Digest, id: Id, bytes: Bytes)
    requires JustStarted(w, id, |bytes|)
    ensures Step(w, Chunk(id, 0, Some(bytes)), digest)
            == w.(uploads := w.uploads[id := Upload("", "", |bytes|, |bytes|, 1, 1, false)],
                  pool := w.pool.(writes := w.pool.writes[id := [Write(bytes, Queued)]]))
  {
    assert [] + [Write(bytes, Queued)] == [Write(bytes, Queued)];
  }

  lemma OnlyWriteRuns(w: World, digest: Digest, id: Id, bytes: Bytes)
    requires id in w.pool.writes && w.pool.writes[id] == [Write(bytes, Queued)]
    ensures var w' := Step(w, WriteRuns(id, 0, Works), digest);
            && w' == w.(files := w'.files, pool := w.pool.(writes := w.pool.writes[id := [Write(bytes, Ran(true))]]))
            && id in w'.files.disk && w'.files.disk[id] == bytes
  {
    assert [Write(bytes, Queued)][0 := Write(bytes, Ran(true))] == [Write(bytes, Ran(true))];
    assert [] + bytes[..|bytes|] == bytes;
  }

  lemma OnlyWriteReplies(w: World, digest: Digest, id: Id, bytes: Bytes)
    requires id in w.pool.writes && w.pool.writes[id] == [Write(bytes, Ran(true))]
    requires id in w.uploads && w.uploads[id] == Upload("", "", |bytes|, |bytes|, 1, 1, false)
    ensures var w' := Step(w, WriteReplies(id, 0), digest);
            w' == w.(uploads := w.uploads[id := Upload("", "", |bytes|, |bytes|, 1, 0, false)], replies := w'.replies,
                     pool := w.pool.(writes := w.pool.writes[id := [Write(bytes, Replied(true))]]))
  {
    assert [Write(bytes, Ran(true))][0 := Write(bytes, Replied(true))] == [Write(bytes, Replied(true))];
  }

  lemma SentLands(h: History, digest: Digest, id: Id, bytes: Bytes)
    requires JustStarted(Run(h, digest), id, |bytes|)
    ensures var w, w' := Run(h, digest), Run(Sent(h, id, bytes), digest);
            && w'.uploads == w.uploads[id := Upload("", "", |bytes|, |bytes|, 1, 0, false)] && w'.sessionBytes == w.sessionBytes
            && w'.pool == w.pool.(writes := w.pool.writes[id := [Write(bytes, Replied(true))]])
            && id in w'.files.disk && w'.files.disk[id] == bytes
  {
    var h1 := Then(h, Chunk(id, 0, Some(bytes)));
    var h2 := Then(h1, WriteRuns(id, 0, Works));
    ChunkPosts(Run(h, digest), digest, id, bytes);
    OnlyWriteRuns(Run(h1, digest), digest, id, bytes);
    OnlyWriteReplies(Run(h2, digest), digest, id, bytes);
    assert Sent(h, id, bytes) == Then(h2, WriteReplies(id, 0));
  }

  lemma EndPosts(w: World, digest: Digest, id: Id)
    requires id in w.uploads && w.uploads[id].inFlight == 0 && id !in w.pool.hashes
    ensures Step(w, End(id), digest) == w.(pool := w.pool.(hashes := w.pool.hashes[id := [Posted]]))
  {
    assert [] + [Posted] == [Posted];
  }

  lemma OnlyHash(w: World, digest: Digest, id: Id, bytes: Bytes)
    requires id in w.uploads && w.uploads[id] == Upload("", "", |bytes|, |bytes|, 1, 0, false) && digest(bytes) != ""
    requires id in w.files.disk && w.files.disk[id] == bytes && id in w.pool.hashes && w.pool.hashes[id] == [Posted]
    ensures var w' := Step(Step(w, HashRuns(id, 0, true), digest), HashReplies(id, 0), digest);
            && w'.uploads == w.uploads - {id} && w'.sessionBytes == w.sessionBytes + |bytes|
            && w'.pool.writes == w.pool.writes && w'.pool.hashes.Keys == w.pool.hashes.Keys
  {
    var w1 := Step(w, HashRuns(id, 0, true), digest);
    assert w1.pool.hashes[id][0] == Read(Some(bytes), LandedOf(w.files, id));
  }

  lemma FinishCompletes(h: History, digest: Digest, id: Id, bytes: Bytes)
    requires JustStarted(Run(h, digest), id, |bytes|) && digest(bytes) != ""
    ensures var w, w' := Run(h, digest), Run(Finish(h, id, bytes), digest);
            && w'.uploads == w.uploads - {id} && w'.sessionBytes == w.sessionBytes + |bytes|
            && w'.pool.writes == w.pool.writes[id := [Write(bytes, Replied(true))]]
            && w'.pool.hashes.Keys == w.pool.hashes.Keys + {id}
  {
    SentLands(h, digest, id, bytes);
    var h1 := Sent(h, id, bytes);
    var h2 := Then(h1, End(id));
    var h3 := Then(h2, HashRuns(id, 0, true));
    EndPosts(Run(h1, digest), digest, id);
    OnlyHash(Run(h2, digest), digest, id, bytes);
    assert Run(h3, digest) == Step(Run(h2, digest), HashRuns(id, 0, true), digest);
    assert Finish(h, id, bytes) == Then(h3, HashReplies(id, 0));
  }

  /** Uploads started one after the other, none of them finished. */
  function StartAll(h: History, xs: seq<(Id, Bytes)>): History {
    if xs == [] then h
    else Then(StartAll(h, xs[..|xs| - 1]), StartOf(xs[|xs| - 1]))
  }

  function StartOf(x: (Id, Bytes)): Event { Start(x.0, "", "", |x.1|) }

  function FinishAll(h: History, xs: seq<(Id, Bytes)>): History {
    if xs == [] then h
    else Finish(FinishAll(h, xs[..|xs| - 1]), xs[|xs| - 1].0, xs[|xs| - 1].1)
  }

  function Sum(xs: seq<(Id, Bytes)>): nat {
    if xs == [] then 0 else Sum(xs[..|xs| - 1]) + |xs[|xs| - 1].1|
  }

  /** Ids never seen, and files that each fit by themselves. */
  ghost predicate Fits(w: World, digest: Digest, xs: seq<(Id, Bytes)>) {
    && (forall i :: 0 <= i < |xs| ==>
          && Unseen(w, xs[i].0) && 0 < |xs[i].1| <= MAX_UPLOAD_BYTES
          && w.sessionBytes + |xs[i].1| <= MAX_SESSION_BYTES && digest(xs[i].1) != "")
    && (forall i, j :: 0 <= i < j < |xs| ==> xs[i].0 != xs[j].0)
  }

  ghost predicate AllStarted(w: World, xs: seq<(Id, Bytes)>) {
    forall i :: 0 <= i < |xs| ==> JustStarted(w, xs[i].0, |xs[i].1|)
  }

  /** Stored and promised together. */
  ghost function Ledger(w: World): nat { w.sessionBytes + Reserved(w.uploads) }

  lemma OneStarts(w: World, digest: Digest, x: (Id, Bytes))
    requires Unseen(w, x.0) && 0 < |x.1| <= MAX_UPLOAD_BYTES && w.sessionBytes + |x.1| <= MAX_SESSION_BYTES
    ensures var w', up := Step(w, StartOf(x), digest), Upload("", "", |x.1|, 0, 0, 0, false);
            && w' == w.(uploads := w.uploads[x.0 := up], pool := w.pool.(writes := w.pool.writes[x.0 := []]))
            && JustStarted(w', x.0, |x.1|) && Ledger(w') == Ledger(w) + |x.1|
  {
    ReservedAdd(w.uploads, x.0, Upload("", "", |x.1|, 0, 0, 0, false));
    assert w.uploads - {x.0} == w.uploads;
  }

  /** One more start leaves the others as they are. */
  lemma StartsBeside(w: World, digest: Digest, x: (Id, Bytes), xs: seq<(Id, Bytes)>)
    requires Unseen(w, x.0) && 0 < |x.1| <= MAX_UPLOAD_BYTES && w.sessionBytes + |x.1| <= MAX_SESSION_BYTES
    requires AllStarted(w, xs) && forall i :: 0 <= i < |xs| ==> xs[i].0 != x.0
    ensures AllStarted(Step(w, StartOf(x), digest), xs + [x])
    ensures forall id :: id != x.0 && Unseen(w, id) ==> Unseen(Step(w, StartOf(x), digest), id)
  {
    OneStarts(w, digest, x);
  }

  /** All are accepted: nothing is credited before the first finishes. */
  lemma {:induction false} AllStart(h: History, digest: Digest, xs: seq<(Id, Bytes)>, rest: seq<(Id, Bytes)>)
    requires Fits(Run(h, digest), digest, xs + rest)
    ensures var w, w' := Run(h, digest), Run(StartAll(h, xs), digest);
            && AllStarted(w', xs) && w'.sessionBytes == w.sessionBytes && Ledger(w') == Ledger(w) + Sum(xs)
            && (forall i :: 0 <= i < |rest| ==> Unseen(w', rest[i].0))
    decreases |xs|
  {
    if xs == [] {
      assert xs + rest == rest;
    } else {
      var init, x := xs[..|xs| - 1], xs[|xs| - 1];
      assert init + ([x] + rest) == xs + rest && init + [x] == xs;
      AllStart(h, digest, init, [x] + rest);
      var w1 := Run(StartAll(h, init), digest);
      assert ([x] + rest)[0] == x && (xs + rest)[|xs| - 1] == x;
      assert forall i :: 0 <= i < |init| ==> (xs + rest)[i] == init[i];
      OneStarts(w1, digest, x);
      StartsBeside(w1, digest, x, init);
      forall i | 0 <= i < |rest|
        ensures Unseen(Step(w1, StartOf(x), digest), rest[i].0)
      {
        assert ([x] + rest)[i + 1] == rest[i] && (xs + rest)[|xs| + i] == rest[i];
      }
    }
  }

  lemma OneFinishes(h: History, digest: Digest, x: (Id, Bytes))
    requires JustStarted(Run(h, digest), x.0, |x.1|) && digest(x.1) != ""
    ensures var w, w' := Run(h, digest), Run(Finish(h, x.0, x.1), digest);
            && w'.sessionBytes == w.sessionBytes + |x.1| && Ledger(w') == Ledger(w)
            && (forall id, n :: id != x.0 && JustStarted(w, id, n) ==> JustStarted(w', id, n))
  {
    FinishCompletes(h, digest, x.0, x.1);
    ReservedRemove(Run(h, digest).uploads, x.0);
  }

  /** And all can complete, each credited with its size. */
  lemma {:induction false} AllFinish(h: History, digest: Digest, xs: seq<(Id, Bytes)>, rest: seq<(Id, Bytes)>)
    requires AllStarted(Run(h, digest), xs + rest)
    requires forall i, j :: 0 <= i < j < |xs + rest| ==> (xs + rest)[i].0 != (xs + rest)[j].0
    requires forall i :: 0 <= i < |xs| ==> digest(xs[i].1) != ""
    ensures var w, w' := Run(h, digest), Run(FinishAll(h, xs), digest);
            && AllStarted(w', rest) && w'.sessionBytes == w.sessionBytes + Sum(xs) && Ledger(w') == Ledger(w)
    decreases |xs|
  {
    if xs == [] {
      assert xs + rest == rest;
    } else {
      var init, x := xs[..|xs| - 1], xs[|xs| - 1];
      assert init + ([x] + rest) == xs + rest;
      AllFinish(h, digest, init, [x] + rest);
      var w1 := Run(FinishAll(h, init), digest);
      assert JustStarted(w1, ([x] + rest)[0].0, |([x] + rest)[0].1|);
      OneFinishes(FinishAll(h, init), digest, x);
      forall i | 0 <= i < |rest|
        ensures JustStarted(Run(FinishAll(h, xs), digest), rest[i].0, |rest[i].1|)
      {
        assert ([x] + rest)[i + 1] == rest[i] && (xs + rest)[|xs| + i] == rest[i] && (xs + rest)[|xs| - 1] == x;
        assert JustStarted(w1, rest[i].0, |rest[i].1|);
      }
    }
  }

  function Batch(h: History, xs: seq<(Id, Bytes)>): History { FinishAll(StartAll(h, xs), xs) }

  /** From any reachable state, any number of uploads that each fit by themselves
      are all accepted, can all complete, and are all credited. */
  lemma BatchIsCredited(h: History, digest: Digest, xs: seq<(Id, Bytes)>)
    requires Fits(Run(h, digest), digest, xs)
    ensures var w, w' := Run(h, digest), Run(Batch(h, xs), digest);
            w'.sessionBytes == w.sessionBytes + Sum(xs) && Ledger(w') == Ledger(w) + Sum(xs)
  {
    assert xs + [] == xs;
    AllStart(h, digest, xs, []);
    AllFinish(StartAll(h, xs), digest, xs, []);
  }

  /** Each start of the batch leaves room for every upload then in progress. */
  ghost predicate RoomyStarts(h: History, digest: Digest, xs: seq<(Id, Bytes)>) {
    xs == [] || (RoomyStarts(h, digest, xs[..|xs| - 1])
                 && Roomy(Run(StartAll(h, xs[..|xs| - 1]), digest), StartOf(xs[|xs| - 1])))
  }

  lemma {:induction false} RoomyIsRoom(h: History, digest: Digest, xs: seq<(Id, Bytes)>)
    requires Fits(Run(h, digest), digest, xs) && Ledger(Run(h, digest)) <= MAX_SESSION_BYTES
    ensures RoomyStarts(h, digest, xs) <==> Ledger(Run(h, digest)) + Sum(xs) <= MAX_SESSION_BYTES
  {
    if xs != [] {
      var init := xs[..|xs| - 1];
      RoomyIsRoom(h, digest, init);
      assert init + [] == init && Fits(Run(h, digest), digest, init);
      AllStart(h, digest, init, []);
    }
  }

  /** So the quota survives a batch, whatever else is in progress, if and only if
      every start of it left room. */
  lemma BatchKeepsQuotaIff(h: History, digest: Digest, xs: seq<(Id, Bytes)>)
    requires Fits(Run(h, digest), digest, xs) && Ledger(Run(h, digest)) <= MAX_SESSION_BYTES
    ensures Ledger(Run(Batch(h, xs), digest)) <= MAX_SESSION_BYTES <==> RoomyStarts(h, digest, xs)
    ensures Run(h, digest).uploads == map[] ==>
              (Run(Batch(h, xs), digest).sessionBytes <= MAX_SESSION_BYTES <==> RoomyStarts(h, digest, xs))
  {
    BatchIsCredited(h, digest, xs);
    RoomyIsRoom(h, digest, xs);
  }

  /** Six files of 100 MiB started together put 600 MiB in a 512 MiB session. */
  lemma QuotaOvershoot(digest: Digest)
    requires forall x :: digest(x) != ""
    ensures exists h :: Run(h, digest).sessionBytes == 6 * MAX_UPLOAD_BYTES
    ensures 6 * MAX_UPLOAD_BYTES > MAX_SESSION_BYTES
  {
    var x: Bytes := seq(MAX_UPLOAD_BYTES, _ => 0);
    var ids := "abcdef";
    var xs := seq(6, i requires 0 <= i < 6 => (Id([ids[i]]), x));
    assert Run(Boot, digest) == EMPTY;
    assert forall i, j :: 0 <= i < j < 6 ==> ids[i] != ids[j] && xs[i].0.text[0] == ids[i];
    BatchIsCredited(Boot, digest, xs);
    SumOfEqual(xs, MAX_UPLOAD_BYTES);
    assert Run(Batch(Boot, xs), digest).sessionBytes == 6 * MAX_UPLOAD_BYTES;
  }

  lemma {:induction false} SumOfEqual(xs: seq<(Id, Bytes)>, size: nat)
    requires forall i :: 0 <= i < |xs| ==> |xs[i].1| == size
    ensures Sum(xs) == |xs| * size
  {
    if xs != [] {
      SumOfEqual(xs[..|xs| - 1], size);
    }
  }

  // ----- a wipe of the session before removes the file of this one -----

  /** The wipe posted by a reset runs after the next session's file was read back:
      the upload completes, and the file is gone. */
  lemma CompleteWithoutFile(digest: Digest, bytes: Bytes)
    requires 0 < |bytes| <= MAX_UPLOAD_BYTES && digest(bytes) != ""
    ensures var start := Then(Then(Boot, Reset), Start(U, "", "", |bytes|));
            var h := Then(Then(Then(Sent(start, U, bytes), End(U)), HashRuns(U, 0, true)), WipeRuns);
            && Completes(Run(h, digest), Run(Then(h, HashReplies(U, 0)), digest), U)
            && U !in Run(Then(h, HashReplies(U, 0)), digest).files.disk
  {
    var h0 := Then(Boot, Reset);
    assert Run(Boot, digest) == EMPTY;
    assert Run(h0, digest).pool == Pool(map[], map[], {}, 1) && Run(h0, digest).uploads == map[] && Run(h0, digest).sessionBytes == 0;
    var start := Then(h0, StartOf((U, bytes)));
    OneStarts(Run(h0, digest), digest, (U, bytes));
    var h1 := Sent(start, U, bytes);
    SentLands(start, digest, U, bytes);
    var h2 := Then(h1, End(U));
    EndPosts(Run(h1, digest), digest, U);
    WipedAfterRead(h2, digest, U, bytes);
  }

  /** Read back, then wiped. */
  lemma ReadThenWiped(w: World, digest: Digest, id: Id, bytes: Bytes)
    requires id in w.files.disk && w.files.disk[id] == bytes && id in w.pool.hashes && w.pool.hashes[id] == [Posted] && w.pool.wipes > 0
    ensures var w' := Step(Step(w, HashRuns(id, 0, true), digest), WipeRuns, digest);
            && w'.uploads == w.uploads && w'.files == Files(map[], map[])
            && HashesOf(w'.pool, id) == [Read(Some(bytes), LandedOf(w.files, id))]
  {
    OnlyHashRuns(w, digest, id, bytes);
  }

  lemma WipedAfterRead(h: History, digest: Digest, id: Id, bytes: Bytes)
    requires var w := Run(h, digest);
             && id in w.uploads && w.uploads[id] == Upload("", "", |bytes|, |bytes|, 1, 0, false) && digest(bytes) != ""
             && id in w.files.disk && w.files.disk[id] == bytes && id in w.pool.hashes && w.pool.hashes[id] == [Posted] && w.pool.wipes > 0
    ensures var h' := Then(Then(h, HashRuns(id, 0, true)), WipeRuns);
            && Completes(Run(h', digest), Run(Then(h', HashReplies(id, 0)), digest), id)
            && id !in Run(Then(h', HashReplies(id, 0)), digest).files.disk
  {
    var w := Run(h, digest);
    var h1 := Then(h, HashRuns(id, 0, true));
    var h2 := Then(h1, WipeRuns);
    ReadThenWiped(w, digest, id, bytes);
    assert Run(h2, digest) == Step(Step(w, HashRuns(id, 0, true), digest), WipeRuns, digest);
    CompletesAnyway(Run(h2, digest), digest, id, bytes);
    assert Run(Then(h2, HashReplies(id, 0)), digest) == Step(Run(h2, digest), HashReplies(id, 0), digest);
  }

  lemma OnlyHashRuns(w: World, digest: Digest, id: Id, bytes: Bytes)
    requires id in w.files.disk && w.files.disk[id] == bytes && id in w.pool.hashes && w.pool.hashes[id] == [Posted]
    ensures Step(w, HashRuns(id, 0, true), digest)
            == w.(pool := w.pool.(hashes := w.pool.hashes[id := [Read(Some(bytes), LandedOf(w.files, id))]]))
  {
    var job := Read(Some(bytes), LandedOf(w.files, id));
    assert [Posted][0 := job] == [job];
  }

  lemma CompletesAnyway(w: World, digest: Digest, id: Id, bytes: Bytes)
    requires id in w.uploads && w.uploads[id].sha == "" && w.uploads[id].declared == |bytes| && digest(bytes) != ""
    requires |HashesOf(w.pool, id)| > 0 && HashesOf(w.pool, id)[0].Read? && HashesOf(w.pool, id)[0].content == Some(bytes)
    ensures Completes(w, Step(w, HashReplies(id, 0), digest), id) && Step(w, HashReplies(id, 0), digest).files == w.files
  {
    assert Step(w, HashReplies(id, 0), digest).replies == w.replies + [Complete(id, w.chooser.listener.Some?)];
  }

  // ----- nothing orders the writes of a client that does not wait -----

  const U := Id("u")

  function Three(a: Bytes, b: Bytes, c: Bytes, p0: Phase, p1: Phase, p2: Phase): seq<Write> {
    [Write(a, p0), Write(b, p1), Write(c, p2)]
  }

  /** Three chunks posted back to back; the pool runs the third before the
      second. */
  function Posts(a: Bytes, b: Bytes, c: Bytes): History {
    Then(Then(Then(Then(Boot, Start(U, "", "", |a| + |b| + |c|)), Chunk(U, 0, Some(a))), Chunk(U, 1, Some(b))), Chunk(U, 2, Some(c)))
  }

  function Writes(h: History): History {
    Then(Then(Then(h, WriteRuns(U, 0, Works)), WriteRuns(U, 2, Works)), WriteRuns(U, 1, Works))
  }

  function Replies(h: History): History {
    Then(Then(Then(h, WriteReplies(U, 0)), WriteReplies(U, 1)), WriteReplies(U, 2))
  }

  function ReadsBack(h: History): History {
    Then(Then(h, End(U)), HashRuns(U, 0, true))
  }

  /** What the run knows about U. */
  ghost predicate Knows(w: World, inFlight: nat, ws: seq<Write>) {
    && U in w.uploads && U in w.pool.writes && U !in w.pool.hashes && w.pool.writes[U] == ws
    && w.uploads[U] == Upload("", "", Total(ws), Total(ws), 3, inFlight, false)
  }

  lemma OneMore(w: World, digest: Digest, declared: nat, ws: seq<Write>, bytes: Bytes)
    requires U in w.uploads && U in w.pool.writes && U !in w.pool.hashes && w.pool.writes[U] == ws
    requires w.uploads[U] == Upload("", "", declared, Total(ws), |ws|, |ws|, false) && Total(ws) + |bytes| <= declared
    ensures var w', ws' := Step(w, Chunk(U, |ws|, Some(bytes)), digest), ws + [Write(bytes, Queued)];
            && U in w'.uploads && U in w'.pool.writes && U !in w'.pool.hashes && w'.pool.writes[U] == ws'
            && w'.uploads[U] == Upload("", "", declared, Total(ws'), |ws'|, |ws'|, false)
            && Total(ws') == Total(ws) + |bytes|
  {
    TotalSnoc(ws, Write(bytes, Queued));
  }

  lemma AllPosted(digest: Digest, a: Bytes, b: Bytes, c: Bytes)
    requires 0 < |a| + |b| + |c| <= MAX_UPLOAD_BYTES
    ensures Knows(Run(Posts(a, b, c), digest), 3, Three(a, b, c, Queued, Queued, Queued))
  {
    var n := |a| + |b| + |c|;
    var h0 := Then(Boot, Start(U, "", "", n));
    var h1 := Then(h0, Chunk(U, 0, Some(a)));
    var h2 := Then(h1, Chunk(U, 1, Some(b)));
    var w1, w2 := [Write(a, Queued)], [Write(a, Queued), Write(b, Queued)];
    assert Run(h0, digest) == Step(Run(Boot, digest), Start(U, "", "", n), digest) && Run(Boot, digest) == EMPTY;
    OneMore(Run(h0, digest), digest, n, [], a);
    assert [] + [Write(a, Queued)] == w1;
    OneMore(Run(h1, digest), digest, n, w1, b);
    assert w1 + [Write(b, Queued)] == w2;
    OneMore(Run(h2, digest), digest, n, w2, c);
    assert w2 + [Write(c, Queued)] == Three(a, b, c, Queued, Queued, Queued);
    assert Posts(a, b, c) == Then(h2, Chunk(U, 2, Some(c)));
  }

  lemma Lands(w: World, digest: Digest, ws: seq<Write>, n: nat, on: Bytes)
    requires Knows(w, 3, ws) && n < |ws| && ws[n].phase == Queued
    requires if n == 0 then on == [] else U in w.files.disk && w.files.disk[U] == on
    ensures var w', ws' := Step(w, WriteRuns(U, n, Works), digest), ws[n := ws[n].(phase := Ran(true))];
            Knows(w', 3, ws') && U in w'.files.disk && w'.files.disk[U] == on + ws[n].bytes
  {
    PhaseChange(ws, n, Ran(true));
    assert ws[n].bytes[..|ws[n].bytes|] == ws[n].bytes;
  }

  lemma AllWritten(h: History, digest: Digest, a: Bytes, b: Bytes, c: Bytes)
    requires Knows(Run(h, digest), 3, Three(a, b, c, Queued, Queued, Queued))
    ensures var w := Run(Writes(h), digest);
            Knows(w, 3, Three(a, b, c, Ran(true), Ran(true), Ran(true))) && U in w.files.disk && w.files.disk[U] == a + c + b
  {
    var h1 := Then(h, WriteRuns(U, 0, Works));
    var h2 := Then(h1, WriteRuns(U, 2, Works));
    Lands(Run(h, digest), digest, Three(a, b, c, Queued, Queued, Queued), 0, []);
    assert [] + a == a;
    assert Three(a, b, c, Queued, Queued, Queued)[0 := Write(a, Ran(true))] == Three(a, b, c, Ran(true), Queued, Queued);
    Lands(Run(h1, digest), digest, Three(a, b, c, Ran(true), Queued, Queued), 2, a);
    assert Three(a, b, c, Ran(true), Queued, Queued)[2 := Write(c, Ran(true))] == Three(a, b, c, Ran(true), Queued, Ran(true));
    Lands(Run(h2, digest), digest, Three(a, b, c, Ran(true), Queued, Ran(true)), 1, a + c);
    assert Three(a, b, c, Ran(true), Queued, Ran(true))[1 := Write(b, Ran(true))] == Three(a, b, c, Ran(true), Ran(true), Ran(true));
    assert Writes(h) == Then(h2, WriteRuns(U, 1, Works));
  }

  lemma RepliesTo(w: World, digest: Digest, ws: seq<Write>, n: nat, k: nat)
    requires Knows(w, k + 1, ws) && n < |ws| && ws[n].phase == Ran(true)
    ensures var w', ws' := Step(w, WriteReplies(U, n), digest), ws[n := ws[n].(phase := Replied(true))];
            Knows(w', k, ws') && w'.files == w.files
  {
    PhaseChange(ws, n, Replied(true));
  }

  lemma AllReplied3(h: History, digest: Digest, a: Bytes, b: Bytes, c: Bytes)
    requires Knows(Run(h, digest), 3, Three(a, b, c, Ran(true), Ran(true), Ran(true)))
    ensures Knows(Run(Replies(h), digest), 0, Three(a, b, c, Replied(true), Replied(true), Replied(true)))
    ensures Run(Replies(h), digest).files == Run(h, digest).files
  {
    var h1 := Then(h, WriteReplies(U, 0));
    var h2 := Then(h1, WriteReplies(U, 1));
    var r, d := Ran(true), Replied(true);
    RepliesTo(Run(h, digest), digest, Three(a, b, c, r, r, r), 0, 2);
    assert Three(a, b, c, r, r, r)[0 := Write(a, d)] == Three(a, b, c, d, r, r);
    RepliesTo(Run(h1, digest), digest, Three(a, b, c, d, r, r), 1, 1);
    assert Three(a, b, c, d, r, r)[1 := Write(b, d)] == Three(a, b, c, d, d, r);
    RepliesTo(Run(h2, digest), digest, Three(a, b, c, d, d, r), 2, 0);
    assert Three(a, b, c, d, d, r)[2 := Write(c, d)] == Three(a, b, c, d, d, d);
    assert Replies(h) == Then(h2, WriteReplies(U, 2));
  }

  /** Without a declared digest, three chunks sent back to back can complete
      with the last two swapped. */
  lemma ShuffledUploadCompletes(digest: Digest, a: Bytes, b: Bytes, c: Bytes)
    requires 0 < |a| + |b| + |c| <= MAX_UPLOAD_BYTES && digest(a + c + b) != ""
    ensures var h := ReadsBack(Replies(Writes(Posts(a, b, c))));
            && Completes(Run(h, digest), Run(Then(h, HashReplies(U, 0)), digest), U)
            && |HashesOf(Run(h, digest).pool, U)| == 1
            && HashesOf(Run(h, digest).pool, U)[0].Read?
            && HashesOf(Run(h, digest).pool, U)[0].content == Some(a + c + b)
  {
    AllPosted(digest, a, b, c);
    AllWritten(Posts(a, b, c), digest, a, b, c);
    AllReplied3(Writes(Posts(a, b, c)), digest, a, b, c);
    var h3 := Replies(Writes(Posts(a, b, c)));
    EndPosts(Run(h3, digest), digest, U);
    var d := Replied(true);
    TotalOfThree(a, b, c, d);
    var h4 := Then(h3, End(U));
    var w5 := Step(Run(h4, digest), HashRuns(U, 0, true), digest);
    assert ReadsBack(h3) == Then(h4, HashRuns(U, 0, true));
    assert HashesOf(w5.pool, U)[0].content == Some(a + c + b);
    assert Step(w5, HashReplies(U, 0), digest).replies == w5.replies + [Complete(U, w5.chooser.listener.Some?)];
  }

  lemma TotalOfThree(a: Bytes, b: Bytes, c: Bytes, d: Phase)
    ensures Total(Three(a, b, c, d, d, d)) == |a| + |b| + |c|
  {
    TotalSnoc([], Write(a, d));
    TotalSnoc([Write(a, d)], Write(b, d));
    TotalSnoc([Write(a, d), Write(b, d)], Write(c, d));
    assert [] + [Write(a, d)] == [Write(a, d)];
    assert [Write(a, d)] + [Write(b, d)] == [Write(a, d), Write(b, d)];
    assert [Write(a, d), Write(b, d)] + [Write(c, d)] == Three(a, b, c, d, d, d);
  }

  // ----- an id used twice -----

  /** A second start under a live id forgets the writes of the first: the reply to
      the first one's write, which has run, lets the end through while the second
      one's is still in the pool. */
  lemma ReusedIdMiscounts(h: History, digest: Digest, id: Id, a: Bytes, b: Bytes)
    requires JustStarted(Run(h, digest), id, |a|) && 0 < |b| <= MAX_UPLOAD_BYTES && Run(h, digest).sessionBytes + |b| <= MAX_SESSION_BYTES
    ensures var w := Run(Then(Then(h, Chunk(id, 0, Some(a))), WriteRuns(id, 0, Works)), digest);
            && WritesOf(w.pool, id) == [Write(a, Ran(true))]
            && var w2 := HandleChunk(HandleStart(w, id, "", "", |b|), id, 0, Some(b));
               && WritesOf(w2.pool, id) == [Write(a, Ran(true)), Write(b, Queued)]
               && var w3 := OnChunkWritten(w2.(pool := SetWrite(w2.pool, id, 0, Replied(true))), id, true);
                  && WritesOf(w3.pool, id) == [Write(a, Replied(true)), Write(b, Queued)]
                  && HandleEnd(w3, id).pool == PostHash(w3.pool, id)
  {
    var h1 := Then(h, Chunk(id, 0, Some(a)));
    ChunkPosts(Run(h, digest), digest, id, a);
    OnlyWriteRuns(Run(h1, digest), digest, id, a);
    var w := Run(Then(h1, WriteRuns(id, 0, Works)), digest);
    var w2 := HandleChunk(HandleStart(w, id, "", "", |b|), id, 0, Some(b));
    assert WritesOf(w2.pool, id) == [Write(a, Ran(true)), Write(b, Queued)];
  }
}
