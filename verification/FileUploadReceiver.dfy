/** The upload receiver as it runs on the UI sequence: an object whose handlers
    update its fields, each proved against its specification. */
module FileUploadReceiver {
  import opened Options
  import opened FileUpload
  import opened FileUploadSafety
  import opened FileUploadTheorems
  import FileUploadHistory

  // ----- paths -----

  predicate SafeChar(c: char) {
    'a' <= c <= 'z' || 'A' <= c <= 'Z' || '0' <= c <= '9' || c == '.' || c == '_' || c == '-'
  }

  /** One path component: never empty, never "." or "..", never a separator. */
  predicate Safe(s: string) {
    s != "" && s != "." && s != ".." && |s| <= 128 && forall i :: 0 <= i < |s| ==> SafeChar(s[i])
  }

  /** Safe text that is short enough passes unchanged; everything else still
      comes out safe. */
  method SafeComponent(raw: string) returns (out: string)
    ensures Safe(out)
    ensures Safe(raw) ==> out == raw
    ensures out == "upload" || (|out| <= |raw| && forall i :: 0 <= i < |out| ==> out[i] == raw[i] || (!SafeChar(raw[i]) && out[i] == '_'))
  {
    out := "";
    for n := 0 to |raw|
      invariant |out| == n
      invariant forall i :: 0 <= i < n ==> SafeChar(out[i]) && (out[i] == raw[i] || (!SafeChar(raw[i]) && out[i] == '_'))
    {
      out := out + [if SafeChar(raw[n]) then raw[n] else '_'];
    }
    if out == "" || out == "." || out == ".." {
      out := "upload";
    }
    if |out| > 128 {
      out := out[..128];
    }
  }

  function PathOf(id: string, name: string): string { id + "__" + name }

  /** Two uploads share a path exactly when the longer id is the shorter one
      carried on by what the names make up for. */
  lemma PathsMeetExactly(id1: string, id2: string, name1: string, name2: string)
    requires |id1| <= |id2|
    ensures PathOf(id1, name1) == PathOf(id2, name2) <==> id1 <= id2 && "__" + name1 == id2[|id1|..] + "__" + name2
  {
    var p1, p2 := PathOf(id1, name1), PathOf(id2, name2);
    assert p1[..|id1|] == id1 && p1[|id1|..] == "__" + name1;
    assert p2[..|id1|] == id2[..|id1|] && p2[|id1|..] == id2[|id1|..] + "__" + name2;
    assert p1 == p1[..|id1|] + p1[|id1|..] && p2 == p2[..|id1|] + p2[|id1|..];
  }

  /** So ids without an underscore, such as UUIDs, give every upload its own path. */
  lemma PathsAreDistinct(id1: string, id2: string, name1: string, name2: string)
    requires forall i :: 0 <= i < |id1| ==> id1[i] != '_'
    requires forall i :: 0 <= i < |id2| ==> id2[i] != '_'
    requires PathOf(id1, name1) == PathOf(id2, name2)
    ensures id1 == id2 && name1 == name2
  {
    var p := PathOf(id1, name1);
    assert p[|id1|] == '_' && p[|id2|] == '_';
    assert p[..|id1|] == id1 && p[..|id2|] == id2;
    assert p[|id1| + 2..] == name1 && p[|id2| + 2..] == name2;
  }

  /** With an underscore in an id two uploads can share a path. */
  lemma PathsCollide()
    ensures exists id1, id2, name1, name2 :: id1 != id2 && PathOf(id1, name1) == PathOf(id2, name2)
  {
    assert PathOf("a__b", "c") == PathOf("a", "b__c") == "a__b__c";
  }

  // ----- the receiver -----

  class CbFileUploadReceiver {
    var uploads: map<Id, Upload>
    var sessionBytes: nat
    var pendingListener: Option<nat>
    var chooserDeadline: bool
    // Listeners are told apart by the order in which they are parked.
    var parked: nat
    // What has gone out so far: choosers resolved, envelopes, pool tasks.
    ghost var resolved: seq<(nat, Outcome)>
    ghost var replies: seq<Reply>
    ghost var pool: Pool
    ghost var files: Files
    // The digest of the read-back task, and the run that led here.
    ghost const digest: Digest
    ghost var trace: History

    /** The receiver, the pool and the disk are at the end of a run of the machine
        in FileUpload. */
    ghost predicate Valid()
      reads this
    {
      View() == Run(trace, digest)
    }

    ghost function View(): World
      reads this
    {
      World(uploads, sessionBytes, Chooser(pendingListener, chooserDeadline, parked, resolved), pool, files, replies)
    }

    constructor (ghost digest: Digest)
      ensures Valid() && View() == EMPTY && this.digest == digest
    {
      this.digest := digest;
      trace := Boot;
      uploads, sessionBytes, pendingListener, chooserDeadline := map[], 0, None, false;
      parked, resolved, replies := 0, [], [];
      pool, files := Pool(map[], map[], {}, 0), Files(map[], map[]);
    }

    method BeginChooser()
      modifies this
      ensures View() == old(View()).(chooser := FileUpload.BeginChooser(old(View()).chooser)) && trace == old(trace)
    {
      CancelChooser();
      pendingListener, chooserDeadline := Some(parked), true;
      parked := parked + 1;
    }

    method CancelChooser()
      modifies this`pendingListener, this`chooserDeadline, this`resolved
      ensures View() == old(View()).(chooser := FileUpload.CancelChooser(old(View()).chooser))
    {
      chooserDeadline := false;
      if pendingListener.None? {
        return;
      }
      resolved := resolved + [(pendingListener.value, SelectionCancelled)];
      pendingListener := None;
    }

    method ResolveChooserWith(id: Id) returns (attached: bool)
      modifies this`pendingListener, this`chooserDeadline, this`resolved
      ensures attached == old(pendingListener).Some?
      ensures View() == old(View()).(chooser := FileUpload.ResolveChooser(old(View()).chooser, id))
    {
      if pendingListener.None? {
        return false;
      }
      chooserDeadline := false;
      resolved := resolved + [(pendingListener.value, FileSelected(id))];
      pendingListener := None;
      return true;
    }

    /** The writes still in flight are only counted: the wipe does not wait. */
    method ResetForNewSession() returns (stillWriting: nat)
      modifies this
      ensures View() == FileUpload.ResetForNewSession(old(View())) && trace == old(trace)
      ensures stillWriting == InFlight(old(uploads))
    {
      CancelChooser();
      stillWriting := 0;
      var rest := uploads;
      while rest != map[]
        invariant stillWriting + InFlight(rest) == InFlight(uploads)
        invariant uploads == old(uploads) && trace == old(trace)
        invariant View() == old(View()).(chooser := FileUpload.CancelChooser(old(View()).chooser))
        decreases |rest|
      {
        var id :| id in rest;
        InFlightRemove(rest, id);
        stillWriting := stillWriting + rest[id].inFlight;
        rest := rest - {id};
      }
      uploads, sessionBytes := map[], 0;
      pool := pool.(wipes := pool.wipes + 1);
    }

    method HandleStart(id: Id, name: string, sha: string, declared: int)
      modifies this
      ensures View() == FileUpload.HandleStart(old(View()), id, name, sha, declared) && trace == old(trace)
    {
      if declared <= 0 || declared > MAX_UPLOAD_BYTES {
        ReplyError(id, TooLarge);
        return;
      }
      if sessionBytes + declared > MAX_SESSION_BYTES {
        ReplyError(id, SessionQuota);
        return;
      }
      uploads := uploads[id := Upload(name, sha, declared, 0, 0, 0, false)];
    }

    method HandleChunk(id: Id, seqNo: int, decoded: Option<Bytes>)
      modifies this
      ensures View() == FileUpload.HandleChunk(old(View()), id, seqNo, decoded) && trace == old(trace)
    {
      if id !in uploads {
        return;
      }
      var up := uploads[id];
      if seqNo != up.nextSeq {
        AbandonUpload(id, OutOfOrder);
        return;
      }
      if decoded.None? {
        AbandonUpload(id, BadBase64);
        return;
      }
      if up.received + |decoded.value| > up.declared {
        AbandonUpload(id, Code.TooLarge);
        return;
      }
      uploads := uploads[id := up.(nextSeq := up.nextSeq + 1, received := up.received + |decoded.value|,
                                   inFlight := up.inFlight + 1)];
      pool := PostWrite(pool, id, decoded.value);
    }

    method AbandonUpload(id: Id, code: Code)
      modifies this`uploads, this`pool, this`replies
      ensures View() == FileUpload.AbandonUpload(old(View()), id, code)
    {
      uploads := uploads - {id};
      pool := pool.(deletes := pool.deletes + {id});
      ReplyError(id, code);
    }

    method ReplyError(id: Id, code: Code)
      modifies this`replies
      ensures replies == old(replies) + [Error(id, code)]
    {
      replies := replies + [Error(id, code)];
    }

    method OnChunkWritten(id: Id, ok: bool)
      modifies this
      ensures View() == FileUpload.OnChunkWritten(old(View()), id, ok) && trace == old(trace)
    {
      if id !in uploads {
        return;
      }
      if uploads[id].inFlight > 0 {
        uploads := uploads[id := uploads[id].(inFlight := uploads[id].inFlight - 1)];
      } else {
        assert uploads[id := uploads[id].(inFlight := 0)] == uploads;
      }
      if !ok {
        AbandonUpload(id, WriteFailed);
        return;
      }
      replies := replies + [Progress(id, uploads[id].received, uploads[id].declared)];
      if uploads[id].endPending && uploads[id].inFlight == 0 {
        FinaliseUpload(id);
      }
    }

    method HandleEnd(id: Id)
      modifies this
      ensures View() == FileUpload.HandleEnd(old(View()), id) && trace == old(trace)
    {
      if id !in uploads {
        return;
      }
      if uploads[id].inFlight > 0 {
        uploads := uploads[id := uploads[id].(endPending := true)];
        return;
      }
      FinaliseUpload(id);
    }

    method FinaliseUpload(id: Id)
      modifies this`pool
      ensures View() == FileUpload.FinaliseUpload(old(View()), id)
    {
      if id !in uploads {
        return;
      }
      pool := PostHash(pool, id);
    }

    method OnFinalised(id: Id, actual: string, total: nat)
      modifies this
      ensures View() == FileUpload.OnFinalised(old(View()), id, actual, total) && trace == old(trace)
    {
      if id !in uploads {
        return;
      }
      var up := uploads[id];
      if actual == "" {
        AbandonUpload(id, HashFailed);
        return;
      }
      if total != up.declared {
        AbandonUpload(id, Truncated);
        return;
      }
      if up.sha != "" && actual != up.sha {
        AbandonUpload(id, HashMismatch);
        return;
      }
      uploads := uploads - {id};
      sessionBytes := sessionBytes + total;
      var attached := ResolveChooserWith(id);
      replies := replies + [Complete(id, attached)];
    }

    method HandleCancel(id: Id)
      modifies this
      ensures View() == FileUpload.HandleCancel(old(View()), id) && trace == old(trace)
    {
      CancelChooser();
      if id in uploads {
        AbandonUpload(id, CancelledByViewer);
        return;
      }
      ReplyError(id, CancelledByViewer);
    }

    /** What the pool hands back with a reply. */
    ghost predicate Returns(e: Event, ok: bool, actual: string, total: nat)
      requires Enabled(View(), e)
      reads this
    {
      match e
      case WriteReplies(id, n) => ok == WritesOf(pool, id)[n].phase.ok
      case HashReplies(id, j) => actual == HashOf(digest, HashesOf(pool, id)[j].content) && total == SizeOf(HashesOf(pool, id)[j].content)
      case _ => true
    }

    /** One task of the UI sequence, from an envelope, the page, the deadline or a
        reply of the pool, keeps the object on a run of the machine. */
    method Dispatch(e: Event, ok: bool, actual: string, total: nat)
      requires Valid() && Enabled(View(), e) && Returns(e, ok, actual, total)
      requires !e.WriteRuns? && !e.HashRuns? && !e.DeleteRuns? && !e.WipeRuns?
      modifies this
      ensures Valid() && trace == Then(old(trace), e)
    {
      match e {
        case Start(id, name, sha, declared) =>
          pool := pool.(writes := pool.writes[id := []]);
          HandleStart(id, name, sha, declared);
        case Chunk(id, seqNo, decoded) => HandleChunk(id, seqNo, decoded);
        case End(id) => HandleEnd(id);
        case Cancel(id) => HandleCancel(id);
        case OpenChooser => BeginChooser();
        case CloseChooser => CancelChooser();
        case Deadline => CancelChooser();
        case Reset => var _ := ResetForNewSession();
        case WriteReplies(id, n) =>
          pool := SetWrite(pool, id, n, Replied(ok));
          OnChunkWritten(id, ok);
        case HashReplies(id, j) =>
          pool := SetHash(pool, id, j, Delivered);
          OnFinalised(id, actual, total);
      }
      trace := Then(trace, e);
    }

    /** One task of the pool. */
    ghost method PoolRuns(e: Event)
      requires Valid() && Enabled(View(), e) && (e.WriteRuns? || e.HashRuns? || e.DeleteRuns? || e.WipeRuns?)
      modifies this`pool, this`files, this`trace
      ensures Valid() && trace == Then(old(trace), e)
    {
      var w := Happen(View(), e, digest);
      pool, files, trace := w.pool, w.files, Then(trace, e);
    }
  }

  /** Writes posted and not replied, over all uploads in progress. */
  ghost function InFlight(m: map<Id, Upload>): nat
    decreases |m|
  {
    if m == map[] then 0
    else
      var id :| id in m;
      m[id].inFlight + InFlight(m - {id})
  }

  lemma {:induction false} InFlightRemove(m: map<Id, Upload>, id: Id)
    requires id in m
    ensures InFlight(m) == m[id].inFlight + InFlight(m - {id})
    decreases |m|
  {
    var x :| x in m && InFlight(m) == m[x].inFlight + InFlight(m - {x});
    if x != id {
      InFlightRemove(m - {x}, id);
      InFlightRemove(m - {id}, x);
      assert m - {x} - {id} == m - {id} - {x};
    }
  }

  /** What the runs keep, every valid receiver object has: each upload's invariant,
      the conservation of listeners, and the replies and outcomes of its history. */
  lemma ObjectKeepsUploads(r: CbFileUploadReceiver, id: Id)
    requires r.Valid()
    ensures Ok(r.View(), id) && EndOk(r.View(), id)
    ensures r.replies == FileUploadHistory.RepliesOf(r.trace, r.digest) && r.resolved == FileUploadHistory.OutcomesOf(r.trace, r.digest)
    ensures r.parked == |r.resolved| + (if r.pendingListener.Some? then 1 else 0) && (r.chooserDeadline <==> r.pendingListener.Some?)
  {
    FileUploadHistory.ReceiverIsHistory(r.trace, r.digest, id);
    RunKeepsOk(r.trace, r.digest, id);
    RunKeepsEnd(r.trace, r.digest, id);
    ListenersAreConserved(r.trace, r.digest);
  }
}
