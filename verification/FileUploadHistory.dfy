/** The upload receiver read off its events: which uploads are live and with what
    chunks, every reply, the bytes credited and every chooser's outcome. */
module FileUploadHistory {
  import opened Options
  import opened FileUpload
  import opened FileUploadSafety

  // ----- what an event is answered with -----

  function Sum(chunks: seq<Bytes>): nat {
    if chunks == [] then 0 else Sum(chunks[..|chunks| - 1]) + |chunks[|chunks| - 1]|
  }

  predicate IsStart(e: Event) { e.Start? && e.declared > 0 }

  /** The next chunk, decoded, within the declared size. */
  predicate ChunkFits(start: Event, chunks: seq<Bytes>, seqNo: int, decoded: Option<Bytes>)
    requires IsStart(start)
  {
    seqNo == |chunks| && decoded.Some? && Sum(chunks) + |decoded.value| <= start.declared
  }

  /** The reply to a read-back: its digest first, then its length, then whether it
      is the digest declared. */
  function Verdict(start: Event, content: Option<Bytes>, digest: Digest, parked: bool): Reply
    requires IsStart(start)
  {
    if content.None? || digest(content.value) == "" then Error(start.id, HashFailed)
    else if |content.value| != start.declared then Error(start.id, Truncated)
    else if start.sha != "" && digest(content.value) != start.sha then Error(start.id, HashMismatch)
    else Complete(start.id, parked)
  }

  /** The reply to e, given the accepted start of its upload if that is live, the
      chunks accepted, the bytes credited and whether a chooser is parked. */
  function Answer(pool: Pool, e: Event, digest: Digest, start: Option<Event>, chunks: seq<Bytes>, credit: nat, parked: bool): Option<Reply>
    requires start.Some? ==> IsStart(start.value)
    requires e.WriteReplies? ==> e.n < |WritesOf(pool, e.id)| && WritesOf(pool, e.id)[e.n].phase.Ran?
    requires e.HashReplies? ==> e.j < |HashesOf(pool, e.id)| && HashesOf(pool, e.id)[e.j].Read?
  {
    match e
    case Start(id, _, _, declared) =>
      if !(0 < declared <= 104_857_600) then Some(Error(id, TooLarge))
      else if credit + declared > 536_870_912 then Some(Error(id, SessionQuota))
      else None
    case Chunk(id, seqNo, decoded) =>
      if start.None? || ChunkFits(start.value, chunks, seqNo, decoded) then None
      else if seqNo != |chunks| then Some(Error(id, OutOfOrder))
      else if decoded.None? then Some(Error(id, BadBase64))
      else Some(Error(id, TooLarge))
    case Cancel(id) => Some(Error(id, CancelledByViewer))
    case WriteReplies(id, n) =>
      if start.None? then None
      else if WritesOf(pool, id)[n].phase.ok then Some(Progress(id, Sum(chunks), start.value.declared))
      else Some(Error(id, WriteFailed))
    case HashReplies(id, j) =>
      if start.None? then None else Some(Verdict(start.value, HashesOf(pool, id)[j].content, digest, parked))
    case _ => None
  }

  // ----- readings of the history -----

  predicate HasId(e: Event) {
    e.Start? || e.Chunk? || e.End? || e.Cancel? || e.WriteReplies? || e.HashReplies?
  }

  /** What e is answered with after h. */
  function Said(h: History, e: Event, digest: Digest): Option<Reply>
    decreases h, 1
  {
    var w := Run(h, digest);
    if !Enabled(w, e) then None
    else if HasId(e)
    then Answer(w.pool, e, digest, StartOf(h, e.id, digest), ChunksOf(h, e.id, digest), CreditOf(h, digest), PendingOf(h, digest).Some?)
    else Answer(w.pool, e, digest, None, [], CreditOf(h, digest), PendingOf(h, digest).Some?)
  }

  /** The upload id is over: completed, or failed. */
  predicate Settles(r: Option<Reply>, id: Id) { r.Some? && r.value.id == id && !r.value.Progress? }

  /** The start of the upload id, while it is live. */
  function StartOf(h: History, id: Id, digest: Digest): (s: Option<Event>)
    ensures s.Some? ==> IsStart(s.value) && s.value.id == id
    decreases h, 0
  {
    if h.Boot? then None
    else if !Enabled(Run(h.past, digest), h.event) then StartOf(h.past, id, digest)
    else if h.event.Reset? || Settles(Said(h.past, h.event, digest), id) then None
    else if h.event.Start? && h.event.id == id then Some(h.event)
    else StartOf(h.past, id, digest)
  }

  /** The chunks accepted for id. */
  function ChunksOf(h: History, id: Id, digest: Digest): seq<Bytes>
    decreases h, 0
  {
    if h.Boot? then []
    else
      var past, e := h.past, h.event;
      var start, chunks := StartOf(past, id, digest), ChunksOf(past, id, digest);
      if e.Chunk? && e.id == id && start.Some? && ChunkFits(start.value, chunks, e.seqNo, e.decoded)
      then chunks + [e.decoded.value] else chunks
  }

  /** The bytes of the uploads completed since the last reset. */
  function CreditOf(h: History, digest: Digest): nat
    decreases h, 0
  {
    if h.Boot? then 0
    else if h.event.Reset? then 0
    else
      var r := Said(h.past, h.event, digest);
      if r.Some? && r.value.Complete? && StartOf(h.past, r.value.id, digest).Some?
      then CreditOf(h.past, digest) + StartOf(h.past, r.value.id, digest).value.declared
      else CreditOf(h.past, digest)
  }

  function Opened(h: History): nat {
    if h.Boot? then 0 else Opened(h.past) + if h.event.OpenChooser? then 1 else 0
  }

  predicate Dismisses(past: History, e: Event, digest: Digest) {
    e.OpenChooser? || e.CloseChooser? || e.Cancel? || e.Reset? || (e.Deadline? && Enabled(Run(past, digest), e))
  }

  /** The chooser parked: opened, and neither dismissed nor given a file since. */
  function PendingOf(h: History, digest: Digest): Option<nat>
    decreases h, 0
  {
    if h.Boot? then None
    else if h.event.OpenChooser? then Some(Opened(h.past))
    else
      var r := Said(h.past, h.event, digest);
      if Dismisses(h.past, h.event, digest) || (r.Some? && r.value.Complete?) then None else PendingOf(h.past, digest)
  }

  /** Each chooser's outcome: the file of the upload that completed while it was
      parked, or cancelled when it was dismissed. */
  function OutcomesOf(h: History, digest: Digest): seq<(nat, Outcome)> {
    if h.Boot? then []
    else
      var past, r, was := PendingOf(h.past, digest), Said(h.past, h.event, digest), OutcomesOf(h.past, digest);
      if past.None? then was
      else if Dismisses(h.past, h.event, digest) then was + [(past.value, SelectionCancelled)]
      else if r.Some? && r.value.Complete? then was + [(past.value, FileSelected(r.value.id))]
      else was
  }

  function RepliesOf(h: History, digest: Digest): seq<Reply> {
    if h.Boot? then []
    else
      var r := Said(h.past, h.event, digest);
      if r.Some? then RepliesOf(h.past, digest) + [r.value] else RepliesOf(h.past, digest)
  }

  // ----- the receiver is its readings -----

  ghost predicate UploadAgrees(w: World, id: Id, start: Option<Event>, chunks: seq<Bytes>) {
    && (start.Some? ==> IsStart(start.value) && start.value.id == id)
    && (id in w.uploads <==> start.Some?)
    && (start.Some? ==>
          var up := w.uploads[id];
          && up.name == start.value.name && up.sha == start.value.sha && up.declared == start.value.declared
          && up.nextSeq == |chunks| && up.received == Sum(chunks))
    && |WritesOf(w.pool, id)| == |chunks|
    && (forall n :: 0 <= n < |chunks| ==> WritesOf(w.pool, id)[n].bytes == chunks[n])
  }

  ghost predicate DeskAgrees(w: World, credit: nat, parked: nat, pending: Option<nat>, outcomes: seq<(nat, Outcome)>) {
    w.sessionBytes == credit && w.chooser == Chooser(pending, pending.Some?, parked, outcomes)
  }

  /** The reply given is the answer. */
  lemma StepAnswers(w: World, e: Event, digest: Digest, start: Option<Event>, chunks: seq<Bytes>)
    requires Enabled(w, e) && (start.Some? ==> IsStart(start.value))
    requires HasId(e) ==> UploadAgrees(w, e.id, start, chunks)
    ensures var r := Answer(w.pool, e, digest, start, chunks, w.sessionBytes, w.chooser.listener.Some?);
            Happen(w, e, digest).replies == if r.Some? then w.replies + [r.value] else w.replies
  {
    assert MAX_UPLOAD_BYTES == 104_857_600 && MAX_SESSION_BYTES == 536_870_912;
  }

  lemma SumSnoc(chunks: seq<Bytes>, bytes: Bytes)
    ensures Sum(chunks + [bytes]) == Sum(chunks) + |bytes|
  {
    assert (chunks + [bytes])[..|chunks|] == chunks;
  }

  /** Another upload's event, or none's, leaves this one alone. */
  lemma OtherUpload(w: World, e: Event, digest: Digest, id: Id, start: Option<Event>, chunks: seq<Bytes>)
    requires Enabled(w, e) && UploadAgrees(w, id, start, chunks)
    requires !e.Reset? && !((HasId(e) || e.WriteRuns?) && e.id == id)
    ensures UploadAgrees(Happen(w, e, digest), id, start, chunks)
  {
    if e.Start? {
      StartEffect(w.(pool := w.pool.(writes := w.pool.writes[e.id := []])), e.id, e.name, e.sha, e.declared);
    } else {
      assert WritesOf(Happen(w, e, digest).pool, id) == WritesOf(w.pool, id);
    }
  }

  function NextStart(e: Event, id: Id, start: Option<Event>, r: Option<Reply>): Option<Event> {
    if e.Reset? || Settles(r, id) then None else if e.Start? && e.id == id then Some(e) else start
  }

  function NextChunks(e: Event, id: Id, start: Option<Event>, chunks: seq<Bytes>): seq<Bytes>
    requires start.Some? ==> IsStart(start.value)
  {
    if e.Chunk? && e.id == id && start.Some? && ChunkFits(start.value, chunks, e.seqNo, e.decoded) then chunks + [e.decoded.value]
    else chunks
  }

  lemma OwnStart(w: World, id: Id, name: string, sha: string, declared: int, digest: Digest, chunks: seq<Bytes>)
    requires Enabled(w, Start(id, name, sha, declared)) && UploadAgrees(w, id, None, chunks)
    ensures var e := Start(id, name, sha, declared);
            var r := Answer(w.pool, e, digest, None, chunks, w.sessionBytes, w.chooser.listener.Some?);
            UploadAgrees(Happen(w, e, digest), id, NextStart(e, id, None, r), chunks)
  {
    assert MAX_UPLOAD_BYTES == 104_857_600 && MAX_SESSION_BYTES == 536_870_912;
    assert chunks == [];
  }

  lemma OwnChunk(w: World, id: Id, seqNo: int, decoded: Option<Bytes>, digest: Digest, start: Option<Event>, chunks: seq<Bytes>)
    requires UploadAgrees(w, id, start, chunks)
    ensures var e := Chunk(id, seqNo, decoded);
            var r := Answer(w.pool, e, digest, start, chunks, w.sessionBytes, w.chooser.listener.Some?);
            UploadAgrees(HandleChunk(w, id, seqNo, decoded), id, NextStart(e, id, start, r), NextChunks(e, id, start, chunks))
  {
    if decoded.Some? {
      SumSnoc(chunks, decoded.value);
    }
  }

  lemma OwnWrite(w: World, e: Event, digest: Digest, id: Id, start: Option<Event>, chunks: seq<Bytes>)
    requires Enabled(w, e) && UploadAgrees(w, id, start, chunks) && (e.WriteRuns? || e.WriteReplies?) && e.id == id
    ensures var r := Answer(w.pool, e, digest, start, chunks, w.sessionBytes, w.chooser.listener.Some?);
            UploadAgrees(Happen(w, e, digest), id, NextStart(e, id, start, r), chunks)
  {
  }

  lemma OwnRest(w: World, e: Event, digest: Digest, id: Id, start: Option<Event>, chunks: seq<Bytes>)
    requires Enabled(w, e) && UploadAgrees(w, id, start, chunks) && (e.End? || e.Cancel? || e.HashReplies?) && e.id == id
    ensures var r := Answer(w.pool, e, digest, start, chunks, w.sessionBytes, w.chooser.listener.Some?);
            UploadAgrees(Happen(w, e, digest), id, NextStart(e, id, start, r), chunks)
  {
    assert WritesOf(Happen(w, e, digest).pool, id) == WritesOf(w.pool, id);
  }

  /** r is the answer to e; start and chunks are those of id. */
  lemma StepUpload(w: World, e: Event, digest: Digest, id: Id, start: Option<Event>, chunks: seq<Bytes>, r: Option<Reply>)
    requires Enabled(w, e) && UploadAgrees(w, id, start, chunks) && (id in w.uploads ==> id in w.pool.writes)
    requires HasId(e) && e.id == id ==> r == Answer(w.pool, e, digest, start, chunks, w.sessionBytes, w.chooser.listener.Some?)
    requires HasId(e) && e.id != id ==> !Settles(r, id)
    requires !HasId(e) ==> r.None?
    ensures UploadAgrees(Happen(w, e, digest), id, NextStart(e, id, start, r), NextChunks(e, id, start, chunks))
  {
    if e.Reset? {
    } else if !((HasId(e) || e.WriteRuns?) && e.id == id) {
      OtherUpload(w, e, digest, id, start, chunks);
    } else {
      match e
      case Start(_, name, sha, declared) => OwnStart(w, id, name, sha, declared, digest, chunks);
      case Chunk(_, seqNo, decoded) => OwnChunk(w, id, seqNo, decoded, digest, start, chunks);
      case WriteRuns(_, _, _) => OwnWrite(w, e, digest, id, start, chunks);
      case WriteReplies(_, _) => OwnWrite(w, e, digest, id, start, chunks);
      case _ => OwnRest(w, e, digest, id, start, chunks);
    }
  }

  /** Credit and chooser after e, answered with r; `declared` is the size declared
      by the upload r is about. */
  lemma StepDesk(w: World, e: Event, digest: Digest, start: Option<Event>, chunks: seq<Bytes>,
                 parked: nat, pending: Option<nat>, outcomes: seq<(nat, Outcome)>)
    requires Enabled(w, e) && (HasId(e) ==> UploadAgrees(w, e.id, start, chunks)) && (start.Some? ==> IsStart(start.value))
    requires DeskAgrees(w, w.sessionBytes, parked, pending, outcomes)
    ensures var r := Answer(w.pool, e, digest, start, chunks, w.sessionBytes, w.chooser.listener.Some?);
            var complete := r.Some? && r.value.Complete?;
            var dismissed := e.OpenChooser? || e.CloseChooser? || e.Cancel? || e.Reset? || e.Deadline?;
            && (complete ==> start.Some?)
            && DeskAgrees(Happen(w, e, digest),
                          if e.Reset? then 0 else if complete then w.sessionBytes + start.value.declared else w.sessionBytes,
                          if e.OpenChooser? then parked + 1 else parked,
                          if e.OpenChooser? then Some(parked) else if dismissed || complete then None else pending,
                          if pending.None? then outcomes
                          else if dismissed then outcomes + [(pending.value, SelectionCancelled)]
                          else if complete then outcomes + [(pending.value, FileSelected(r.value.id))]
                          else outcomes)
  {
    if e.HashReplies? && start.Some? {
      var content := HashesOf(w.pool, e.id)[e.j].content;
      var w1 := w.(pool := SetHash(w.pool, e.id, e.j, Delivered));
      assert Happen(w, e, digest) == OnFinalised(w1, e.id, HashOf(digest, content), SizeOf(content));
    }
  }

  // ----- over whole runs -----

  ghost predicate DeskOk(h: History, digest: Digest) {
    DeskAgrees(Run(h, digest), CreditOf(h, digest), Opened(h), PendingOf(h, digest), OutcomesOf(h, digest))
  }

  ghost predicate UploadOk(h: History, digest: Digest, id: Id) {
    UploadAgrees(Run(h, digest), id, StartOf(h, id, digest), ChunksOf(h, id, digest))
  }

  /** The upload an event is about. */
  function About(e: Event): Id { if HasId(e) then e.id else Id("") }

  lemma SaidIsAnswer(h: History, e: Event, digest: Digest)
    requires Enabled(Run(h, digest), e) && DeskOk(h, digest)
    ensures var w := Run(h, digest);
            Said(h, e, digest) == if HasId(e)
                                  then Answer(w.pool, e, digest, StartOf(h, e.id, digest), ChunksOf(h, e.id, digest), w.sessionBytes,
                                              w.chooser.listener.Some?)
                                  else None
  {
  }

  lemma NextDesk(h: History, e: Event, digest: Digest)
    requires DeskOk(h, digest) && UploadOk(h, digest, About(e))
    ensures DeskOk(Then(h, e), digest)
  {
    var w := Run(h, digest);
    if Enabled(w, e) {
      SaidIsAnswer(h, e, digest);
      if HasId(e) {
        StepDesk(w, e, digest, StartOf(h, e.id, digest), ChunksOf(h, e.id, digest), Opened(h), PendingOf(h, digest), OutcomesOf(h, digest));
      } else {
        StepDesk(w, e, digest, None, [], Opened(h), PendingOf(h, digest), OutcomesOf(h, digest));
      }
    }
  }

  lemma UploadUnfolds(h: History, e: Event, digest: Digest, id: Id, w: World, start: Option<Event>, chunks: seq<Bytes>, r: Option<Reply>)
    requires w == Run(h, digest) && start == StartOf(h, id, digest) && chunks == ChunksOf(h, id, digest) && r == Said(h, e, digest)
    ensures Run(Then(h, e), digest) == Step(w, e, digest)
    ensures StartOf(Then(h, e), id, digest) == if Enabled(w, e) then NextStart(e, id, start, r) else start
    ensures ChunksOf(Then(h, e), id, digest) == NextChunks(e, id, start, chunks)
  {
  }

  lemma LiveIsKnown(h: History, digest: Digest, id: Id)
    ensures id in Run(h, digest).uploads ==> id in Run(h, digest).pool.writes
  {
    RunKeepsOk(h, digest, id);
  }

  lemma SaidOfUpload(h: History, e: Event, digest: Digest, id: Id, w: World, start: Option<Event>, chunks: seq<Bytes>, r: Option<Reply>)
    requires w == Run(h, digest) && start == StartOf(h, id, digest) && chunks == ChunksOf(h, id, digest) && r == Said(h, e, digest)
    requires DeskOk(h, digest) && Enabled(w, e)
    ensures HasId(e) && e.id == id ==> r == Answer(w.pool, e, digest, start, chunks, w.sessionBytes, w.chooser.listener.Some?)
    ensures HasId(e) && e.id != id ==> !Settles(r, id)
    ensures !HasId(e) ==> r.None?
  {
    SaidIsAnswer(h, e, digest);
  }

  lemma NextUpload(h: History, e: Event, digest: Digest, id: Id, w: World, start: Option<Event>, chunks: seq<Bytes>, r: Option<Reply>)
    requires w == Run(h, digest) && start == StartOf(h, id, digest) && chunks == ChunksOf(h, id, digest) && r == Said(h, e, digest)
    requires DeskOk(h, digest) && UploadAgrees(w, id, start, chunks)
    ensures UploadOk(Then(h, e), digest, id)
  {
    UploadUnfolds(h, e, digest, id, w, start, chunks, r);
    if Enabled(w, e) {
      LiveIsKnown(h, digest, id);
      SaidOfUpload(h, e, digest, id, w, start, chunks, r);
      StepUpload(w, e, digest, id, start, chunks, r);
    }
  }

  lemma NextReply(h: History, e: Event, digest: Digest)
    requires DeskOk(h, digest) && UploadOk(h, digest, About(e))
    ensures var r := Said(h, e, digest);
            Run(Then(h, e), digest).replies == if r.Some? then Run(h, digest).replies + [r.value] else Run(h, digest).replies
  {
    var w := Run(h, digest);
    if Enabled(w, e) {
      SaidIsAnswer(h, e, digest);
      if HasId(e) {
        StepAnswers(w, e, digest, StartOf(h, e.id, digest), ChunksOf(h, e.id, digest));
      } else {
        StepAnswers(w, e, digest, None, []);
      }
    }
  }

  /** Under every schedule: the live uploads are those started and not settled,
      with what their starts declared; their writes are exactly the chunks
      accepted; the credit, the parked chooser, every outcome and every reply are
      those of the history. */
  lemma {:induction false} ReceiverIsHistory(h: History, digest: Digest, id: Id)
    ensures UploadOk(h, digest, id) && DeskOk(h, digest) && Run(h, digest).replies == RepliesOf(h, digest)
    decreases h
  {
    if h.Then? {
      ReceiverIsHistory(h.past, digest, id);
      ReceiverIsHistory(h.past, digest, About(h.event));
      NextUpload(h.past, h.event, digest, id, Run(h.past, digest), StartOf(h.past, id, digest), ChunksOf(h.past, id, digest),
                 Said(h.past, h.event, digest));
      NextDesk(h.past, h.event, digest);
      NextReply(h.past, h.event, digest);
    }
  }

  /** A completion is a read-back's, and says whether a chooser is parked. */
  lemma CompletionSaid(h: History, e: Event, digest: Digest)
    ensures var r := Said(h, e, digest);
            r.Some? && r.value.Complete? ==> e.HashReplies? && r.value.attached == PendingOf(h, digest).Some?
  {
  }

  lemma OutcomeStep(h: History, e: Event, digest: Digest, c: Chooser, c': Chooser, r: Option<Reply>)
    requires DeskOk(h, digest) && DeskOk(Then(h, e), digest)
    requires c == Run(h, digest).chooser && c' == Run(Then(h, e), digest).chooser && r == Said(h, e, digest)
    ensures r.Some? && r.value.Complete? ==> e.HashReplies? && r.value.attached == c.listener.Some?
    ensures r.Some? && r.value.Complete? ==>
              && c'.listener.None? && !c'.deadline
              && c'.resolved == if c.listener.Some? then c.resolved + [(c.listener.value, FileSelected(r.value.id))] else c.resolved
    ensures !(r.Some? && r.value.Complete?) ==>
              c'.resolved == c.resolved || (c.listener.Some? && c'.resolved == c.resolved + [(c.listener.value, SelectionCancelled)])
  {
    CompletionSaid(h, e, digest);
  }

  lemma SnocSame<T>(s: seq<T>, x: T, y: T)
    ensures s + [x] == s + [y] ==> x == y
  {
    assert (s + [x])[|s|] == x && (s + [y])[|s|] == y;
  }

  /** A listener is given the file of id exactly when id completes while the
      listener is parked, and the reply says whether one was. */
  lemma SelectionExactly(h: History, e: Event, digest: Digest, id: Id, attached: bool, listener: nat)
    ensures var w, w' := Run(h, digest), Run(Then(h, e), digest);
            w'.replies == w.replies + [Complete(id, attached)] ==>
              && attached == w.chooser.listener.Some?
              && w'.chooser.listener.None? && !w'.chooser.deadline
              && w'.chooser.resolved == if attached then w.chooser.resolved + [(w.chooser.listener.value, FileSelected(id))]
                                        else w.chooser.resolved
    ensures var w, w' := Run(h, digest), Run(Then(h, e), digest);
            w'.chooser.resolved == w.chooser.resolved + [(listener, FileSelected(id))] ==>
              w.chooser.listener == Some(listener) && w'.replies == w.replies + [Complete(id, true)]
  {
    var w, w', r := Run(h, digest), Run(Then(h, e), digest), Said(h, e, digest);
    ReceiverIsHistory(h, digest, About(e));
    ReceiverIsHistory(Then(h, e), digest, About(e));
    NextReply(h, e, digest);
    OutcomeStep(h, e, digest, w.chooser, w'.chooser, r);
    if r.Some? {
      SnocSame(w.replies, r.value, Complete(id, attached));
    }
    if w.chooser.listener.Some? {
      var was, l, picked := w.chooser.resolved, w.chooser.listener.value, (listener, FileSelected(id));
      SnocSame(was, (l, SelectionCancelled), picked);
      if r.Some? {
        SnocSame(was, (l, FileSelected(r.value.id)), picked);
      }
    }
  }
}
