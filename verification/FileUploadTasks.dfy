/** The tasks an upload has under way, read off the events: writes not answered,
    an end held back for them, read-backs, deletes and wipes. */
module FileUploadTasks {
  import opened Options
  import opened FileUpload
  import opened FileUploadSafety
  import opened FileUploadHistory

  predicate Live(h: History, id: Id, digest: Digest) { StartOf(h, id, digest).Some? }

  /** A chunk of id is accepted. */
  predicate Accepts(past: History, e: Event, id: Id, digest: Digest) {
    var start := StartOf(past, id, digest);
    e.Chunk? && e.id == id && start.Some? && ChunkFits(start.value, ChunksOf(past, id, digest), e.seqNo, e.decoded)
  }

  /** A write of id is answered. */
  predicate Answers(past: History, e: Event, id: Id, digest: Digest) {
    e.WriteReplies? && e.id == id && Enabled(Run(past, digest), e)
  }

  /** Chunks accepted whose write has not been answered. */
  function InFlight(h: History, id: Id, digest: Digest): nat {
    if h.Boot? then 0
    else
      var n := InFlight(h.past, id, digest);
      if Accepts(h.past, h.event, id, digest) then n + 1
      else if Answers(h.past, h.event, id, digest) && n > 0 then n - 1
      else n
  }

  /** The end of id came while a write of it was in flight. */
  predicate Ending(h: History, id: Id, digest: Digest) {
    h.Then? && (Ending(h.past, id, digest)
                || (h.event.End? && h.event.id == id && Live(h.past, id, digest) && InFlight(h.past, id, digest) > 0))
  }

  /** id's file is to be read back: its end has come, now or before, and this is the
      answer to its last write, or none is in flight. */
  predicate ReadsBack(past: History, e: Event, id: Id, digest: Digest) {
    Live(past, id, digest)
    && ((e.End? && e.id == id && InFlight(past, id, digest) == 0)
        || (Answers(past, e, id, digest) && Said(past, e, digest).Some? && Said(past, e, digest).value.Progress?
            && Ending(past, id, digest) && InFlight(past, id, digest) <= 1))
  }

  function ReadBacks(h: History, id: Id, digest: Digest): nat {
    if h.Boot? then 0 else ReadBacks(h.past, id, digest) + if ReadsBack(h.past, h.event, id, digest) then 1 else 0
  }

  /** A live upload has failed, and its file has not been deleted since. */
  predicate Deleting(h: History, id: Id, digest: Digest) {
    if h.Boot? then false
    else
      var r := Said(h.past, h.event, digest);
      if h.event == DeleteRuns(id) then false
      else (Live(h.past, id, digest) && Settles(r, id) && r.value.Error?) || Deleting(h.past, id, digest)
  }

  /** Resets whose wipe has not run. */
  function Wipes(h: History): nat {
    if h.Boot? then 0
    else if h.event.Reset? then Wipes(h.past) + 1
    else if h.event.WipeRuns? && Wipes(h.past) > 0 then Wipes(h.past) - 1
    else Wipes(h.past)
  }

  datatype Tasks = Tasks(inFlight: nat, ending: bool, readBacks: nat, deleting: bool)

  function TasksOf(h: History, id: Id, digest: Digest): Tasks {
    Tasks(InFlight(h, id, digest), Ending(h, id, digest), ReadBacks(h, id, digest), Deleting(h, id, digest))
  }

  ghost predicate TasksAgree(w: World, id: Id, n: nat, t: Tasks) {
    && (id in w.uploads ==> w.uploads[id].inFlight == t.inFlight && w.uploads[id].endPending == t.ending)
    && |HashesOf(w.pool, id)| == t.readBacks
    && (id in w.pool.deletes <==> t.deleting)
    && t.inFlight <= n && (t.ending ==> n > 0)
  }

  /** One event more: what it is answered with is r. */
  function NextTasks(t: Tasks, e: Event, id: Id, live: bool, accepts: bool, answers: bool, r: Option<Reply>): Tasks {
    Tasks(if accepts then t.inFlight + 1 else if answers && t.inFlight > 0 then t.inFlight - 1 else t.inFlight,
          t.ending || (e.End? && e.id == id && live && t.inFlight > 0),
          t.readBacks + if live && ((e.End? && e.id == id && t.inFlight == 0)
                                    || (answers && r.Some? && r.value.Progress? && t.ending && t.inFlight <= 1)) then 1 else 0,
          if e == DeleteRuns(id) then false else (live && Settles(r, id) && r.value.Error?) || t.deleting)
  }

  lemma TasksUnfold(h: History, e: Event, digest: Digest, id: Id)
    ensures TasksOf(Then(h, e), id, digest)
            == NextTasks(TasksOf(h, id, digest), e, id, Live(h, id, digest), Accepts(h, e, id, digest), Answers(h, e, id, digest),
                         Said(h, e, digest))
  {
  }

  predicate Concerns(e: Event, id: Id) { (HasId(e) || e.WriteRuns?) && e.id == id }

  lemma OwnTasks(w: World, e: Event, digest: Digest, id: Id, start: Option<Event>, chunks: seq<Bytes>, r: Option<Reply>, t: Tasks)
    requires Concerns(e, id) && Enabled(w, e) && UploadAgrees(w, id, start, chunks) && (id in w.uploads ==> id in w.pool.writes)
    requires HasId(e) ==> r == Answer(w.pool, e, digest, start, chunks, w.sessionBytes, w.chooser.listener.Some?)
    requires !HasId(e) ==> r.None?
    requires TasksAgree(w, id, |chunks|, t)
    ensures var accepts := e.Chunk? && e.id == id && start.Some? && ChunkFits(start.value, chunks, e.seqNo, e.decoded);
            TasksAgree(Happen(w, e, digest), id, |NextChunks(e, id, start, chunks)|,
                       NextTasks(t, e, id, start.Some?, accepts, e.WriteReplies? && e.id == id, r))
  {
  }

  /** Nothing of id's but its file may differ. */
  predicate Alike(w: World, w': World, id: Id) {
    && (id in w'.uploads ==> id in w.uploads && w'.uploads[id] == w.uploads[id])
    && |HashesOf(w'.pool, id)| == |HashesOf(w.pool, id)|
  }

  lemma PoolAlike(w: World, e: Event, digest: Digest, id: Id)
    requires !Concerns(e, id) && Enabled(w, e) && (e.WriteReplies? || e.HashReplies? || e.HashRuns?)
    ensures Alike(w, Happen(w, e, digest), id) && (id in Happen(w, e, digest).pool.deletes <==> id in w.pool.deletes)
  {
  }

  lemma HandlerAlike(w: World, e: Event, digest: Digest, id: Id)
    requires !Concerns(e, id) && Enabled(w, e) && !e.WriteReplies? && !e.HashReplies? && !e.HashRuns?
    ensures Alike(w, Happen(w, e, digest), id)
    ensures id in Happen(w, e, digest).pool.deletes <==> id in w.pool.deletes && e != DeleteRuns(id)
  {
  }

  /** An event of another upload, or of none. */
  lemma OtherTasks(w: World, e: Event, digest: Digest, id: Id, live: bool, n: nat, r: Option<Reply>, t: Tasks)
    requires !Concerns(e, id) && Enabled(w, e) && TasksAgree(w, id, n, t) && !Settles(r, id)
    ensures TasksAgree(Happen(w, e, digest), id, n, NextTasks(t, e, id, live, false, false, r))
  {
    if e.WriteReplies? || e.HashReplies? || e.HashRuns? {
      PoolAlike(w, e, digest, id);
    } else {
      HandlerAlike(w, e, digest, id);
    }
  }

  lemma StepTasks(w: World, e: Event, digest: Digest, id: Id, start: Option<Event>, chunks: seq<Bytes>, r: Option<Reply>, t: Tasks)
    requires Enabled(w, e) && UploadAgrees(w, id, start, chunks) && (id in w.uploads ==> id in w.pool.writes)
    requires HasId(e) && e.id == id ==> r == Answer(w.pool, e, digest, start, chunks, w.sessionBytes, w.chooser.listener.Some?)
    requires HasId(e) && e.id != id ==> !Settles(r, id)
    requires !HasId(e) ==> r.None?
    requires TasksAgree(w, id, |chunks|, t)
    ensures var accepts := e.Chunk? && e.id == id && start.Some? && ChunkFits(start.value, chunks, e.seqNo, e.decoded);
            TasksAgree(Happen(w, e, digest), id, |NextChunks(e, id, start, chunks)|,
                       NextTasks(t, e, id, start.Some?, accepts, e.WriteReplies? && e.id == id, r))
  {
    if Concerns(e, id) {
      OwnTasks(w, e, digest, id, start, chunks, r, t);
    } else {
      OtherTasks(w, e, digest, id, start.Some?, |chunks|, r, t);
    }
  }

  lemma NextTask(h: History, e: Event, digest: Digest, id: Id)
    requires DeskOk(h, digest) && UploadOk(h, digest, id)
    requires TasksAgree(Run(h, digest), id, |ChunksOf(h, id, digest)|, TasksOf(h, id, digest))
    ensures TasksAgree(Run(Then(h, e), digest), id, |ChunksOf(Then(h, e), id, digest)|, TasksOf(Then(h, e), id, digest))
  {
    var w, start, chunks, r := Run(h, digest), StartOf(h, id, digest), ChunksOf(h, id, digest), Said(h, e, digest);
    UploadUnfolds(h, e, digest, id, w, start, chunks, r);
    TasksUnfold(h, e, digest, id);
    if Enabled(w, e) {
      LiveIsKnown(h, digest, id);
      SaidOfUpload(h, e, digest, id, w, start, chunks, r);
      StepTasks(w, e, digest, id, start, chunks, r, TasksOf(h, id, digest));
    }
  }

  lemma StepWipes(w: World, e: Event, digest: Digest)
    requires Enabled(w, e)
    ensures Happen(w, e, digest).pool.wipes == w.pool.wipes + if e.Reset? then 1 else if e.WipeRuns? then -1 else 0
  {
  }

  lemma {:induction false} WipesAreHistory(h: History, digest: Digest)
    ensures Run(h, digest).pool.wipes == Wipes(h)
  {
    if h.Then? {
      WipesAreHistory(h.past, digest);
      if Enabled(Run(h.past, digest), h.event) {
        StepWipes(Run(h.past, digest), h.event, digest);
      }
    }
  }

  /** Under every schedule the writes in flight, an end held back, the read-backs
      posted, the deletes posted and the wipes posted are those of the history. */
  lemma {:induction false} TasksAreHistory(h: History, digest: Digest, id: Id)
    ensures TasksAgree(Run(h, digest), id, |ChunksOf(h, id, digest)|, TasksOf(h, id, digest))
    ensures Run(h, digest).pool.wipes == Wipes(h)
  {
    WipesAreHistory(h, digest);
    if h.Then? {
      TasksAreHistory(h.past, digest, id);
      ReceiverIsHistory(h.past, digest, id);
      NextTask(h.past, h.event, digest, id);
    }
  }
}
