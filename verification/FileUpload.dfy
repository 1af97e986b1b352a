/** The file upload receiver against a thread pool that runs chunk writes,
    read-backs and deletes in any order it likes.

    Upload ids are never reused and each has a path of its own, so files are
    keyed by id.  The digest is a parameter; base64 decoding is done by the
    caller of HandleChunk. */
module FileUpload {
  import opened Options

  newtype byte = b: int | 0 <= b < 256
  type Bytes = seq<byte>
  /** An upload id, reduced to one safe path component. */
  datatype Id = Id(text: string)
  type Digest = Bytes -> string

  const MAX_UPLOAD_BYTES := 100 * 1024 * 1024
  const MAX_SESSION_BYTES := 512 * 1024 * 1024

  datatype Upload = Upload(name: string, sha: string, declared: nat, received: nat, nextSeq: nat,
                           inFlight: nat, endPending: bool)

  /** A chunk write: in the pool, run with its reply on the way, or replied. */
  datatype Phase = Queued | Ran(ok: bool) | Replied(ok: bool)
  datatype Write = Write(bytes: Bytes, phase: Phase)

  /** The first k bytes of chunk n, as they stand in the file. */
  datatype Piece = Piece(n: nat, k: nat)

  /** A read-back: in the pool, done with its reply on the way, or delivered.
      `pieces` records what the file was made of when it was read. */
  datatype Hash = Posted | Read(content: Option<Bytes>, pieces: seq<Piece>) | Delivered

  datatype Code = TooLarge | SessionQuota | OutOfOrder | BadBase64 | WriteFailed | HashFailed | Truncated | HashMismatch | CancelledByViewer
  datatype Reply = Progress(id: Id, got: nat, total: nat) | Complete(id: Id, attached: bool) | Error(id: Id, code: Code)

  /** How a parked file chooser was resolved. */
  datatype Outcome = FileSelected(id: Id) | SelectionCancelled

  datatype Chooser = Chooser(listener: Option<nat>, deadline: bool, parked: nat, resolved: seq<(nat, Outcome)>)

  /** The pool and the files.  `landed` is what each file is made of, in order. */
  datatype Pool = Pool(writes: map<Id, seq<Write>>, hashes: map<Id, seq<Hash>>, deletes: set<Id>, wipes: nat)
  datatype Files = Files(disk: map<Id, Bytes>, landed: map<Id, seq<Piece>>)

  datatype World = World(uploads: map<Id, Upload>, sessionBytes: nat, chooser: Chooser, pool: Pool, files: Files,
                         replies: seq<Reply>)

  const EMPTY := World(map[], 0, Chooser(None, false, 0, []), Pool(map[], map[], {}, 0), Files(map[], map[]), [])

  function WritesOf(p: Pool, id: Id): seq<Write> { if id in p.writes then p.writes[id] else [] }
  function HashesOf(p: Pool, id: Id): seq<Hash> { if id in p.hashes then p.hashes[id] else [] }
  function LandedOf(f: Files, id: Id): seq<Piece> { if id in f.landed then f.landed[id] else [] }

  // ----- the chooser -----

  function CancelChooser(c: Chooser): Chooser {
    if c.listener.None? then c.(deadline := false)
    else c.(listener := None, deadline := false, resolved := c.resolved + [(c.listener.value, SelectionCancelled)])
  }

  function BeginChooser(c: Chooser): Chooser {
    var c1 := CancelChooser(c);
    c1.(listener := Some(c.parked), deadline := true, parked := c.parked + 1)
  }

  function ResolveChooser(c: Chooser, id: Id): Chooser {
    if c.listener.None? then c
    else c.(listener := None, deadline := false, resolved := c.resolved + [(c.listener.value, FileSelected(id))])
  }

  // ----- the handlers of the UI sequence -----

  function ReplyError(w: World, id: Id, code: Code): World {
    w.(replies := w.replies + [Error(id, code)])
  }

  function HandleStart(w: World, id: Id, name: string, sha: string, declared: int): World {
    if declared <= 0 || declared > MAX_UPLOAD_BYTES then ReplyError(w, id, TooLarge)
    else if w.sessionBytes + declared > MAX_SESSION_BYTES then ReplyError(w, id, SessionQuota)
    else w.(uploads := w.uploads[id := Upload(name, sha, declared, 0, 0, 0, false)])
  }

  function AbandonUpload(w: World, id: Id, code: Code): World {
    ReplyError(w.(uploads := w.uploads - {id}, pool := w.pool.(deletes := w.pool.deletes + {id})), id, code)
  }

  function PostWrite(p: Pool, id: Id, bytes: Bytes): Pool {
    p.(writes := p.writes[id := WritesOf(p, id) + [Write(bytes, Queued)]])
  }

  function HandleChunk(w: World, id: Id, seqNo: int, decoded: Option<Bytes>): World {
    if id !in w.uploads then w
    else
      var up := w.uploads[id];
      if seqNo != up.nextSeq then AbandonUpload(w, id, OutOfOrder)
      else if decoded.None? then AbandonUpload(w, id, BadBase64)
      else if up.received + |decoded.value| > up.declared then AbandonUpload(w, id, TooLarge)
      else w.(uploads := w.uploads[id := up.(nextSeq := up.nextSeq + 1, received := up.received + |decoded.value|,
                                             inFlight := up.inFlight + 1)],
              pool := PostWrite(w.pool, id, decoded.value))
  }

  function PostHash(p: Pool, id: Id): Pool {
    p.(hashes := p.hashes[id := HashesOf(p, id) + [Posted]])
  }

  function FinaliseUpload(w: World, id: Id): World {
    if id !in w.uploads then w else w.(pool := PostHash(w.pool, id))
  }

  function OnChunkWritten(w: World, id: Id, ok: bool): World {
    if id !in w.uploads then w
    else
      var up := w.uploads[id].(inFlight := if w.uploads[id].inFlight > 0 then w.uploads[id].inFlight - 1 else 0);
      var w1 := w.(uploads := w.uploads[id := up]);
      if !ok then AbandonUpload(w1, id, WriteFailed)
      else
        var w2 := w1.(replies := w.replies + [Progress(id, up.received, up.declared)]);
        if up.endPending && up.inFlight == 0 then FinaliseUpload(w2, id) else w2
  }

  function HandleEnd(w: World, id: Id): World {
    if id !in w.uploads then w
    else if w.uploads[id].inFlight > 0 then w.(uploads := w.uploads[id := w.uploads[id].(endPending := true)])
    else FinaliseUpload(w, id)
  }

  /** What the read-back task hands over: an empty digest means it could not
      read the file. */
  function HashOf(digest: Digest, content: Option<Bytes>): string {
    if content.None? then "" else digest(content.value)
  }

  function SizeOf(content: Option<Bytes>): nat {
    if content.None? then 0 else |content.value|
  }

  function OnFinalised(w: World, id: Id, actual: string, total: nat): World {
    if id !in w.uploads then w
    else
      var up := w.uploads[id];
      if actual == "" then AbandonUpload(w, id, HashFailed)
      else if total != up.declared then AbandonUpload(w, id, Truncated)
      else if up.sha != "" && actual != up.sha then AbandonUpload(w, id, HashMismatch)
      else w.(uploads := w.uploads - {id}, sessionBytes := w.sessionBytes + total,
              chooser := ResolveChooser(w.chooser, id),
              replies := w.replies + [Complete(id, w.chooser.listener.Some?)])
  }

  function HandleCancel(w: World, id: Id): World {
    var w1 := w.(chooser := CancelChooser(w.chooser));
    if id in w.uploads then AbandonUpload(w1, id, CancelledByViewer) else ReplyError(w1, id, CancelledByViewer)
  }

  function ResetForNewSession(w: World): World {
    w.(chooser := CancelChooser(w.chooser), uploads := map[], sessionBytes := 0, pool := w.pool.(wipes := w.pool.wipes + 1))
  }

  // ----- the pool -----

  /** How an I/O task ends: it works, or fails having written a proper prefix,
      or nothing at all. */
  datatype Fate = Works | Fails(wrote: Option<nat>)

  function BytesWritten(bytes: Bytes, fate: Fate): Option<nat> {
    match fate
    case Works => Some(|bytes|)
    case Fails(None) => None
    case Fails(Some(k)) => if k < |bytes| then Some(k) else None
  }

  /** AppendChunk: the first chunk creates the file, the others only append. */
  function WriteFile(f: Files, id: Id, n: nat, bytes: Bytes, fate: Fate): (Files, bool) {
    var k := BytesWritten(bytes, fate);
    if n > 0 && id !in f.disk then (f, false)
    else if k.None? then (f, false)
    else
      var kept := if n == 0 then [] else f.disk[id];
      var before := if n == 0 then [] else LandedOf(f, id);
      (Files(f.disk[id := kept + bytes[..k.value]], f.landed[id := before + [Piece(n, k.value)]]), fate == Works)
  }

  function SetWrite(p: Pool, id: Id, n: nat, phase: Phase): Pool
    requires n < |WritesOf(p, id)|
  {
    p.(writes := p.writes[id := WritesOf(p, id)[n := WritesOf(p, id)[n].(phase := phase)]])
  }

  function SetHash(p: Pool, id: Id, j: nat, hash: Hash): Pool
    requires j < |HashesOf(p, id)|
  {
    p.(hashes := p.hashes[id := HashesOf(p, id)[j := hash]])
  }

  function RunWrite(w: World, id: Id, n: nat, fate: Fate): World
    requires n < |WritesOf(w.pool, id)|
  {
    var (files, ok) := WriteFile(w.files, id, n, WritesOf(w.pool, id)[n].bytes, fate);
    w.(files := files, pool := SetWrite(w.pool, id, n, Ran(ok)))
  }

  /** The read-back may find no file, or one it cannot read. */
  function RunHash(w: World, id: Id, j: nat, readable: bool): World
    requires j < |HashesOf(w.pool, id)|
  {
    var content := if id in w.files.disk && readable then Some(w.files.disk[id]) else None;
    w.(pool := SetHash(w.pool, id, j, Read(content, LandedOf(w.files, id))))
  }

  function DeleteFile(f: Files, id: Id): Files {
    Files(f.disk - {id}, f.landed - {id})
  }

  datatype Event =
    | Start(id: Id, name: string, sha: string, declared: int)
    | Chunk(id: Id, seqNo: int, decoded: Option<Bytes>)
    | End(id: Id)
    | Cancel(id: Id)
    | OpenChooser
    | CloseChooser
    | Deadline
    | Reset
    | WriteRuns(id: Id, n: nat, fate: Fate)
    | WriteReplies(id: Id, n: nat)
    | HashRuns(id: Id, j: nat, readable: bool)
    | HashReplies(id: Id, j: nat)
    | DeleteRuns(id: Id)
    | WipeRuns

  /** Anything may come next, except that an id is started once, a task runs once
      and replies once, and a timer fires only while armed. */
  predicate Enabled(w: World, e: Event) {
    match e
    case Start(id, _, _, _) => id !in w.pool.writes
    case WriteRuns(id, n, _) => n < |WritesOf(w.pool, id)| && WritesOf(w.pool, id)[n].phase == Queued
    case WriteReplies(id, n) => n < |WritesOf(w.pool, id)| && WritesOf(w.pool, id)[n].phase.Ran?
    case HashRuns(id, j, _) => j < |HashesOf(w.pool, id)| && HashesOf(w.pool, id)[j] == Posted
    case HashReplies(id, j) => j < |HashesOf(w.pool, id)| && HashesOf(w.pool, id)[j].Read?
    case DeleteRuns(id) => id in w.pool.deletes
    case WipeRuns => w.pool.wipes > 0
    case Deadline => w.chooser.deadline
    case _ => true
  }

  /** One event; one that cannot happen here changes nothing. */
  function Step(w: World, e: Event, digest: Digest): World {
    if !Enabled(w, e) then w else Happen(w, e, digest)
  }

  function Happen(w: World, e: Event, digest: Digest): World
    requires Enabled(w, e)
  {
    match e
    case Start(id, name, sha, declared) =>
      HandleStart(w.(pool := w.pool.(writes := w.pool.writes[id := []])), id, name, sha, declared)
    case Chunk(id, seqNo, decoded) => HandleChunk(w, id, seqNo, decoded)
    case End(id) => HandleEnd(w, id)
    case Cancel(id) => HandleCancel(w, id)
    case OpenChooser => w.(chooser := BeginChooser(w.chooser))
    case CloseChooser => w.(chooser := CancelChooser(w.chooser))
    case Deadline => w.(chooser := CancelChooser(w.chooser))
    case Reset => ResetForNewSession(w)
    case WriteRuns(id, n, fate) => RunWrite(w, id, n, fate)
    case WriteReplies(id, n) =>
      var ok := WritesOf(w.pool, id)[n].phase.ok;
      OnChunkWritten(w.(pool := SetWrite(w.pool, id, n, Replied(ok))), id, ok)
    case HashRuns(id, j, readable) => RunHash(w, id, j, readable)
    case HashReplies(id, j) =>
      var content := HashesOf(w.pool, id)[j].content;
      OnFinalised(w.(pool := SetHash(w.pool, id, j, Delivered)), id, HashOf(digest, content), SizeOf(content))
    case DeleteRuns(id) => w.(files := DeleteFile(w.files, id), pool := w.pool.(deletes := w.pool.deletes - {id}))
    case WipeRuns => w.(files := Files(map[], map[]), pool := w.pool.(wipes := w.pool.wipes - 1))
  }

  datatype History = Boot | Then(past: History, event: Event)

  function Run(h: History, digest: Digest): World {
    match h
    case Boot => EMPTY
    case Then(past, e) => Step(Run(past, digest), e, digest)
  }
}
