/** Safety of the broker over every interleaving of its mutex sections: order
    of delivery, provenance of what is replayed, and the schedules in which
    nobody interferes. */
module SignalingSchedules {
  import opened Signaling
  import opened SignalingBuffers
  import opened SignalingFine

  // ----- replay precedes live traffic -----

  /** No section takes anything out of, or puts anything ahead in, the inbox of
      a connection already registered. */
  lemma SectionInbox(s: SessionState, c: Conn, pc: Pc, now: int, d: Conn)
    requires pc.Dialing? ==> d != c
    ensures PeerOf(s, d).Inbox() <= PeerOf(Section(s, c, pc, now), d).Inbox()
  {
    if pc.Forwarding? {
      assert StoreFrame(s, c.role, pc.frame, now).peers == s.peers;
    }
  }

  ghost predicate ReplayFirst(fs: FineState, d: Conn) {
    d in fs.replays ==> fs.replays[d] <= PeerOf(fs.sess, d).Inbox()
  }

  lemma AdvanceReplayFirst(fs: FineState, c: Conn, now: int, d: Conn)
    requires c in fs.pcs && Consistent(fs) && ReplayFirst(fs, d)
    ensures ReplayFirst(Advance(fs, c, now), d)
  {
    var pc := fs.pcs[c];
    if pc.Dialing? && d == c {
      assert d !in fs.sess.peers.Keys;
    } else {
      SectionInbox(fs.sess, c, pc, now, d);
    }
  }

  /** Everything `register` replays to a connection precedes everything that is
      ever forwarded to it live: the replay is a prefix of all it receives. */
  lemma {:induction false} ReplayPrecedesLive(maxAge: nat, w: Schedule, d: Conn)
    ensures ReplayFirst(FineRun(maxAge, w), d)
  {
    if w.Next? {
      var fs, m := FineRun(maxAge, w.past), w.move;
      ReplayPrecedesLive(maxAge, w.past, d);
      RunConsistent(maxAge, w.past);
      match m
      case Tick(c, at) => if c in fs.pcs { AdvanceReplayFirst(fs, c, at, d); }
      case Write(c) =>
        var p := PeerOf(fs.sess, c);
        if p.queue != [] {
          assert p.written + [p.queue[0]] + p.queue[1..] == p.Inbox();
        }
      case _ =>
    }
  }

  // ----- whose frames are buffered -----

  /** A buffered frame of role r belongs to a connection that is registered or
      has unregistered and not yet discarded. */
  predicate Home(pcs: map<Conn, Pc>, r: Role, f: Frame) {
    f.origin.role == r && f.origin in pcs && (InSession(pcs[f.origin]) || BeforeDiscard(pcs[f.origin]))
  }

  ghost predicate BufferHome(b: Buffer, pcs: map<Conn, Pc>, r: Role) {
    && (forall k :: k in b.sdp ==> Home(pcs, r, b.sdp[k].frame))
    && (forall i :: 0 <= i < |b.ice| ==> Home(pcs, r, b.ice[i].frame))
  }

  /** The buffer of role r after c's goroutine has run the section at pc. */
  function BufferNext(s: SessionState, c: Conn, pc: Pc, now: int, r: Role): Buffer {
    match pc
    case Dialing(_) =>
      if c.role !in s.slots && r != c.role then BufferOf(s, r).(sdp := Purge(SdpBuffer(s, r), now, s.maxAge)) else BufferOf(s, r)
    case Forwarding(f, _) => if r == c.role then Stored(BufferOf(s, r), f, now) else BufferOf(s, r)
    case Discarding(roles) => if r in roles then EMPTY else BufferOf(s, r)
    case DiscardingTail(neg, ended) => if r == c.role || (neg && !ended) then EMPTY else BufferOf(s, r)
    case _ => BufferOf(s, r)
  }

  lemma QuietSection(s: SessionState, c: Conn, pc: Pc, now: int)
    requires !pc.Dialing? && !pc.Forwarding? && !pc.Discarding? && !pc.DiscardingTail?
    ensures Section(s, c, pc, now).sdp == s.sdp && Section(s, c, pc, now).ice == s.ice
  {
  }

  lemma RegisterBuffer(s: SessionState, c: Conn, now: int, r: Role)
    ensures BufferOf(Register(s, c, now), r)
         == if r != c.role then BufferOf(s, r).(sdp := Purge(SdpBuffer(s, r), now, s.maxAge)) else BufferOf(s, r)
  {
    assert Purge(map[], now, s.maxAge) == map[];
  }

  lemma ForwardLockedBuffer(s: SessionState, c: Conn, f: Frame, now: int, r: Role)
    ensures BufferOf(ForwardLocked(s, c.role.Other(), f, now), r) == if r == c.role then Stored(BufferOf(s, r), f, now) else BufferOf(s, r)
  {
    var s1 := StoreFrame(s, c.role, f, now);
    StoreBuffer(s, c.role, f, now, r);
    assert FlagBye(s1, c.role.Other(), f).sdp == s1.sdp && FlagBye(s1, c.role.Other(), f).ice == s1.ice;
  }

  /** What one section does to the buffer of role r. */
  lemma SectionBuffer(s: SessionState, c: Conn, pc: Pc, now: int, r: Role)
    ensures BufferOf(Section(s, c, pc, now), r) == BufferNext(s, c, pc, now, r)
  {
    match pc
    case Dialing(_) => RegisterBuffer(s, c, now, r);
    case Forwarding(f, _) => ForwardLockedBuffer(s, c, f, now, r);
    case Discarding(roles) => DiscardBuffer(s, roles, r);
    case DiscardingTail(neg, ended) => DiscardBuffer(s, if neg && !ended then {Client, Browser} else {c.role}, r);
    case _ => QuietSection(s, c, pc, now);
  }

  /** Frames of other connections keep their home; so do c's own, unless this
      very section discards them. */
  lemma HomeKept(pcs: map<Conn, Pc>, s: SessionState, c: Conn, down: bool, r: Role, f: Frame)
    requires c in pcs && OwnFrames(pcs[c], c) && Home(pcs, r, f)
    requires pcs[c].DiscardingTail? ==> f.origin != c
    ensures Home(pcs[c := NextPc(s, c, pcs[c], down)], r, f)
  {
    NextPcSession(s, c, pcs[c], down);
  }

  lemma StoredHome(pcs: map<Conn, Pc>, s: SessionState, c: Conn, down: bool, b: Buffer, f: Frame, after: Pc, now: int)
    requires c in pcs && pcs[c] == Forwarding(f, after) && OwnFrames(pcs[c], c)
    requires BufferHome(b, pcs[c := NextPc(s, c, pcs[c], down)], c.role)
    ensures BufferHome(Stored(b, f, now), pcs[c := NextPc(s, c, pcs[c], down)], c.role)
  {
    var pc' := NextPc(s, c, pcs[c], down);
    assert Replayable(f.kind) || IsCandidate(f) ==> Home(pcs[c := pc'], c.role, f);
  }

  lemma AdvanceBufferHome(fs: FineState, c: Conn, now: int, r: Role)
    requires c in fs.pcs && Consistent(fs) && BufferHome(BufferOf(fs.sess, r), fs.pcs, r)
    ensures BufferHome(BufferOf(Advance(fs, c, now).sess, r), Advance(fs, c, now).pcs, r)
  {
    var s, pc, b := fs.sess, fs.pcs[c], BufferOf(fs.sess, r);
    var pcs' := fs.pcs[c := NextPc(s, c, pc, fs.down)];
    assert OwnFrames(pc, c);
    SectionBuffer(s, c, pc, now, r);
    if !(pc.DiscardingTail? && r == c.role) {
      forall f | Home(fs.pcs, r, f)
        ensures Home(pcs', r, f)
      {
        HomeKept(fs.pcs, s, c, fs.down, r, f);
      }
      assert BufferHome(b, pcs', r);
      if pc.Forwarding? && r == c.role {
        StoredHome(fs.pcs, s, c, fs.down, b, pc.frame, pc.after, now);
      }
    }
  }

  lemma SetPcHome(b: Buffer, pcs: map<Conn, Pc>, r: Role, c: Conn, pc: Pc)
    requires BufferHome(b, pcs, r) && (c in pcs ==> InSession(pc))
    ensures BufferHome(b, pcs[c := pc], r)
  {
  }

  lemma {:induction false} RunBufferHome(maxAge: nat, w: Schedule, r: Role)
    ensures BufferHome(BufferOf(FineRun(maxAge, w).sess, r), FineRun(maxAge, w).pcs, r)
  {
    if w.Next? {
      var fs, m := FineRun(maxAge, w.past), w.move;
      RunBufferHome(maxAge, w.past, r);
      RunConsistent(maxAge, w.past);
      var b := BufferOf(fs.sess, r);
      match m
      case Tick(c, at) => if c in fs.pcs { AdvanceBufferHome(fs, c, at, r); }
      case Dial(c, first) => if c !in fs.pcs { SetPcHome(b, fs.pcs, r, c, Dialing(first)); }
      case Inbound(c, f) => SetPcHome(b, fs.pcs, r, c, OnInbound(f));
      case Hangup(c) => SetPcHome(b, fs.pcs, r, c, Leaving);
      case Write(c) => assert BufferOf(Drain(fs.sess, c), r) == b;
      case Shutdown =>
    }
  }

  /** Everything a joiner would be replayed is in the buffer, and so has a home. */
  lemma ReplayHasHome(fs: FineState, r: Role, now: int, f: Frame)
    requires BufferHome(BufferOf(fs.sess, r), fs.pcs, r) && f in Replay(fs.sess, r, now)
    ensures Home(fs.pcs, r, f)
  {
    var q := IceQueue(fs.sess, r);
    FreshFramesFrom(q, now, fs.sess.maxAge);
    if f in FreshFrames(q, now, fs.sess.maxAge) {
      var x :| x in q && x.frame == f;
      var i :| 0 <= i < |q| && q[i] == x;
      assert Home(fs.pcs, r, BufferOf(fs.sess, r).ice[i].frame);
    }
  }

  /** Provenance of a replay, frame by frame, under every interleaving: a frame
      replayed to c comes from the counterpart registered now exactly when its
      sender is not between its unregister and its discardReplay. */
  lemma ReplayProvenance(maxAge: nat, w: Schedule, c: Conn, now: int, f: Frame)
    requires f in Replay(FineRun(maxAge, w).sess, c.role.Other(), now)
    ensures var fs, r := FineRun(maxAge, w), c.role.Other();
            && f.origin in fs.pcs
            && (r in fs.sess.slots && fs.sess.slots[r] == f.origin <==> !BeforeDiscard(fs.pcs[f.origin]))
  {
    var fs, r := FineRun(maxAge, w), c.role.Other();
    RunBufferHome(maxAge, w, r);
    RunConsistent(maxAge, w);
    ReplayHasHome(fs, r, now, f);
    assert Registered(fs.sess, f.origin) <==> InSession(fs.pcs[f.origin]);
  }

  /** So with no counterpart's disconnect tail pending, all that is replayed comes
      from the counterpart registered now. */
  lemma ReplayFromPresentCounterpart(maxAge: nat, w: Schedule, c: Conn, now: int)
    requires forall d :: d in FineRun(maxAge, w).pcs && d.role == c.role.Other() ==> !BeforeDiscard(FineRun(maxAge, w).pcs[d])
    ensures var s := FineRun(maxAge, w).sess;
            forall f | f in Replay(s, c.role.Other(), now) ::
              c.role.Other() in s.slots && s.slots[c.role.Other()] == f.origin
  {
    var fs, r := FineRun(maxAge, w), c.role.Other();
    RunBufferHome(maxAge, w, r);
    forall f | f in Replay(fs.sess, r, now)
      ensures r in fs.sess.slots && fs.sess.slots[r] == f.origin
    {
      ReplayHasHome(fs, r, now, f);
      ReplayProvenance(maxAge, w, c, now, f);
    }
  }

  // ----- a coarse step is a schedule in which one goroutine runs alone -----

  /** n sections of c's goroutine with nobody else moving. */
  function Ticks(fs: FineState, c: Conn, at: int, n: nat): FineState
    decreases n
  {
    if n == 0 then fs else Ticks(FineStep(fs, Tick(c, at)), c, at, n - 1)
  }

  /** The same, watching only the session and c's own position. */
  function Solo(s: SessionState, c: Conn, pc: Pc, down: bool, at: int, n: nat): (SessionState, Pc)
    decreases n
  {
    if n == 0 then (s, pc) else Solo(Section(s, c, pc, at), c, NextPc(s, c, pc, down), down, at, n - 1)
  }

  lemma {:induction false} TicksAreSolo(fs: FineState, c: Conn, at: int, n: nat)
    requires c in fs.pcs
    ensures var fs' := Ticks(fs, c, at, n);
            c in fs'.pcs && (fs'.sess, fs'.pcs[c]) == Solo(fs.sess, c, fs.pcs[c], fs.down, at, n)
    decreases n
  {
    if n > 0 {
      TicksAreSolo(FineStep(fs, Tick(c, at)), c, at, n - 1);
    }
  }

  lemma {:induction false} SoloAdd(s: SessionState, c: Conn, pc: Pc, down: bool, at: int, m: nat, n: nat)
    ensures var (s1, pc1) := Solo(s, c, pc, down, at, m);
            Solo(s, c, pc, down, at, m + n) == Solo(s1, c, pc1, down, at, n)
    decreases m
  {
    if m > 0 {
      SoloAdd(Section(s, c, pc, at), c, NextPc(s, c, pc, down), down, at, m - 1, n);
    }
  }

  /** The two halves of `forward` run back to back are Forward. */
  lemma SoloOne(s: SessionState, c: Conn, pc: Pc, down: bool, at: int)
    ensures Solo(s, c, pc, down, at, 1) == (Section(s, c, pc, at), NextPc(s, c, pc, down))
  {
    assert Solo(Section(s, c, pc, at), c, NextPc(s, c, pc, down), down, at, 0) == (Section(s, c, pc, at), NextPc(s, c, pc, down));
  }

  lemma LockedSlots(s: SessionState, to: Role, f: Frame, at: int)
    ensures ForwardLocked(s, to, f, at).slots == s.slots
  {
    assert StoreFrame(s, to.Other(), f, at).slots == s.slots;
  }

  lemma SoloForward(s: SessionState, c: Conn, f: Frame, after: Pc, down: bool, at: int) returns (n: nat)
    ensures Solo(s, c, Forwarding(f, after), down, at, n) == (Forward(s, c.role.Other(), f, at), after)
  {
    var other := c.role.Other();
    var s1 := ForwardLocked(s, other, f, at);
    LockedSlots(s, other, f, at);
    SoloOne(s, c, Forwarding(f, after), down, at);
    if other in s.slots {
      n := 2;
      SoloAdd(s, c, Forwarding(f, after), down, at, 1, 1);
      SoloOne(s1, c, Sending(s.slots[other], f, after), down, at);
    } else {
      n := 1;
    }
  }

  lemma SoloSdp(s: SessionState, c: Conn, f: Frame, down: bool, at: int) returns (n: nat)
    requires IsSdp(f.kind)
    ensures Solo(s, c, Marking(f), down, at, n) == (Receive(s, c, f, at), Reading)
  {
    var s1 := MarkNegotiated(s, c);
    var s2 := SetSaidBye(s1, c, false);
    var s3 := ClearByeReceived(s2, c);
    var k := SoloForward(s3, c, f, Reading, down, at);
    n := k + 3;
    assert Solo(s2, c, ClearingReceived(f), down, at, k + 1) == Solo(s3, c, Forwarding(f, Reading), down, at, k);
    assert Solo(s1, c, ClearingSaid(f), down, at, k + 2) == Solo(s2, c, ClearingReceived(f), down, at, k + 1);
  }

  lemma SoloDiscard(s: SessionState, c: Conn, roles: set<Role>, down: bool, at: int)
    ensures Solo(s, c, Discarding(roles), down, at, 2) == (SetSaidBye(Discard(s, roles), c, true), Reading)
  {
    var s1 := Discard(s, roles);
    assert Solo(s1, c, RecordingBye, down, at, 1) == Solo(SetSaidBye(s1, c, true), c, Reading, down, at, 0);
  }

  lemma SoloBye(s: SessionState, c: Conn, f: Frame, down: bool, at: int) returns (n: nat)
    requires f.kind == Bye
    ensures Solo(s, c, CheckingEcho(f), down, at, n) == (Receive(s, c, f, at), Reading)
  {
    if IsEcho(s, c, f) {
      SoloDiscard(s, c, {c.role}, down, at);
      n := 3;
    } else {
      var after := Discarding({Client, Browser});
      var s1 := Forward(s, c.role.Other(), f, at);
      var k := SoloForward(s, c, f, after, down, at);
      SoloAdd(s, c, Forwarding(f, after), down, at, k, 2);
      SoloDiscard(s1, c, {Client, Browser}, down, at);
      n := k + 3;
      assert Solo(s, c, CheckingEcho(f), down, at, k + 3) == Solo(s, c, Forwarding(f, after), down, at, k + 2);
    }
  }

  /** One inbound frame handled without interference is the coarse Receive. */
  lemma SoloReceive(fs: FineState, c: Conn, f: Frame, at: int) returns (n: nat)
    requires c in fs.pcs && fs.pcs[c] == Reading && f.origin == c
    ensures var fs' := Ticks(FineStep(fs, Inbound(c, f)), c, at, n);
            c in fs'.pcs && fs'.pcs[c] == Reading && fs'.sess == Receive(fs.sess, c, f, at)
  {
    if !ValidKind(f.kind) {
      n := 0;
    } else if IsSdp(f.kind) {
      n := SoloSdp(fs.sess, c, f, fs.down, at);
    } else if f.kind == Bye {
      n := SoloBye(fs.sess, c, f, fs.down, at);
    } else {
      n := SoloForward(fs.sess, c, f, Reading, fs.down, at);
    }
    TicksAreSolo(FineStep(fs, Inbound(c, f)), c, at, n);
  }

  lemma SoloReads(s: SessionState, c: Conn, down: bool, at: int)
    ensures var p, s1 := PeerOf(s, c), Unregister(s, c);
            Solo(s, c, Leaving, down, at, 4)
            == (Discard(s1, if EndsSession(p) then {Client, Browser} else {c.role}), Deciding(p.negotiated, p.byeReceived))
  {
    var p, s1 := PeerOf(s, c), Unregister(s, c);
    assert PeerOf(s1, c) == p;
    var roles := if EndsSession(p) then {Client, Browser} else {c.role};
    assert Solo(s1, c, DiscardingTail(p.negotiated, p.byeReceived), down, at, 1)
        == Solo(Discard(s1, roles), c, Deciding(p.negotiated, p.byeReceived), down, at, 0);
    assert Solo(s1, c, ReadingEnded(p.negotiated), down, at, 2)
        == Solo(s1, c, DiscardingTail(p.negotiated, p.byeReceived), down, at, 1);
    assert Solo(s1, c, ReadingNegotiated, down, at, 3) == Solo(s1, c, ReadingEnded(p.negotiated), down, at, 2);
  }

  lemma SoloDecide(s: SessionState, c: Conn, down: bool, at: int) returns (n: nat)
    ensures var p := PeerOf(s, c);
            Solo(s, c, Deciding(p.negotiated, p.byeReceived), down, at, n)
            == (if SynthesisesBye(p, down) then Forward(s, c.role.Other(), ByeFrom(c), at) else s,
                Gone(SynthesisesBye(p, down), down))
  {
    var p := PeerOf(s, c);
    if down || !EndsSession(p) {
      n := 1;
    } else if p.saidBye {
      n := 2;
      assert Solo(s, c, ReadingSaid(p.negotiated, p.byeReceived), down, at, 1) == Solo(s, c, Gone(false, false), down, at, 0);
    } else {
      var k := SoloForward(s, c, ByeFrom(c), Gone(true, false), down, at);
      n := k + 2;
      assert Solo(s, c, ReadingSaid(p.negotiated, p.byeReceived), down, at, k + 1)
          == Solo(s, c, Forwarding(ByeFrom(c), Gone(true, false)), down, at, k);
    }
  }

  /** A disconnect tail run without interference is the coarse Leave. */
  lemma SoloLeave(fs: FineState, c: Conn, at: int) returns (n: nat)
    requires c in fs.pcs && fs.pcs[c] == Leaving
    ensures var fs' := Ticks(fs, c, at, n);
            && c in fs'.pcs && fs'.sess == Leave(fs.sess, c, fs.down, at)
            && fs'.pcs[c] == Gone(SynthesisesBye(PeerOf(fs.sess, c), fs.down), fs.down)
  {
    var s := fs.sess;
    var p := PeerOf(s, c);
    SoloReads(s, c, fs.down, at);
    var s1 := Discard(Unregister(s, c), if EndsSession(p) then {Client, Browser} else {c.role});
    assert PeerOf(s1, c) == p;
    var k := SoloDecide(s1, c, fs.down, at);
    SoloAdd(s, c, Leaving, fs.down, at, 4, k);
    n := 4 + k;
    TicksAreSolo(fs, c, at, n);
  }

  lemma SoloFirstFrame(s: SessionState, c: Conn, first: Frame, down: bool, at: int) returns (n: nat)
    ensures Solo(s, c, AfterAdvice(first), down, at, n)
         == (if ValidKind(first.kind) then Forward(s, c.role.Other(), first, at) else s, Reading)
  {
    if ValidKind(first.kind) {
      n := SoloForward(s, c, first, Reading, down, at);
    } else {
      n := 0;
    }
  }

  /** A join run without interference is the coarse Join. */
  lemma SoloJoin(fs: FineState, c: Conn, first: Frame, at: int) returns (n: nat)
    requires c in fs.pcs && fs.pcs[c] == Dialing(first) && c.role !in fs.sess.slots
    ensures var fs' := Ticks(fs, c, at, n);
            c in fs'.pcs && fs'.pcs[c] == Reading && fs'.sess == Join(fs.sess, c, first, at)
  {
    var other, down := c.role.Other(), fs.down;
    var s1 := Register(fs.sess, c, at);
    if other in s1.slots {
      var k := SoloFirstFrame(s1, c, first, down, at);
      n := k + 2;
      assert Solo(s1, c, Advising(first), down, at, k + 1) == Solo(s1, c, AfterAdvice(first), down, at, k);
    } else {
      var s2 := Deliver(s1, c, AbsentNotice(c));
      var k := SoloFirstFrame(s2, c, first, down, at);
      n := k + 3;
      assert Solo(s1, c, Sending(c, AbsentNotice(c), AfterAdvice(first)), down, at, k + 1)
          == Solo(s2, c, AfterAdvice(first), down, at, k);
      assert Solo(s1, c, Advising(first), down, at, k + 2)
          == Solo(s1, c, Sending(c, AbsentNotice(c), AfterAdvice(first)), down, at, k + 1);
    }
    TicksAreSolo(fs, c, at, n);
  }

  // ----- what only the coarse model promises -----

  /** A schedule in which a viewer is replayed the offer of a browser that has
      already left: the join falls between the browser's unregister and its
      discardReplay. */
  function DepartedOffer(b: Conn, offer: Frame, viewer: Conn, first: Frame): Schedule {
    Next(Next(Next(Next(BrowserOffers(b, offer), Hangup(b)), Tick(b, 0)), Dial(viewer, first)), Tick(viewer, 0))
  }

  /** The browser registers, is advised that it is alone, and its first frame,
      the offer, is buffered. */
  function BrowserOffers(b: Conn, offer: Frame): Schedule {
    Next(Next(Next(Next(Next(Idle, Dial(b, offer)), Tick(b, 0)), Tick(b, 0)), Tick(b, 0)), Tick(b, 0))
  }

  /** One tick of b, when b is the only connection. */
  lemma LoneTick(maxAge: nat, w: Schedule, b: Conn, pc: Pc)
    requires FineRun(maxAge, w).pcs == map[b := pc]
    ensures var fs, fs' := FineRun(maxAge, w), FineRun(maxAge, Next(w, Tick(b, 0)));
            fs'.pcs == map[b := NextPc(fs.sess, b, pc, fs.down)] && fs'.sess == Section(fs.sess, b, pc, 0)
  {
  }

  lemma OfferIsBuffered(maxAge: nat, b: Conn, offer: Frame)
    requires b.role == Browser && offer.origin == b && offer.kind == Offer
    ensures var fs := FineRun(maxAge, BrowserOffers(b, offer));
            && fs.pcs == map[b := Reading] && fs.sess.slots == map[Browser := b]
            && fs.sess.sdp == map[Browser := map[Offer := Stamped(offer, 0)]] && fs.sess.ice == map[]
  {
    assert FineRun(maxAge, Idle) == FineInit(maxAge);
    var w1 := Next(Idle, Dial(b, offer));
    assert FineRun(maxAge, w1).pcs == map[b := Dialing(offer)] && FineRun(maxAge, w1).sess == Init(maxAge);
    LoneTick(maxAge, w1, b, Dialing(offer));
    var w2 := Next(w1, Tick(b, 0));
    LoneTick(maxAge, w2, b, Advising(offer));
    var w3 := Next(w2, Tick(b, 0));
    LoneTick(maxAge, w3, b, Sending(b, AbsentNotice(b), Forwarding(offer, Reading)));
    var w4 := Next(w3, Tick(b, 0));
    LoneTick(maxAge, w4, b, Forwarding(offer, Reading));
  }

  /** So provenance of the replay, a theorem of the coarse model, fails in the
      fine one without the condition of ReplayFromPresentCounterpart. */
  lemma DepartedOfferIsReplayed(maxAge: nat, b: Conn, offer: Frame, viewer: Conn, first: Frame)
    requires b.role == Browser && viewer.role == Client
    requires offer.origin == b && offer.kind == Offer && first.origin == viewer
    ensures var fs := FineRun(maxAge, DepartedOffer(b, offer, viewer, first));
            fs.sess.slots == map[Client := viewer] && PeerOf(fs.sess, viewer).Inbox() == [offer]
  {
    var w7 := Next(Next(BrowserOffers(b, offer), Hangup(b)), Tick(b, 0));
    BrowserLeaves(maxAge, b, offer);
    DepartedJoin(FineRun(maxAge, w7).sess, viewer, offer);
    var fs8 := FineRun(maxAge, Next(w7, Dial(viewer, first)));
    assert fs8.pcs[viewer] == Dialing(first) && fs8.sess == FineRun(maxAge, w7).sess;
    assert FineRun(maxAge, DepartedOffer(b, offer, viewer, first)) == Advance(fs8, viewer, 0);
  }

  lemma BrowserLeaves(maxAge: nat, b: Conn, offer: Frame)
    requires b.role == Browser && offer.origin == b && offer.kind == Offer
    ensures var fs := FineRun(maxAge, Next(Next(BrowserOffers(b, offer), Hangup(b)), Tick(b, 0)));
            && fs.pcs.Keys == {b} && fs.sess.slots == map[]
            && fs.sess.sdp == map[Browser := map[Offer := Stamped(offer, 0)]] && fs.sess.ice == map[]
  {
    OfferIsBuffered(maxAge, b, offer);
    var fs5 := FineRun(maxAge, BrowserOffers(b, offer));
    var w6 := Next(BrowserOffers(b, offer), Hangup(b));
    assert FineRun(maxAge, w6) == fs5.(pcs := map[b := Leaving]);
    LoneTick(maxAge, w6, b, Leaving);
    assert Unregister(fs5.sess, b).slots == map[];
  }

  lemma DepartedJoin(s: SessionState, viewer: Conn, offer: Frame)
    requires s.slots == map[] && s.ice == map[] && s.sdp == map[Browser := map[Offer := Stamped(offer, 0)]]
    requires viewer.role == Client
    ensures Register(s, viewer, 0).slots == map[Client := viewer]
    ensures PeerOf(Register(s, viewer, 0), viewer).Inbox() == [offer]
  {
    assert Replay(s, Browser, 0) == [offer];
    AcceptAllTakes(NEW_PEER, [offer]);
  }
}
