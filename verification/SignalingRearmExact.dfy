/** When an ended viewer can harm the browser's next session: exactly when it is
    not safe at the moment, as SignalingRearmFine says.  For every position of its
    goroutine that is not safe there is a schedule in which it does harm. */
module SignalingRearmExact {
  import opened Options
  import opened Signaling
  import opened SignalingHistory
  import opened SignalingBuffers
  import opened SignalingFine
  import opened SignalingSchedules
  import opened SignalingRearmFine

  // ----- building schedules -----

  /** n sections of c's goroutine. */
  function Ticked(w: Schedule, c: Conn, at: int, n: nat): Schedule {
    if n == 0 then w else Next(Ticked(w, c, at, n - 1), Tick(c, at))
  }

  lemma {:induction false} TicksSnoc(fs: FineState, c: Conn, at: int, n: nat)
    ensures Ticks(fs, c, at, n + 1) == FineStep(Ticks(fs, c, at, n), Tick(c, at))
    decreases n
  {
    if n > 0 {
      TicksSnoc(FineStep(fs, Tick(c, at)), c, at, n - 1);
    }
  }

  lemma {:induction false} TickedRuns(maxAge: nat, w: Schedule, c: Conn, at: int, n: nat)
    ensures FineRun(maxAge, Ticked(w, c, at, n)) == Ticks(FineRun(maxAge, w), c, at, n)
  {
    if n > 0 {
      TickedRuns(maxAge, w, c, at, n - 1);
      TicksSnoc(FineRun(maxAge, w), c, at, n - 1);
    }
  }

  /** Nobody but c has moved. */
  predicate OnlyMoved(fs: FineState, fs': FineState, c: Conn) {
    c in fs'.pcs && fs'.pcs == fs.pcs[c := fs'.pcs[c]]
  }

  lemma {:induction false} TicksMoveOne(fs: FineState, c: Conn, at: int, n: nat)
    requires c in fs.pcs
    ensures OnlyMoved(fs, Ticks(fs, c, at, n), c)
    decreases n
  {
    if n > 0 {
      TicksMoveOne(FineStep(fs, Tick(c, at)), c, at, n - 1);
    }
  }

  lemma {:induction false} TickedGoesOn(w: Schedule, c: Conn, at: int, n: nat, d: Conn)
    ensures GoesOn(Ticked(w, c, at, n), w, d)
  {
    if n > 0 {
      TickedGoesOn(w, c, at, n - 1, d);
    }
  }

  lemma {:induction false} GoesOnFurther(w2: Schedule, w1: Schedule, w: Schedule, c: Conn)
    requires GoesOn(w2, w1, c) && GoesOn(w1, w, c)
    ensures GoesOn(w2, w, c)
  {
    if w2 != w1 {
      GoesOnFurther(w2.past, w1, w, c);
    }
  }

  /** One inbound frame of b, handled without interference; to d it is neither an
      offer nor an answer of its own. */
  lemma Receives(maxAge: nat, w: Schedule, b: Conn, f: Frame, at: int, d: Conn) returns (w': Schedule)
    requires b in FineRun(maxAge, w).pcs && FineRun(maxAge, w).pcs[b] == Reading && f.origin == b && d != b
    ensures var fs, fs' := FineRun(maxAge, w), FineRun(maxAge, w');
            OnlyMoved(fs, fs', b) && fs'.pcs[b] == Reading && fs'.sess == Receive(fs.sess, b, f, at)
    ensures GoesOn(w', w, d)
  {
    var w1 := Next(w, Inbound(b, f));
    var n := SoloReceive(FineRun(maxAge, w), b, f, at);
    TickedRuns(maxAge, w1, b, at, n);
    TicksMoveOne(FineRun(maxAge, w1), b, at, n);
    w' := Ticked(w1, b, at, n);
    TickedGoesOn(w1, b, at, n, d);
    assert GoesOn(w, w, d) && GoesOn(w1, w, d);
    GoesOnFurther(w', w1, w, d);
  }

  lemma JoinsAlone(maxAge: nat, w: Schedule, b: Conn, first: Frame, at: int, d: Conn) returns (w': Schedule)
    requires b !in FineRun(maxAge, w).pcs && b.role !in FineRun(maxAge, w).sess.slots && first.origin == b
    ensures var fs, fs' := FineRun(maxAge, w), FineRun(maxAge, w');
            OnlyMoved(fs, fs', b) && fs'.pcs[b] == Reading && fs'.sess == Join(fs.sess, b, first, at)
    ensures GoesOn(w', w, d)
  {
    var w1 := Next(w, Dial(b, first));
    assert FineRun(maxAge, w1) == FineRun(maxAge, w).(pcs := FineRun(maxAge, w).pcs[b := Dialing(first)]);
    var fs, fs1 := FineRun(maxAge, w), FineRun(maxAge, w1);
    var n := JoinTicks(fs1, b, first, at);
    TickedRuns(maxAge, w1, b, at, n);
    MovedTwice(fs, fs1, Ticks(fs1, b, at, n), b);
    w' := Ticked(w1, b, at, n);
    TickedGoesOn(w1, b, at, n, d);
    assert GoesOn(w, w, d) && GoesOn(w1, w, d);
    GoesOnFurther(w', w1, w, d);
  }

  lemma MovedTwice(fs: FineState, fs1: FineState, fs2: FineState, c: Conn)
    requires OnlyMoved(fs, fs1, c) && OnlyMoved(fs1, fs2, c)
    ensures OnlyMoved(fs, fs2, c)
  {
  }

  lemma JoinTicks(fs: FineState, c: Conn, first: Frame, at: int) returns (n: nat)
    requires c in fs.pcs && fs.pcs[c] == Dialing(first) && c.role !in fs.sess.slots
    ensures var fs' := Ticks(fs, c, at, n);
            OnlyMoved(fs, fs', c) && fs'.pcs[c] == Reading && fs'.sess == Join(fs.sess, c, first, at)
  {
    n := SoloJoin(fs, c, first, at);
    TicksMoveOne(fs, c, at, n);
  }

  /** One section of c. */
  lemma TicksOnce(maxAge: nat, w: Schedule, c: Conn, at: int)
    requires c in FineRun(maxAge, w).pcs
    ensures var w' := Next(w, Tick(c, at));
            GoesOn(w', w, c) && FineRun(maxAge, w') == Advance(FineRun(maxAge, w), c, at)
  {
    assert GoesOn(w, w, c);
  }

  /** How far a goroutine in its session is from its next read. */
  function Rank(pc: Pc): nat {
    match pc
    case RecordingBye => 1
    case Discarding(_) => 2
    case Sending(_, _, after) => 1 + Rank(after)
    case Forwarding(_, after) => 2 + Rank(after)
    case CheckingEcho(_) => 5
    case ClearingReceived(_) => 3
    case ClearingSaid(_) => 4
    case Marking(_) => 5
    case Advising(_) => 4
    case _ => 0
  }

  lemma NextPcRank(s: SessionState, c: Conn, pc: Pc, down: bool)
    requires InSession(pc) && pc != Reading && pc != Leaving
    ensures Rank(NextPc(s, c, pc, down)) < Rank(pc)
  {
    match pc
    case Advising(first) => assert Rank(AfterAdvice(first)) <= 2 + Rank(Reading);
    case CheckingEcho(f) => assert Rank(Forwarding(f, Discarding({Client, Browser}))) == 2 + Rank(Discarding({Client, Browser}));
    case ClearingReceived(f) => assert Rank(Forwarding(f, Reading)) == 2 + Rank(Reading);
    case _ =>
  }

  /** b goes on until it reads or leaves. */
  lemma {:induction false} Drive(maxAge: nat, w: Schedule, b: Conn, c: Conn) returns (w': Schedule)
    requires b in FineRun(maxAge, w).pcs && InSession(FineRun(maxAge, w).pcs[b])
    ensures var fs, fs' := FineRun(maxAge, w), FineRun(maxAge, w');
            && GoesOn(w', w, c) && OnlyMoved(fs, fs', b) && fs'.sess.slots == fs.sess.slots
            && (fs'.pcs[b] == Reading || fs'.pcs[b] == Leaving)
    decreases Rank(FineRun(maxAge, w).pcs[b])
  {
    var fs := FineRun(maxAge, w);
    var pc := fs.pcs[b];
    w' := w;
    if pc != Reading && pc != Leaving {
      var w1 := Next(w, Tick(b, 0));
      var fs1 := FineRun(maxAge, w1);
      RunConsistent(maxAge, w);
      InSessionSlots(fs, b, 0);
      NextPcSession(fs.sess, b, pc, fs.down);
      NextPcRank(fs.sess, b, pc, fs.down);
      w' := Drive(maxAge, w1, b, c);
      assert GoesOn(w, w, c) && GoesOn(w1, w, c);
      GoesOnFurther(w', w1, w, c);
      MovedTwice(fs, fs1, FineRun(maxAge, w'), b);
    }
  }

  lemma InSessionSlots(fs: FineState, b: Conn, at: int)
    requires Consistent(fs) && b in fs.pcs && InSession(fs.pcs[b]) && fs.pcs[b] != Leaving
    ensures Advance(fs, b, at).sess.slots == fs.sess.slots
  {
    assert Registered(fs.sess, b) <==> InSession(fs.pcs[b]);
    SectionSlots(fs.sess, b, fs.pcs[b], at);
  }

  lemma {:induction false} NewId(s: set<Conn>) returns (n: nat)
    ensures forall x :: x in s ==> x.id < n
    decreases |s|
  {
    n := 0;
    if s != {} {
      var x :| x in s;
      n := NewId(s - {x});
      n := if x.id < n then n else x.id + 1;
      assert forall y :: y in s ==> y == x || y in s - {x};
    }
  }

  /** Somebody is registered opposite c and has an offer in the buffer. */
  ghost predicate Offered(fs: FineState, c: Conn, b: Conn) {
    b.role == c.role.Other() && Registered(fs.sess, b) && b in fs.pcs && Offer in SdpBuffer(fs.sess, b.role)
  }

  lemma OfferStored(s: SessionState, b: Conn, offer: Frame, at: int)
    requires offer.kind == Offer && (b.role !in s.slots || Registered(s, b))
    ensures b.role in s.slots ==> Offer in SdpBuffer(Receive(s, b, offer, at), b.role) && Receive(s, b, offer, at).slots == s.slots
    ensures b.role !in s.slots ==> Offer in SdpBuffer(Join(s, b, offer, at), b.role) && Join(s, b, offer, at).slots == s.slots[b.role := b]
  {
    if b.role in s.slots {
      StepBuffer(s, Sends(b, offer, at), b.role);
      StepSlots(s, Sends(b, offer, at));
    } else {
      JoinBuffer(s, b, offer, at, b.role);
      StepSlots(s, Joins(b, offer, at));
    }
  }

  /** A new connection joins opposite c with an offer. */
  lemma NewcomerOffers(maxAge: nat, w: Schedule, c: Conn) returns (w': Schedule, b: Conn)
    requires c in FineRun(maxAge, w).pcs && c.role.Other() !in FineRun(maxAge, w).sess.slots
    ensures var fs, fs' := FineRun(maxAge, w), FineRun(maxAge, w');
            && GoesOn(w', w, c) && Offered(fs', c, b) && b != c && c in fs'.pcs && fs'.pcs[c] == fs.pcs[c]
            && fs'.sess.slots == fs.sess.slots[b.role := b]
  {
    var fs := FineRun(maxAge, w);
    var n := NewId(fs.pcs.Keys);
    b := Conn(c.role.Other(), n);
    var offer := Frame(b, Offer, true, "");
    w' := JoinsAlone(maxAge, w, b, offer, 0, c);
    OfferStored(fs.sess, b, offer, 0);
  }

  /** The one registered opposite c sends an offer, or leaves and a new one does. */
  lemma SomebodyOffers(maxAge: nat, w: Schedule, c: Conn) returns (w': Schedule, b: Conn)
    requires c in FineRun(maxAge, w).pcs && Registered(FineRun(maxAge, w).sess, c)
    ensures var fs, fs' := FineRun(maxAge, w), FineRun(maxAge, w');
            && GoesOn(w', w, c) && Offered(fs', c, b) && b != c && c in fs'.pcs && fs'.pcs[c] == fs.pcs[c] && Registered(fs'.sess, c)
  {
    var fs, other := FineRun(maxAge, w), c.role.Other();
    RunConsistent(maxAge, w);
    if other !in fs.sess.slots {
      w', b := NewcomerOffers(maxAge, w, c);
    } else {
      w', b := HolderOffers(maxAge, w, c, fs.sess.slots[other]);
    }
  }

  lemma HolderOffers(maxAge: nat, w: Schedule, c: Conn, b0: Conn) returns (w': Schedule, b: Conn)
    requires c in FineRun(maxAge, w).pcs && Registered(FineRun(maxAge, w).sess, c)
    requires Registered(FineRun(maxAge, w).sess, b0) && b0.role == c.role.Other()
    ensures var fs, fs' := FineRun(maxAge, w), FineRun(maxAge, w');
            && GoesOn(w', w, c) && Offered(fs', c, b) && b != c && c in fs'.pcs && fs'.pcs[c] == fs.pcs[c] && Registered(fs'.sess, c)
  {
    RunConsistent(maxAge, w);
    assert Registered(FineRun(maxAge, w).sess, b0) <==> b0 in FineRun(maxAge, w).pcs && InSession(FineRun(maxAge, w).pcs[b0]);
    var w1 := Drive(maxAge, w, b0, c);
    var fs1 := FineRun(maxAge, w1);
    if fs1.pcs[b0] == Reading {
      b := b0;
      var offer := Frame(b, Offer, true, "");
      w' := Receives(maxAge, w1, b, offer, 0, c);
      OfferStored(fs1.sess, b, offer, 0);
      GoesOnFurther(w', w1, w, c);
    } else {
      var w2 := Next(w1, Tick(b0, 0));
      assert FineRun(maxAge, w2).sess.slots == fs1.sess.slots - {b0.role};
      w', b := NewcomerOffers(maxAge, w2, c);
      assert GoesOn(w1, w1, c) && GoesOn(w2, w1, c);
      GoesOnFurther(w', w2, w1, c);
      GoesOnFurther(w', w1, w, c);
    }
  }

  // ----- every unsafe position can do harm -----

  /** Wiping both buffers, by a bye or in the disconnect tail. */
  predicate Wiping(pc: Pc, c: Conn) {
    (pc.Discarding? && c.role.Other() in pc.roles) || pc == DiscardingTail(true, false)
  }

  lemma WipeHarms(fs: FineState, c: Conn, b: Conn)
    requires c in fs.pcs && Wiping(fs.pcs[c], c) && Offered(fs, c, b) && b != c
    ensures HarmsOne(fs, c, 0, b) && BufferOf(Advance(fs, c, 0).sess, b.role) == EMPTY
  {
    DiscardBuffer(fs.sess, if fs.pcs[c].Discarding? then fs.pcs[c].roles else {Client, Browser}, b.role);
    assert Offer in BufferOf(fs.sess, b.role).sdp && Offer !in EMPTY.sdp;
  }

  /** A bye about to be forwarded. */
  lemma ForwardHarms(maxAge: nat, w: Schedule, c: Conn, b: Conn)
    requires var fs := FineRun(maxAge, w);
             && c in fs.pcs && fs.pcs[c].Forwarding? && fs.pcs[c].frame.kind == Bye
             && b != c && b.role == c.role.Other() && Registered(fs.sess, b)
    ensures var w' := Next(w, Tick(c, 0));
            GoesOn(w', w, c) && HarmsOne(FineRun(maxAge, w'), c, 0, b)
  {
    var fs := FineRun(maxAge, w);
    TicksOnce(maxAge, w, c, 0);
    LockedSlots(fs.sess, c.role.Other(), fs.pcs[c].frame, 0);
    assert FineRun(maxAge, Next(w, Tick(c, 0))).pcs[c] == Sending(b, fs.pcs[c].frame, fs.pcs[c].after);
  }

  // ----- an offer or answer under way -----

  predicate PastMarking(pc: Pc) {
    match pc
    case Forwarding(_, after) => PastMarking(after)
    case Sending(_, _, after) => PastMarking(after)
    case _ => pc.ClearingSaid? || pc.ClearingReceived?
  }

  /** A goroutine past the marking of its negotiation finds itself marked. */
  ghost predicate Marked(fs: FineState, c: Conn) {
    c in fs.pcs && PastMarking(fs.pcs[c]) ==> c in fs.sess.peers && PeerOf(fs.sess, c).negotiated
  }

  lemma SectionKeepsMarked(s: SessionState, d: Conn, pc: Pc, now: int, c: Conn)
    requires c in s.peers && PeerOf(s, c).negotiated && (pc.Dialing? ==> d != c)
    ensures var s' := Section(s, d, pc, now);
            c in s'.peers && PeerOf(s', c).negotiated
  {
    if pc.Forwarding? {
      assert StoreFrame(s, d.role, pc.frame, now).peers == s.peers;
    }
  }

  lemma NextPcPast(s: SessionState, c: Conn, pc: Pc, down: bool)
    requires !PastMarking(pc) && !pc.Marking?
    ensures !PastMarking(NextPc(s, c, pc, down))
  {
    match pc
    case Advising(first) => assert !PastMarking(Forwarding(first, Reading));
    case CheckingEcho(f) => assert !PastMarking(Forwarding(f, Discarding({Client, Browser})));
    case ReadingSaid(_, _) => assert !PastMarking(Forwarding(ByeFrom(c), Gone(true, false)));
    case _ =>
  }

  lemma TickKeepsMarked(fs: FineState, d: Conn, at: int, c: Conn)
    requires d in fs.pcs && Marked(fs, c)
    ensures Marked(Advance(fs, d, at), c)
  {
    if c in fs.pcs && PastMarking(fs.pcs[c]) {
      SectionKeepsMarked(fs.sess, d, fs.pcs[d], at, c);
    } else if d == c && !fs.pcs[c].Marking? {
      NextPcPast(fs.sess, c, fs.pcs[c], fs.down);
    }
  }

  lemma {:induction false} RunKeepsMarked(maxAge: nat, w: Schedule, c: Conn)
    ensures Marked(FineRun(maxAge, w), c)
  {
    if w.Next? {
      var fs, m := FineRun(maxAge, w.past), w.move;
      RunKeepsMarked(maxAge, w.past, c);
      RunConsistent(maxAge, w.past);
      MoveKeepsMarked(fs, m, c);
    }
  }

  lemma MoveKeepsMarked(fs: FineState, m: Move, c: Conn)
    requires Consistent(fs) && Marked(fs, c)
    ensures Marked(FineStep(fs, m), c)
  {
    match m
    case Tick(d, at) => if d in fs.pcs { TickKeepsMarked(fs, d, at, c); }
    case Inbound(d, f) => SetPcMarked(fs, d, OnInbound(f), c);
    case Dial(d, first) => SetPcMarked(fs, d, Dialing(first), c);
    case Hangup(d) => SetPcMarked(fs, d, Leaving, c);
    case Write(d) => if d in fs.sess.peers { assert SameFlags(PeerOf(Drain(fs.sess, d), c), PeerOf(fs.sess, c)); }
    case Shutdown =>
  }

  lemma SetPcMarked(fs: FineState, d: Conn, pc: Pc, c: Conn)
    requires Marked(fs, c) && (pc.Dialing? || pc == Leaving || exists f :: pc == OnInbound(f))
    ensures Marked(fs.(pcs := fs.pcs[d := pc]), c)
  {
    assert !PastMarking(pc);
  }

  /** The negotiation erases the bye. */
  lemma FinishesNegotiating(maxAge: nat, w: Schedule, c: Conn) returns (w': Schedule)
    requires var fs := FineRun(maxAge, w);
             c in fs.pcs && fs.pcs[c].ClearingReceived? && Registered(fs.sess, c)
    ensures var fs, fs' := FineRun(maxAge, w), FineRun(maxAge, w');
            && GoesOn(w', w, c) && OnlyMoved(fs, fs', c) && fs'.pcs[c] == Reading && fs'.sess.slots == fs.sess.slots
            && BufferOf(fs'.sess, c.role.Other()) == BufferOf(fs.sess, c.role.Other())
            && PeerOf(fs'.sess, c).negotiated && !PeerOf(fs'.sess, c).byeReceived
  {
    var fs := FineRun(maxAge, w);
    var f := fs.pcs[c].frame;
    RunKeepsMarked(maxAge, w, c);
    RunConsistent(maxAge, w);
    TicksOnce(maxAge, w, c, 0);
    var w1 := Next(w, Tick(c, 0));
    var fs1 := FineRun(maxAge, w1);
    assert fs1.sess == ClearByeReceived(fs.sess, c) && fs1.pcs == fs.pcs[c := Forwarding(f, Reading)];
    var k := ForwardTicks(fs1, c, f);
    TickedRuns(maxAge, w1, c, 0, k);
    TickedGoesOn(w1, c, 0, k, c);
    w' := Ticked(w1, c, 0, k);
    GoesOnFurther(w', w1, w, c);
    MovedTwice(fs, fs1, FineRun(maxAge, w'), c);
  }

  lemma ForwardTicks(fs: FineState, c: Conn, f: Frame) returns (k: nat)
    requires c in fs.pcs && fs.pcs[c] == Forwarding(f, Reading) && SlotsKnown(fs.sess)
    ensures var fs' := Ticks(fs, c, 0, k);
            && OnlyMoved(fs, fs', c) && fs'.pcs[c] == Reading && fs'.sess.slots == fs.sess.slots
            && BufferOf(fs'.sess, c.role.Other()) == BufferOf(fs.sess, c.role.Other()) && PeerOf(fs'.sess, c) == PeerOf(fs.sess, c)
  {
    k := SoloForward(fs.sess, c, f, Reading, fs.down, 0);
    TicksAreSolo(fs, c, 0, k);
    TicksMoveOne(fs, c, 0, k);
    ForwardSlots(fs.sess, c.role.Other(), f, 0);
    ForwardPeer(fs.sess, c.role.Other(), f, 0, c);
    ForwardBuffer(fs.sess, c.role.Other(), f, 0, c.role.Other());
  }

  lemma TailReads(s: SessionState, c: Conn, down: bool)
    ensures Solo(s, c, Leaving, down, 0, 3) == (Unregister(s, c), DiscardingTail(PeerOf(s, c).negotiated, PeerOf(s, c).byeReceived))
  {
    var p, s1 := PeerOf(s, c), Unregister(s, c);
    assert PeerOf(s1, c) == p;
    assert Solo(s1, c, ReadingEnded(p.negotiated), down, 0, 1) == Solo(s1, c, DiscardingTail(p.negotiated, p.byeReceived), down, 0, 0);
    assert Solo(s1, c, ReadingNegotiated, down, 0, 2) == Solo(s1, c, ReadingEnded(p.negotiated), down, 0, 1);
  }

  /** A connection hangs up and reads its flags. */
  lemma HangsUp(maxAge: nat, w: Schedule, c: Conn) returns (w': Schedule)
    requires c in FineRun(maxAge, w).pcs && FineRun(maxAge, w).pcs[c] == Reading
    ensures var fs, fs' := FineRun(maxAge, w), FineRun(maxAge, w');
            && GoesOn(w', w, c) && OnlyMoved(fs, fs', c) && fs'.sess == Unregister(fs.sess, c)
            && fs'.pcs[c] == DiscardingTail(PeerOf(fs.sess, c).negotiated, PeerOf(fs.sess, c).byeReceived)
  {
    var fs := FineRun(maxAge, w);
    var w1 := Next(w, Hangup(c));
    var fs1 := FineRun(maxAge, w1);
    assert fs1 == fs.(pcs := fs.pcs[c := Leaving]);
    TailReads(fs.sess, c, fs.down);
    TicksAreSolo(fs1, c, 0, 3);
    TickedRuns(maxAge, w1, c, 0, 3);
    TicksMoveOne(fs1, c, 0, 3);
    w' := Ticked(w1, c, 0, 3);
    MovedTwice(fs, fs1, Ticks(fs1, c, 0, 3), c);
    TickedGoesOn(w1, c, 0, 3, c);
    assert GoesOn(w, w, c) && GoesOn(w1, w, c);
    GoesOnFurther(w', w1, w, c);
  }

  /** An offer or answer that was under way when the bye came, and then a hangup:
      the disconnect tail does not know of the bye. */
  lemma ForgetsTheBye(maxAge: nat, w: Schedule, c: Conn) returns (w': Schedule)
    requires var fs := FineRun(maxAge, w);
             c in fs.pcs && fs.pcs[c].ClearingReceived? && Registered(fs.sess, c)
    ensures var fs, fs' := FineRun(maxAge, w), FineRun(maxAge, w');
            && GoesOn(w', w, c) && OnlyMoved(fs, fs', c) && fs'.pcs[c] == DiscardingTail(true, false)
            && fs'.sess.slots == fs.sess.slots - {c.role} && BufferOf(fs'.sess, c.role.Other()) == BufferOf(fs.sess, c.role.Other())
  {
    var w1 := FinishesNegotiating(maxAge, w, c);
    w' := HangsUp(maxAge, w1, c);
    GoesOnFurther(w', w1, w, c);
    MovedTwice(FineRun(maxAge, w), FineRun(maxAge, w1), FineRun(maxAge, w'), c);
  }

  lemma NegotiatingHarms(maxAge: nat, w: Schedule, c: Conn) returns (w': Schedule)
    requires var fs := FineRun(maxAge, w);
             c in fs.pcs && fs.pcs[c].ClearingReceived? && Registered(fs.sess, c)
    ensures GoesOn(w', w, c) && Harms(FineRun(maxAge, w'), c)
  {
    var w1, b := SomebodyOffers(maxAge, w, c);
    w' := ForgetsTheBye(maxAge, w1, c);
    GoesOnFurther(w', w1, w, c);
    var fs' := FineRun(maxAge, w');
    assert BufferOf(fs'.sess, b.role).sdp == SdpBuffer(fs'.sess, b.role);
    WipeHarms(fs', c, b);
  }

  // ----- the exact condition -----

  lemma {:induction false} SafeSlots(s: SessionState, s': SessionState, pc: Pc, c: Conn)
    requires s'.slots == s.slots
    ensures Safe(s', pc, c) == Safe(s, pc, c)
  {
    if pc.Forwarding? || pc.Sending? {
      SafeSlots(s, s', pc.after, c);
    }
  }

  /** Positions from which one more section leads to another unsafe one. */
  lemma UnsafeGoesOn(fs: FineState, c: Conn)
    requires Consistent(fs) && c in fs.pcs && InSession(fs.pcs[c]) && !Safe(fs.sess, fs.pcs[c], c)
    requires var pc := fs.pcs[c];
             || (pc.Forwarding? && pc.frame.kind != Bye)
             || (pc.Sending? && !(pc.frame.kind == Bye && pc.to != c && Registered(fs.sess, pc.to)))
             || pc.Advising? || pc.Marking? || pc.ClearingSaid?
    ensures var fs' := Advance(fs, c, 0);
            InSession(fs'.pcs[c]) && !Safe(fs'.sess, fs'.pcs[c], c) && Rank(fs'.pcs[c]) < Rank(fs.pcs[c])
  {
    var s, pc := fs.sess, fs.pcs[c];
    InSessionSlots(fs, c, 0);
    NextPcSession(s, c, pc, fs.down);
    NextPcRank(s, c, pc, fs.down);
    SafeSlots(s, Advance(fs, c, 0).sess, NextPc(s, c, pc, fs.down), c);
    NextPcUnsafe(s, c, pc, fs.down);
  }

  lemma NextPcUnsafe(s: SessionState, c: Conn, pc: Pc, down: bool)
    requires InSession(pc) && !Safe(s, pc, c)
    requires || (pc.Forwarding? && pc.frame.kind != Bye)
             || (pc.Sending? && !(pc.frame.kind == Bye && pc.to != c && Registered(s, pc.to)))
             || pc.Advising? || pc.Marking? || pc.ClearingSaid?
    ensures !Safe(s, NextPc(s, c, pc, down), c)
  {
    if pc.Advising? {
      assert !Safe(s, Forwarding(pc.first, Reading), c);
    }
  }

  lemma {:induction false} UnsafeCanHarm(maxAge: nat, w: Schedule, c: Conn) returns (w': Schedule)
    requires var fs := FineRun(maxAge, w);
             c in fs.pcs && InSession(fs.pcs[c]) && !Safe(fs.sess, fs.pcs[c], c)
    ensures GoesOn(w', w, c) && Harms(FineRun(maxAge, w'), c)
    decreases Rank(FineRun(maxAge, w).pcs[c])
  {
    var fs := FineRun(maxAge, w);
    var pc := fs.pcs[c];
    RunConsistent(maxAge, w);
    assert Registered(fs.sess, c) <==> InSession(pc);
    if pc.ClearingReceived? {
      w' := NegotiatingHarms(maxAge, w, c);
    } else if pc.Discarding? {
      var b;
      w', b := SomebodyOffers(maxAge, w, c);
      WipeHarms(FineRun(maxAge, w'), c, b);
    } else if pc.Forwarding? && pc.frame.kind == Bye {
      var w1, b := SomebodyOffers(maxAge, w, c);
      ForwardHarms(maxAge, w1, c, b);
      w' := Next(w1, Tick(c, 0));
      GoesOnFurther(w', w1, w, c);
    } else if pc.Sending? && pc.frame.kind == Bye && pc.to != c && Registered(fs.sess, pc.to) {
      w' := w;
      assert HarmsOne(fs, c, 0, pc.to);
    } else {
      UnsafeGoesOn(fs, c);
      TicksOnce(maxAge, w, c, 0);
      var w1 := Next(w, Tick(c, 0));
      w' := UnsafeCanHarm(maxAge, w1, c);
      GoesOnFurther(w', w1, w, c);
    }
  }

  /** The exact condition of re-arm safety.  For a registered connection that a bye
      has reached: some schedule without a further offer or answer from it has it
      harm the counterpart, if and only if it is not safe now. */
  lemma RearmExactly(maxAge: nat, w: Schedule, c: Conn)
    requires var fs := FineRun(maxAge, w);
             c in fs.pcs && Registered(fs.sess, c) && PeerOf(fs.sess, c).byeReceived
    ensures CanHarm(maxAge, w, c) <==> !Safe(FineRun(maxAge, w).sess, FineRun(maxAge, w).pcs[c], c)
  {
    var fs := FineRun(maxAge, w);
    RunConsistent(maxAge, w);
    assert Registered(fs.sess, c) <==> InSession(fs.pcs[c]);
    if Safe(fs.sess, fs.pcs[c], c) {
      SpentCannotHarm(maxAge, w, c);
    } else {
      var w' := UnsafeCanHarm(maxAge, w, c);
    }
  }

  // ----- two ways to lose the next offer -----

  /** Browser and viewer are registered, idle, and no bye has reached either. */
  ghost predicate Meeting(fs: FineState, b: Conn, c: Conn) {
    && b.role == Browser && c.role == Client && b in fs.pcs && c in fs.pcs && fs.pcs[b] == fs.pcs[c] == Reading
    && fs.sess.slots == map[Browser := b, Client := c]
    && !PeerOf(fs.sess, b).byeReceived && !PeerOf(fs.sess, c).byeReceived
  }

  lemma BrowserWaits(maxAge: nat, b: Conn, fb: Frame) returns (w: Schedule)
    requires b.role == Browser && fb.origin == b && fb.kind != Bye
    ensures var fs := FineRun(maxAge, w);
            && fs.pcs == map[b := Reading] && fs.sess.slots == map[Browser := b] && fs.sess.peers.Keys <= {b}
            && !PeerOf(fs.sess, b).byeReceived
  {
    var s0 := Init(maxAge);
    assert FineRun(maxAge, Idle) == FineInit(maxAge);
    w := JoinsAlone(maxAge, Idle, b, fb, 0, b);
    StepSlots(s0, Joins(b, fb, 0));
    JoinFlags(s0, b, fb, 0, b);
    RunConsistent(maxAge, w);
  }

  lemma TheyMeet(maxAge: nat, b: Conn, c: Conn, fb: Frame, fc: Frame) returns (w: Schedule)
    requires b.role == Browser && c.role == Client && fb.origin == b && fc.origin == c && fb.kind != Bye && fc.kind != Bye
    ensures Meeting(FineRun(maxAge, w), b, c)
  {
    w := BrowserWaits(maxAge, b, fb);
    var s1 := FineRun(maxAge, w).sess;
    w := JoinsAlone(maxAge, w, c, fc, 0, c);
    StepSlots(s1, Joins(c, fc, 0));
    JoinFlags(s1, c, fc, 0, b);
    JoinFlags(s1, c, fc, 0, c);
  }

  /** c's bye has passed the echo check when the browser's bye reaches c. */
  lemma ByesCross(maxAge: nat, w: Schedule, b: Conn, c: Conn, byeC: Frame, byeB: Frame, at: int) returns (w': Schedule)
    requires Meeting(FineRun(maxAge, w), b, c) && byeC.origin == c && byeB.origin == b && byeC.kind == byeB.kind == Bye
    ensures var fs := FineRun(maxAge, w');
            && fs.sess.slots == map[Browser := b, Client := c] && PeerOf(fs.sess, c).byeReceived
            && b in fs.pcs && fs.pcs[b] == Reading && c in fs.pcs && fs.pcs[c] == Forwarding(byeC, Discarding({Client, Browser}))
  {
    var fs := FineRun(maxAge, w);
    var w1 := Next(w, Inbound(c, byeC));
    var w2 := Next(w1, Tick(c, at));
    assert FineRun(maxAge, w1) == fs.(pcs := fs.pcs[c := CheckingEcho(byeC)]);
    assert FineRun(maxAge, w2).sess == fs.sess;
    w' := Receives(maxAge, w2, b, byeB, at, c);
    StepSlots(fs.sess, Sends(b, byeB, at));
    ReceiveFlags(fs.sess, b, byeB, at, c);
  }

  lemma OfferIsSent(maxAge: nat, w: Schedule, b: Conn, c: Conn, offer: Frame, at: int) returns (sent: Schedule)
    requires b in FineRun(maxAge, w).pcs && FineRun(maxAge, w).pcs[b] == Reading && b.role == Browser && c.role == Client
    requires FineRun(maxAge, w).sess.slots == map[Browser := b, Client := c] && PeerOf(FineRun(maxAge, w).sess, c).byeReceived
    requires offer.origin == b && offer.kind == Offer
    ensures OnlyMoved(FineRun(maxAge, w), FineRun(maxAge, sent), b) && PeerOf(FineRun(maxAge, sent).sess, c).byeReceived
    ensures SdpSlot(FineRun(maxAge, sent).sess, Browser, Offer) == Some(Stamped(offer, at))
    ensures FineRun(maxAge, sent).sess.slots == FineRun(maxAge, w).sess.slots
  {
    var s := FineRun(maxAge, w).sess;
    StepSlots(s, Sends(b, offer, at));
    sent := Receives(maxAge, w, b, offer, at, c);
    StepBuffer(s, Sends(b, offer, at), Browser);
    ReceiveFlags(s, b, offer, at, c);
  }

  /** Crossing byes wipe the browser's next offer: sent after its bye had reached
      the viewer, and gone although the viewer did nothing more than finish its
      own bye. */
  lemma CrossingByesLoseTheOffer(maxAge: nat, w: Schedule, b: Conn, c: Conn, byeC: Frame, byeB: Frame, offer: Frame, at: int)
    returns (sent: Schedule, lost: Schedule)
    requires Meeting(FineRun(maxAge, w), b, c) && byeC.origin == c && byeB.origin == b && byeC.kind == byeB.kind == Bye
    requires offer.origin == b && offer.kind == Offer
    ensures PeerOf(FineRun(maxAge, sent).sess, c).byeReceived
    ensures SdpSlot(FineRun(maxAge, sent).sess, Browser, Offer) == Some(Stamped(offer, at))
    ensures exists n: nat :: lost == Ticked(sent, c, at, n)
    ensures BufferOf(FineRun(maxAge, lost).sess, Browser) == EMPTY
  {
    var w1 := ByesCross(maxAge, w, b, c, byeC, byeB, at);
    sent := OfferIsSent(maxAge, w1, b, c, offer, at);
    var n := ByeFinishes(maxAge, sent, c, byeC, at);
    lost := Ticked(sent, c, at, n);
  }

  lemma ByeFinishes(maxAge: nat, w: Schedule, c: Conn, bye: Frame, at: int) returns (n: nat)
    requires c in FineRun(maxAge, w).pcs && FineRun(maxAge, w).pcs[c] == Forwarding(bye, Discarding({Client, Browser}))
    ensures BufferOf(FineRun(maxAge, Ticked(w, c, at, n)).sess, Browser) == EMPTY
  {
    var fs := FineRun(maxAge, w);
    var k := SoloForward(fs.sess, c, bye, Discarding({Client, Browser}), fs.down, at);
    TicksAreSolo(fs, c, at, k);
    TickedRuns(maxAge, w, c, at, k);
    n := k + 1;
    var fs1 := FineRun(maxAge, Ticked(w, c, at, k));
    DiscardBuffer(fs1.sess, {Client, Browser}, Browser);
    assert FineRun(maxAge, Ticked(w, c, at, n)) == Advance(fs1, c, at);
  }

  lemma AnswerStarts(maxAge: nat, w: Schedule, c: Conn, answer: Frame, at: int)
    requires c in FineRun(maxAge, w).pcs && FineRun(maxAge, w).pcs[c] == Reading && answer.origin == c && answer.kind == Answer
    ensures var fs, fs' := FineRun(maxAge, w), FineRun(maxAge, Next(Next(Next(w, Inbound(c, answer)), Tick(c, at)), Tick(c, at)));
            && fs'.pcs == fs.pcs[c := ClearingReceived(answer)] && fs'.sess == SetSaidBye(MarkNegotiated(fs.sess, c), c, false)
  {
    var fs := FineRun(maxAge, w);
    var w1 := Next(w, Inbound(c, answer));
    var w2 := Next(w1, Tick(c, at));
    assert FineRun(maxAge, w1) == fs.(pcs := fs.pcs[c := Marking(answer)]);
    assert FineRun(maxAge, w2) == fs.(pcs := fs.pcs[c := ClearingSaid(answer)], sess := MarkNegotiated(fs.sess, c));
  }

  /** c's answer has cleared the flag of its own bye when the browser's bye reaches
      c, and is about to clear that one too. */
  lemma ByeIsReceived(s: SessionState, b: Conn, c: Conn, byeB: Frame, at: int)
    requires s.slots == map[Browser := b, Client := c] && b.role == Browser && c.role == Client
    requires byeB.kind == Bye && !PeerOf(s, b).byeReceived
    ensures Receive(s, b, byeB, at).slots == s.slots && PeerOf(Receive(s, b, byeB, at), c).byeReceived
  {
    StepSlots(s, Sends(b, byeB, at));
    ReceiveFlags(s, b, byeB, at, c);
  }

  lemma AnswerCrosses(maxAge: nat, w: Schedule, b: Conn, c: Conn, answer: Frame, byeB: Frame, at: int) returns (w': Schedule)
    requires Meeting(FineRun(maxAge, w), b, c) && answer.origin == c && byeB.origin == b && answer.kind == Answer && byeB.kind == Bye
    ensures var fs := FineRun(maxAge, w');
            && fs.sess.slots == map[Browser := b, Client := c] && PeerOf(fs.sess, c).byeReceived
            && b in fs.pcs && fs.pcs[b] == Reading && c in fs.pcs && fs.pcs[c] == ClearingReceived(answer)
  {
    var fs := FineRun(maxAge, w);
    var w3 := Next(Next(Next(w, Inbound(c, answer)), Tick(c, at)), Tick(c, at));
    AnswerStarts(maxAge, w, c, answer, at);
    var s3 := FineRun(maxAge, w3).sess;
    w' := Receives(maxAge, w3, b, byeB, at, c);
    ByeIsReceived(s3, b, c, byeB, at);
  }

  /** Without a bye of its own: the viewer's answer was under way when the browser's
      bye reached it; the browser's next offer is stored; the viewer sends nothing
      more and hangs up, and the offer is gone. */
  lemma CrossingAnswerLosesTheOffer(maxAge: nat, w: Schedule, b: Conn, c: Conn, answer: Frame, byeB: Frame, offer: Frame, at: int)
    returns (sent: Schedule, lost: Schedule)
    requires Meeting(FineRun(maxAge, w), b, c) && answer.origin == c && byeB.origin == b && answer.kind == Answer && byeB.kind == Bye
    requires offer.origin == b && offer.kind == Offer
    ensures PeerOf(FineRun(maxAge, sent).sess, c).byeReceived
    ensures SdpSlot(FineRun(maxAge, sent).sess, Browser, Offer) == Some(Stamped(offer, at))
    ensures GoesOn(lost, sent, c) && Registered(FineRun(maxAge, lost).sess, b)
    ensures BufferOf(FineRun(maxAge, lost).sess, Browser) == EMPTY
  {
    var w1 := AnswerCrosses(maxAge, w, b, c, answer, byeB, at);
    sent := OfferIsSent(maxAge, w1, b, c, offer, at);
    var w2 := ForgetsTheBye(maxAge, sent, c);
    var fs2 := FineRun(maxAge, w2);
    assert BufferOf(fs2.sess, Browser).sdp == SdpBuffer(fs2.sess, Browser);
    WipeHarms(fs2, c, b);
    TicksOnce(maxAge, w2, c, 0);
    lost := Next(w2, Tick(c, 0));
    GoesOnFurther(lost, w2, sent, c);
  }
}
