/** The broker with one step per mutex section: every goroutine of every
    connection has a program counter, and any of them may move next. */
module SignalingFine {
  import opened Signaling
  import opened SignalingHistory

  /** Where a connection's goroutine stands.  `Forwarding` is about to take the
      lock in `forward`; `Sending` has released it and still owes the channel
      send. */
  datatype Pc =
    | Dialing(first: Frame)
    | Rejected
    | Advising(first: Frame)
    | Forwarding(frame: Frame, after: Pc)
    | Sending(to: Conn, frame: Frame, after: Pc)
    | Reading
    | Marking(frame: Frame)
    | ClearingSaid(frame: Frame)
    | ClearingReceived(frame: Frame)
    | CheckingEcho(frame: Frame)
    | Discarding(roles: set<Role>)
    | RecordingBye
    | Leaving
    | ReadingNegotiated
    | ReadingEnded(negotiated: bool)
    | DiscardingTail(negotiated: bool, ended: bool)
    | Deciding(negotiated: bool, ended: bool)
    | ReadingSaid(negotiated: bool, ended: bool)
    | Gone(attempted: bool, down: bool)

  /** `exits` records a peer as it stood when it was unregistered, `replays`
      what a peer's channel held when `register` released the lock. */
  datatype FineState = FineState(sess: SessionState, pcs: map<Conn, Pc>, down: bool,
                                 exits: map<Conn, PeerState>, replays: map<Conn, seq<Frame>>)

  datatype Move =
    | Dial(c: Conn, first: Frame)
    | Tick(c: Conn, at: int)
    | Inbound(c: Conn, frame: Frame)
    | Hangup(c: Conn)
    | Write(c: Conn)
    | Shutdown

  function FineInit(maxAge: nat): FineState {
    FineState(Init(maxAge), map[], false, map[], map[])
  }

  function OnInbound(f: Frame): (pc: Pc)
    ensures InSession(pc) && !InTail(pc)
  {
    if !ValidKind(f.kind) then Reading
    else if IsSdp(f.kind) then Marking(f)
    else if f.kind == Bye then CheckingEcho(f)
    else Forwarding(f, Reading)
  }

  function AfterAdvice(first: Frame): (pc: Pc)
    ensures InSession(pc) && !InTail(pc)
  {
    if ValidKind(first.kind) then Forwarding(first, Reading) else Reading
  }

  /** The effect of the section c's goroutine is about to run. */
  function Section(s: SessionState, c: Conn, pc: Pc, now: int): SessionState {
    match pc
    case Dialing(_) => if c.role in s.slots then s else Register(s, c, now)
    case Forwarding(f, _) => ForwardLocked(s, c.role.Other(), f, now)
    case Sending(to, f, _) => Deliver(s, to, f)
    case Marking(_) => MarkNegotiated(s, c)
    case ClearingSaid(_) => SetSaidBye(s, c, false)
    case ClearingReceived(_) => ClearByeReceived(s, c)
    case Discarding(roles) => Discard(s, roles)
    case RecordingBye => SetSaidBye(s, c, true)
    case Leaving => Unregister(s, c)
    case DiscardingTail(neg, ended) => Discard(s, if neg && !ended then {Client, Browser} else {c.role})
    case _ => s
  }

  /** Where that section leaves it. */
  function NextPc(s: SessionState, c: Conn, pc: Pc, down: bool): Pc {
    var other := c.role.Other();
    match pc
    case Dialing(first) => if c.role in s.slots then Rejected else Advising(first)
    case Advising(first) => if other in s.slots then AfterAdvice(first) else Sending(c, AbsentNotice(c), AfterAdvice(first))
    case Forwarding(f, after) => if other in s.slots then Sending(s.slots[other], f, after) else after
    case Sending(_, _, after) => after
    case Marking(f) => ClearingSaid(f)
    case ClearingSaid(f) => ClearingReceived(f)
    case ClearingReceived(f) => Forwarding(f, Reading)
    case CheckingEcho(f) => if PeerOf(s, c).byeReceived then Discarding({c.role}) else Forwarding(f, Discarding({Client, Browser}))
    case Discarding(_) => RecordingBye
    case RecordingBye => Reading
    case Leaving => ReadingNegotiated
    case ReadingNegotiated => ReadingEnded(PeerOf(s, c).negotiated)
    case ReadingEnded(neg) => DiscardingTail(neg, PeerOf(s, c).byeReceived)
    case DiscardingTail(neg, ended) => Deciding(neg, ended)
    case Deciding(neg, ended) =>
      if down then Gone(false, true) else if neg && !ended then ReadingSaid(neg, ended) else Gone(false, false)
    case ReadingSaid(_, _) => if PeerOf(s, c).saidBye then Gone(false, false) else Forwarding(ByeFrom(c), Gone(true, false))
    case _ => pc
  }

  function Advance(fs: FineState, c: Conn, now: int): FineState
    requires c in fs.pcs
  {
    var pc := fs.pcs[c];
    var s' := Section(fs.sess, c, pc, now);
    FineState(s', fs.pcs[c := NextPc(fs.sess, c, pc, fs.down)], fs.down,
              if pc.Leaving? then fs.exits[c := PeerOf(fs.sess, c)] else fs.exits,
              if pc.Dialing? && c.role !in fs.sess.slots then fs.replays[c := PeerOf(s', c).Inbox()] else fs.replays)
  }

  function FineStep(fs: FineState, m: Move): FineState {
    match m
    case Dial(c, first) => if c !in fs.pcs && first.origin == c then fs.(pcs := fs.pcs[c := Dialing(first)]) else fs
    case Tick(c, at) => if c in fs.pcs then Advance(fs, c, at) else fs
    case Inbound(c, f) =>
      if c in fs.pcs && fs.pcs[c] == Reading && f.origin == c then fs.(pcs := fs.pcs[c := OnInbound(f)]) else fs
    case Hangup(c) => if c in fs.pcs && fs.pcs[c] == Reading then fs.(pcs := fs.pcs[c := Leaving]) else fs
    case Write(c) => if c in fs.sess.peers then fs.(sess := Drain(fs.sess, c)) else fs
    case Shutdown => fs.(down := true)
  }

  datatype Schedule = Idle | Next(past: Schedule, move: Move)

  function FineRun(maxAge: nat, w: Schedule): FineState {
    match w
    case Idle => FineInit(maxAge)
    case Next(past, m) => FineStep(FineRun(maxAge, past), m)
  }

  // ----- the stages of a connection -----

  /** Between register and unregister. */
  predicate InSession(pc: Pc) {
    match pc
    case Forwarding(_, after) => InSession(after)
    case Sending(_, _, after) => InSession(after)
    case _ => !pc.Dialing? && !pc.Rejected? && !InTail(pc)
  }

  /** After unregister. */
  predicate InTail(pc: Pc) {
    match pc
    case Forwarding(_, after) => InTail(after)
    case Sending(_, _, after) => InTail(after)
    case _ => pc.ReadingNegotiated? || pc.ReadingEnded? || pc.DiscardingTail? || pc.Deciding? || pc.ReadingSaid? || pc.Gone?
  }

  /** Unregistered, own buffer not yet discarded. */
  predicate BeforeDiscard(pc: Pc) {
    pc.ReadingNegotiated? || pc.ReadingEnded? || pc.DiscardingTail?
  }

  /** What the disconnect tail has read so far is what stood at unregister. */
  predicate TailAgrees(pc: Pc, exit: PeerState) {
    match pc
    case Forwarding(_, after) => after == Gone(true, false) && SynthesisesBye(exit, false)
    case Sending(_, _, after) => after == Gone(true, false) && SynthesisesBye(exit, false)
    case ReadingEnded(neg) => neg == exit.negotiated
    case DiscardingTail(neg, ended) => neg == exit.negotiated && ended == exit.byeReceived
    case Deciding(neg, ended) => neg == exit.negotiated && ended == exit.byeReceived
    case ReadingSaid(neg, ended) => neg == exit.negotiated && ended == exit.byeReceived && EndsSession(exit)
    case Gone(attempted, down) => attempted <==> SynthesisesBye(exit, down)
    case _ => true
  }

  /** Frames in transit through c's goroutine are c's own. */
  predicate OwnFrames(pc: Pc, c: Conn) {
    match pc
    case Dialing(f) => f.origin == c
    case Advising(f) => f.origin == c
    case Forwarding(f, after) =>
      && f.origin == c && OwnFrames(after, c) && !after.Dialing?
      && (Replayable(f.kind) || IsCandidate(f) ==> InSession(after))
    case Sending(_, f, after) => f.origin == c && OwnFrames(after, c) && !after.Dialing?
    case Marking(f) => f.origin == c
    case ClearingSaid(f) => f.origin == c
    case ClearingReceived(f) => f.origin == c
    case CheckingEcho(f) => f.origin == c
    case _ => true
  }

  // ----- registration -----

  predicate TargetsKnown(pc: Pc, peers: set<Conn>) {
    match pc
    case Forwarding(_, after) => TargetsKnown(after, peers)
    case Sending(to, _, after) => to in peers && TargetsKnown(after, peers)
    case _ => true
  }

  ghost predicate SlotsKnown(s: SessionState) {
    forall r :: r in s.slots ==> s.slots[r].role == r && s.slots[r] in s.peers
  }

  ghost predicate SlotsAreSessions(s: SessionState, pcs: map<Conn, Pc>) {
    && SlotsKnown(s)
    && (forall c :: Registered(s, c) <==> c in pcs && InSession(pcs[c]))
  }

  ghost predicate PeersAreJoined(fs: FineState) {
    && fs.sess.peers.Keys == fs.replays.Keys
    && (forall c :: c in fs.sess.peers ==> c in fs.pcs && !fs.pcs[c].Dialing?)
    && (forall c :: c in fs.pcs ==> TargetsKnown(fs.pcs[c], fs.sess.peers.Keys) && OwnFrames(fs.pcs[c], c))
  }

  ghost predicate Consistent(fs: FineState) {
    SlotsAreSessions(fs.sess, fs.pcs) && PeersAreJoined(fs)
  }

  /** What one section does to the slots and to who is known. */
  lemma SectionSlots(s: SessionState, c: Conn, pc: Pc, now: int)
    requires SlotsKnown(s) && TargetsKnown(pc, s.peers.Keys)
    requires pc.Marking? || pc.ClearingSaid? || pc.ClearingReceived? || pc.RecordingBye? ==> c in s.peers
    ensures var s' := Section(s, c, pc, now);
            && s'.slots == (if pc.Dialing? && c.role !in s.slots then s.slots[c.role := c]
                            else if pc.Leaving? && Registered(s, c) then s.slots - {c.role}
                            else s.slots)
            && s'.peers.Keys == (if pc.Dialing? && c.role !in s.slots then s.peers.Keys + {c} else s.peers.Keys)
  {
    if pc.Forwarding? {
      var s1 := StoreFrame(s, c.role, pc.frame, now);
      assert s1.slots == s.slots && s1.peers == s.peers;
    }
  }

  lemma TargetsGrow(pc: Pc, some: set<Conn>, more: set<Conn>)
    requires TargetsKnown(pc, some) && some <= more
    ensures TargetsKnown(pc, more)
  {
  }

  lemma NextPcWellFormed(s: SessionState, c: Conn, pc: Pc, down: bool)
    requires SlotsKnown(s) && TargetsKnown(pc, s.peers.Keys) && OwnFrames(pc, c)
    requires pc.Advising? ==> c in s.peers
    ensures var pc' := NextPc(s, c, pc, down);
            TargetsKnown(pc', s.peers.Keys) && OwnFrames(pc', c) && !pc'.Dialing?
  {
  }

  /** A session begins with register and ends with unregister. */
  lemma NextPcSession(s: SessionState, c: Conn, pc: Pc, down: bool)
    ensures InSession(NextPc(s, c, pc, down))
       <==> (if pc.Dialing? then c.role !in s.slots else !pc.Leaving? && InSession(pc))
    ensures InTail(NextPc(s, c, pc, down)) <==> InTail(pc) || pc.Leaving?
  {
  }

  /** Registration follows the one goroutine that moved. */
  lemma SessionsMove(s: SessionState, s': SessionState, pcs: map<Conn, Pc>, c: Conn, pc: Pc)
    requires SlotsAreSessions(s, pcs) && s.peers.Keys <= s'.peers.Keys
    requires || (s'.slots == s.slots && (InSession(pc) <==> c in pcs && InSession(pcs[c])))
             || (c.role !in s.slots && s'.slots == s.slots[c.role := c] && InSession(pc) && c in s'.peers)
             || (Registered(s, c) && s'.slots == s.slots - {c.role} && !InSession(pc))
    ensures SlotsAreSessions(s', pcs[c := pc])
  {
    forall d
      ensures Registered(s', d) <==> d in pcs[c := pc] && InSession(pcs[c := pc][d])
    {
      assert Registered(s, d) <==> d in pcs && InSession(pcs[d]);
    }
  }

  lemma AdvanceSessions(fs: FineState, c: Conn, now: int)
    requires c in fs.pcs && Consistent(fs)
    ensures SlotsAreSessions(Section(fs.sess, c, fs.pcs[c], now), fs.pcs[c := NextPc(fs.sess, c, fs.pcs[c], fs.down)])
  {
    var s, pc := fs.sess, fs.pcs[c];
    assert InSession(pc) <==> Registered(s, c);
    SectionSlots(s, c, pc, now);
    NextPcSession(s, c, pc, fs.down);
    SessionsMove(s, Section(s, c, pc, now), fs.pcs, c, NextPc(s, c, pc, fs.down));
  }

  lemma AdvanceJoined(fs: FineState, c: Conn, now: int)
    requires c in fs.pcs && Consistent(fs)
    ensures PeersAreJoined(Advance(fs, c, now))
  {
    var s, pc := fs.sess, fs.pcs[c];
    assert InSession(pc) <==> Registered(s, c);
    SectionSlots(s, c, pc, now);
    NextPcWellFormed(s, c, pc, fs.down);
    JoinedMove(fs, Advance(fs, c, now), c);
  }

  lemma JoinedMove(fs: FineState, fs': FineState, c: Conn)
    requires PeersAreJoined(fs) && c in fs'.pcs && fs'.pcs == fs.pcs[c := fs'.pcs[c]]
    requires fs.sess.peers.Keys <= fs'.sess.peers.Keys <= fs.sess.peers.Keys + {c}
    requires fs'.replays.Keys == fs'.sess.peers.Keys
    requires TargetsKnown(fs'.pcs[c], fs.sess.peers.Keys) && OwnFrames(fs'.pcs[c], c)
    requires c in fs'.sess.peers ==> !fs'.pcs[c].Dialing?
    ensures PeersAreJoined(fs')
  {
    forall d | d in fs'.pcs
      ensures TargetsKnown(fs'.pcs[d], fs'.sess.peers.Keys) && OwnFrames(fs'.pcs[d], d)
    {
      TargetsGrow(fs'.pcs[d], fs.sess.peers.Keys, fs'.sess.peers.Keys);
    }
  }

  /** Moving one goroutine without running a section. */
  lemma SetPcConsistent(fs: FineState, c: Conn, pc: Pc)
    requires Consistent(fs) && TargetsKnown(pc, fs.sess.peers.Keys) && OwnFrames(pc, c)
    requires if c in fs.pcs then fs.pcs[c] == Reading && InSession(pc) && !pc.Dialing? else pc.Dialing?
    ensures Consistent(fs.(pcs := fs.pcs[c := pc]))
  {
    SessionsMove(fs.sess, fs.sess, fs.pcs, c, pc);
    JoinedMove(fs, fs.(pcs := fs.pcs[c := pc]), c);
  }

  lemma FineStepConsistent(fs: FineState, m: Move)
    requires Consistent(fs)
    ensures Consistent(FineStep(fs, m))
  {
    match m
    case Tick(c, at) =>
      if c in fs.pcs {
        AdvanceSessions(fs, c, at);
        AdvanceJoined(fs, c, at);
        assert FineStep(fs, m) == Advance(fs, c, at);
      }
    case Dial(c, first) => if c !in fs.pcs && first.origin == c { SetPcConsistent(fs, c, Dialing(first)); }
    case Inbound(c, f) =>
      if c in fs.pcs && fs.pcs[c] == Reading && f.origin == c { SetPcConsistent(fs, c, OnInbound(f)); }
    case Hangup(c) => if c in fs.pcs && fs.pcs[c] == Reading { SetPcConsistent(fs, c, Leaving); }
    case Write(c) => WriteConsistent(fs, c);
    case Shutdown =>
  }

  lemma WriteConsistent(fs: FineState, c: Conn)
    requires Consistent(fs)
    ensures Consistent(FineStep(fs, Write(c)))
  {
    if c in fs.sess.peers {
      assert Drain(fs.sess, c).peers.Keys == fs.sess.peers.Keys;
      if c in fs.pcs {
        SessionsMove(fs.sess, Drain(fs.sess, c), fs.pcs, c, fs.pcs[c]);
      }
    }
  }

  lemma {:induction false} RunConsistent(maxAge: nat, w: Schedule)
    ensures Consistent(FineRun(maxAge, w))
  {
    if w.Next? {
      RunConsistent(maxAge, w.past);
      FineStepConsistent(FineRun(maxAge, w.past), w.move);
    }
  }

  // ----- the disconnect tail reads what stood at unregister -----

  /** No section writes the flags of a connection that is not registered,
      except its own goroutine's before it leaves. */
  lemma SectionFlags(s: SessionState, c: Conn, pc: Pc, now: int, d: Conn)
    requires SlotsKnown(s) && !Registered(s, d) && (d == c ==> InTail(pc))
    ensures SameFlags(PeerOf(Section(s, c, pc, now), d), PeerOf(s, d))
  {
    if pc.Forwarding? {
      assert StoreFrame(s, c.role, pc.frame, now).peers == s.peers;
    }
  }

  lemma NextPcTail(s: SessionState, c: Conn, pc: Pc, down: bool, exit: PeerState)
    requires InTail(pc) && TailAgrees(pc, exit) && SameFlags(PeerOf(s, c), exit)
    ensures InTail(NextPc(s, c, pc, down)) && TailAgrees(NextPc(s, c, pc, down), exit)
  {
  }

  ghost predicate TailFrozen(fs: FineState, c: Conn) {
    c in fs.pcs && InTail(fs.pcs[c]) ==>
      && c in fs.exits
      && SameFlags(PeerOf(fs.sess, c), fs.exits[c])
      && TailAgrees(fs.pcs[c], fs.exits[c])
  }

  lemma {:induction false} TailIsOver(pc: Pc)
    requires InTail(pc)
    ensures !InSession(pc)
  {
    if pc.Forwarding? || pc.Sending? {
      TailIsOver(pc.after);
    }
  }

  lemma AdvanceTail(fs: FineState, c: Conn, now: int, d: Conn)
    requires c in fs.pcs && Consistent(fs) && TailFrozen(fs, d)
    ensures TailFrozen(Advance(fs, c, now), d)
  {
    var s, pc := fs.sess, fs.pcs[c];
    assert Registered(s, d) <==> d in fs.pcs && InSession(fs.pcs[d]);
    assert Registered(s, c) <==> InSession(pc);
    NextPcSession(s, c, pc, fs.down);
    if d in fs.pcs && InTail(fs.pcs[d]) {
      TailIsOver(fs.pcs[d]);
      SectionFlags(s, c, pc, now, d);
      if d == c {
        NextPcTail(s, c, pc, fs.down, fs.exits[c]);
      }
    }
  }

  lemma {:induction false} RunTail(maxAge: nat, w: Schedule, d: Conn)
    ensures TailFrozen(FineRun(maxAge, w), d)
  {
    if w.Next? {
      var fs, m := FineRun(maxAge, w.past), w.move;
      RunTail(maxAge, w.past, d);
      RunConsistent(maxAge, w.past);
      StepTail(fs, m, d);
    }
  }

  lemma StepTail(fs: FineState, m: Move, d: Conn)
    requires Consistent(fs) && TailFrozen(fs, d)
    ensures TailFrozen(FineStep(fs, m), d)
  {
    match m
    case Tick(c, at) => if c in fs.pcs { AdvanceTail(fs, c, at, d); }
    case Write(c) => if c in fs.sess.peers { assert SameFlags(PeerOf(Drain(fs.sess, c), d), PeerOf(fs.sess, d)); }
    case Dial(c, first) => SetPcTail(fs, c, Dialing(first), d);
    case Inbound(c, f) => SetPcTail(fs, c, OnInbound(f), d);
    case Hangup(c) => SetPcTail(fs, c, Leaving, d);
    case Shutdown =>
  }

  lemma SetPcTail(fs: FineState, c: Conn, pc: Pc, d: Conn)
    requires TailFrozen(fs, d) && !InTail(pc)
    ensures TailFrozen(fs.(pcs := fs.pcs[c := pc]), d)
  {
  }

  /** Under every interleaving of mutex sections: whatever the disconnect tail
      of c has read so far, each flag in a section of its own, is what one
      atomic read at unregister would have given, and so is what it decides
      to discard and whether it synthesises a bye. */
  lemma TailDecidesAsAtUnregister(maxAge: nat, w: Schedule, c: Conn)
    requires c in FineRun(maxAge, w).pcs
    ensures var fs := FineRun(maxAge, w);
            var pc := fs.pcs[c];
            InTail(pc) ==>
              && c in fs.exits
              && (pc.DiscardingTail? ==> (pc.negotiated && !pc.ended <==> EndsSession(fs.exits[c])))
              && (pc.Gone? ==> (pc.attempted <==> SynthesisesBye(fs.exits[c], pc.down)))
              && (pc.Forwarding? || pc.Sending? ==> SynthesisesBye(fs.exits[c], false))
  {
    RunTail(maxAge, w, c);
  }
}
