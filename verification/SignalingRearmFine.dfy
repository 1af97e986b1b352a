/** Re-arm safety under every interleaving of mutex sections: what a viewer whose
    session the browser has ended can still do.  SignalingRearmExact proves that
    the condition here is exact. */
module SignalingRearmFine {
  import opened Signaling
  import opened SignalingHistory
  import opened SignalingBuffers
  import opened SignalingFine
  import opened SignalingSchedules

  /** c's goroutine has no offer or answer of its own under way, and no bye but one
      addressed to a connection that has left; and its disconnect tail, if it is
      in it, has seen the session ended. */
  predicate Safe(s: SessionState, pc: Pc, c: Conn) {
    match pc
    case Forwarding(f, after) => f.kind != Bye && Safe(s, after, c)
    case Sending(to, f, after) => (f.kind == Bye && to != c ==> !Registered(s, to)) && Safe(s, after, c)
    case Advising(first) => first.kind != Bye
    case Discarding(roles) => c.role.Other() !in roles
    case DiscardingTail(neg, ended) => ended || !neg
    case Deciding(neg, ended) => ended || !neg
    case _ => !pc.Dialing? && !pc.Rejected? && !pc.Marking? && !pc.ClearingSaid? && !pc.ClearingReceived? && !pc.ReadingSaid?
  }

  /** A bye reached c, and c is safe. */
  ghost predicate Spent(fs: FineState, c: Conn) {
    c in fs.pcs && c in fs.sess.peers && PeerOf(fs.sess, c).byeReceived && Safe(fs.sess, fs.pcs[c], c)
  }

  /** The next section of c does harm to b, which is registered: it changes the
      counterpart's buffer or b's flags, or sends b a bye. */
  ghost predicate HarmsOne(fs: FineState, c: Conn, at: int, b: Conn) {
    && c in fs.pcs && b != c && Registered(fs.sess, b)
    && var s' := Advance(fs, c, at).sess;
       || (b.role == c.role.Other() && BufferOf(s', b.role) != BufferOf(fs.sess, b.role))
       || !SameFlags(PeerOf(s', b), PeerOf(fs.sess, b))
       || (fs.pcs[c].Sending? && fs.pcs[c].to == b && fs.pcs[c].frame.kind == Bye)
  }

  ghost predicate Harms(fs: FineState, c: Conn) {
    exists at: int, b: Conn :: HarmsOne(fs, c, at, b)
  }

  predicate Negotiates(m: Move, c: Conn) { m.Inbound? && m.c == c && IsSdp(m.frame.kind) }

  /** w' goes on from w, and c sends no further offer or answer in between. */
  ghost predicate GoesOn(w': Schedule, w: Schedule, c: Conn) {
    w' == w || (w'.Next? && GoesOn(w'.past, w, c) && !Negotiates(w'.move, c))
  }

  /** Some schedule from here on, without a further offer or answer from c, has c
      do harm. */
  ghost predicate CanHarm(maxAge: nat, w: Schedule, c: Conn) {
    exists w' :: GoesOn(w', w, c) && Harms(FineRun(maxAge, w'), c)
  }

  // ----- spent is for ever -----

  /** Only c's own goroutine takes back that a bye reached c. */
  lemma SectionKeepsEnded(s: SessionState, d: Conn, pc: Pc, now: int, c: Conn)
    requires c in s.peers && PeerOf(s, c).byeReceived && (d == c ==> !pc.Dialing? && !pc.ClearingReceived?)
    ensures var s' := Section(s, d, pc, now);
            c in s'.peers && PeerOf(s', c).byeReceived
  {
    if pc.Forwarding? {
      assert StoreFrame(s, d.role, pc.frame, now).peers == s.peers;
    }
  }

  /** Targets that have left stay away. */
  lemma {:induction false} SafeKept(s: SessionState, s': SessionState, pc: Pc, c: Conn)
    requires Safe(s, pc, c) && TargetsKnown(pc, s.peers.Keys)
    requires forall d :: d in s.peers && Registered(s', d) ==> Registered(s, d)
    ensures Safe(s', pc, c)
  {
    if pc.Forwarding? || pc.Sending? {
      SafeKept(s, s', pc.after, c);
    }
  }

  lemma NextPcSafe(s: SessionState, c: Conn, pc: Pc, down: bool)
    requires Safe(s, pc, c) && PeerOf(s, c).byeReceived
    ensures Safe(s, NextPc(s, c, pc, down), c)
  {
  }

  /** A connection once joined that is not registered is never registered again. */
  lemma NoComeback(fs: FineState, d: Conn, at: int, e: Conn)
    requires Consistent(fs) && d in fs.pcs && e in fs.sess.peers && Registered(Advance(fs, d, at).sess, e)
    ensures Registered(fs.sess, e)
  {
    AdvanceSessions(fs, d, at);
    var pcs' := Advance(fs, d, at).pcs;
    assert e in pcs' && InSession(pcs'[e]);
    assert Registered(fs.sess, e) <==> e in fs.pcs && InSession(fs.pcs[e]);
    NextPcSession(fs.sess, d, fs.pcs[d], fs.down);
  }

  lemma TickKeepsSpent(fs: FineState, d: Conn, at: int, c: Conn)
    requires Consistent(fs) && Spent(fs, c) && d in fs.pcs
    ensures Spent(Advance(fs, d, at), c)
  {
    var s, s' := fs.sess, Advance(fs, d, at).sess;
    SectionKeepsEnded(s, d, fs.pcs[d], at, c);
    forall e | e in s.peers && Registered(s', e)
      ensures Registered(s, e)
    {
      NoComeback(fs, d, at, e);
    }
    if d == c {
      NextPcSafe(s, c, fs.pcs[c], fs.down);
      NextPcWellFormed(s, c, fs.pcs[c], fs.down);
      SafeKept(s, s', NextPc(s, c, fs.pcs[c], fs.down), c);
    } else {
      SafeKept(s, s', fs.pcs[c], c);
    }
  }

  lemma MoveKeepsSpent(fs: FineState, m: Move, c: Conn)
    requires Consistent(fs) && Spent(fs, c) && !Negotiates(m, c)
    ensures Spent(FineStep(fs, m), c)
  {
    match m
    case Tick(d, at) => if d in fs.pcs { TickKeepsSpent(fs, d, at, c); }
    case Inbound(d, f) => SetPcSpent(fs, d, OnInbound(f), c);
    case Dial(d, first) => if d !in fs.pcs { SetPcSpent(fs, d, Dialing(first), c); }
    case Hangup(d) => SetPcSpent(fs, d, Leaving, c);
    case Write(d) => WriteKeepsSpent(fs, d, c);
    case Shutdown =>
  }

  lemma SetPcSpent(fs: FineState, d: Conn, pc: Pc, c: Conn)
    requires Spent(fs, c) && (d == c ==> pc == Leaving || exists f: Frame :: !IsSdp(f.kind) && pc == OnInbound(f))
    ensures Spent(fs.(pcs := fs.pcs[d := pc]), c)
  {
    assert d == c ==> Safe(fs.sess, pc, c);
  }

  lemma WriteKeepsSpent(fs: FineState, d: Conn, c: Conn)
    requires Consistent(fs) && Spent(fs, c)
    ensures Spent(FineStep(fs, Write(d)), c)
  {
    if d in fs.sess.peers {
      SafeKept(fs.sess, Drain(fs.sess, d), fs.pcs[c], c);
    }
  }

  lemma {:induction false} SpentForEver(maxAge: nat, w: Schedule, w': Schedule, c: Conn)
    requires Spent(FineRun(maxAge, w), c) && GoesOn(w', w, c)
    ensures Spent(FineRun(maxAge, w'), c)
  {
    if w' != w {
      SpentForEver(maxAge, w, w'.past, c);
      RunConsistent(maxAge, w'.past);
      MoveKeepsSpent(FineRun(maxAge, w'.past), w'.move, c);
    }
  }

  lemma SafeToOthers(s: SessionState, c: Conn, pc: Pc, at: int, d: Conn)
    requires Safe(s, pc, c) && d != c && Registered(s, d)
    ensures var s' := Section(s, c, pc, at);
            PeerOf(s', d) == PeerOf(s, d) || (pc.Sending? && pc.frame.kind != Bye && PeerOf(s', d) == Accept(PeerOf(s, d), pc.frame))
  {
    if pc.Forwarding? {
      assert StoreFrame(s, c.role, pc.frame, at).peers == s.peers;
    }
  }

  /** One section of a spent connection leaves the counterpart's buffer alone, and
      no registered peer gets more from it than a frame that is not a bye. */
  lemma SpentTick(fs: FineState, c: Conn, at: int, d: Conn)
    requires Spent(fs, c) && d != c && Registered(fs.sess, d)
    ensures var s, s' := fs.sess, Advance(fs, c, at).sess;
            && BufferOf(s', c.role.Other()) == BufferOf(s, c.role.Other())
            && SameFlags(PeerOf(s', d), PeerOf(s, d))
            && (PeerOf(s', d) == PeerOf(s, d)
                || (fs.pcs[c].Sending? && fs.pcs[c].frame.kind != Bye && PeerOf(s', d) == Accept(PeerOf(s, d), fs.pcs[c].frame)))
            && !HarmsOne(fs, c, at, d)
  {
    SectionBuffer(fs.sess, c, fs.pcs[c], at, c.role.Other());
    SafeToOthers(fs.sess, c, fs.pcs[c], at, d);
  }

  /** Re-arm safety in the fine model: from the bye on, through any schedule in
      which c does not negotiate again, no section of c touches the browser's
      buffer or flags, or sends it a bye. */
  lemma EndedPeerIsHarmlessFine(maxAge: nat, w: Schedule, w': Schedule, c: Conn, at: int, d: Conn)
    requires Spent(FineRun(maxAge, w), c) && GoesOn(w', w, c) && d != c && Registered(FineRun(maxAge, w').sess, d)
    ensures var fs := FineRun(maxAge, w');
            && c in fs.pcs
            && var s, s' := fs.sess, FineStep(fs, Tick(c, at)).sess;
               && BufferOf(s', c.role.Other()) == BufferOf(s, c.role.Other())
               && SameFlags(PeerOf(s', d), PeerOf(s, d))
               && (PeerOf(s', d) == PeerOf(s, d)
                   || exists f: Frame :: f.kind != Bye && PeerOf(s', d) == Accept(PeerOf(s, d), f))
  {
    SpentForEver(maxAge, w, w', c);
    SpentTick(FineRun(maxAge, w'), c, at, d);
  }

  /** So a spent connection cannot do harm. */
  lemma SpentCannotHarm(maxAge: nat, w: Schedule, c: Conn)
    requires Spent(FineRun(maxAge, w), c)
    ensures !CanHarm(maxAge, w, c)
  {
    forall w' | GoesOn(w', w, c)
      ensures !Harms(FineRun(maxAge, w'), c)
    {
      SpentForEver(maxAge, w, w', c);
      var fs := FineRun(maxAge, w');
      forall at: int, b: Conn
        ensures !HarmsOne(fs, c, at, b)
      {
        if b != c && Registered(fs.sess, b) {
          SpentTick(fs, c, at, b);
        }
      }
    }
  }
}
