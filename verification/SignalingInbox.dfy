/** Everything a connection is ever sent, read off the log.  Coarse model. */
module SignalingInbox {
  import opened Options
  import opened Signaling
  import opened SignalingHistory
  import opened SignalingBuffers

  /** What a connection has been sent, and how much of it is on the socket. */
  datatype Mailbox = Mailbox(sent: seq<Frame>, written: nat)

  /** The frame that event e has the broker forward to the counterpart of e.c. */
  function Forwarded(past: History, e: Event): Option<Frame> {
    match e
    case Joins(c, f, _) => if Holder(past, c.role).None? && f.kind != PeerAbsent && f.kind != Unknown then Some(f) else None
    case Sends(c, f, _) =>
      if f.kind != PeerAbsent && f.kind != Unknown && !(f.kind == Bye && Ended(past, c)) then Some(f) else None
    case Leaves(c, _, _) => if SendsBye(past, e) then Some(Frame(c, Bye, false, "")) else None
    case Drains(_, _) => None
  }

  /** What a joiner starts with. */
  function FirstMail(past: History, c: Conn, at: int, maxAge: nat): seq<Frame> {
    var other := c.role.Other();
    var owed := SdpOwed(past, other, at, maxAge) + IceOwed(past, other, at, maxAge);
    if Holder(past, other).None? then [Frame(c, PeerAbsent, false, "")] else if |owed| <= 32 then owed else owed[..32]
  }

  /** A joiner's replay, then every frame forwarded to it while fewer than 32 were
      waiting to be written. */
  function MailOf(h: History, c: Conn, maxAge: nat): (m: Mailbox)
    ensures m.written <= |m.sent|
  {
    match h
    case Boot => Mailbox([], 0)
    case Then(past, e) =>
      var m := MailOf(past, c, maxAge);
      if e.Joins? && e.c == c && Holder(past, c.role).None? then Mailbox(FirstMail(past, c, e.at, maxAge), 0)
      else if e.Drains? && e.c == c && m.written < |m.sent| then m.(written := m.written + 1)
      else if Forwarded(past, e).Some? && Holder(past, e.c.role.Other()) == Some(c) && |m.sent| - m.written < 32
      then m.(sent := m.sent + [Forwarded(past, e).value])
      else m
  }

  ghost predicate MailAgrees(p: PeerState, m: Mailbox) {
    m.written <= |m.sent| && p.written == m.sent[..m.written] && p.queue == m.sent[m.written..]
  }

  /** The effect of one event on the channel of c, in terms of the state. */
  function MailAfter(p: PeerState, f: Option<Frame>, reaches: bool): PeerState {
    if f.Some? && reaches && |p.queue| < 32 then p.(queue := p.queue + [f.value]) else p
  }

  predicate SameMail(p: PeerState, q: PeerState) {
    p.written == q.written && p.queue == q.queue
  }

  lemma JoinMail(s: SessionState, d: Conn, f: Frame, at: int, c: Conn)
    requires d != c && d !in s.peers && SlotsHonest(s)
    ensures SameMail(PeerOf(Join(s, d, f, at), c),
                     MailAfter(PeerOf(s, c), if d.role !in s.slots && f.kind != PeerAbsent && f.kind != Unknown then Some(f) else None,
                               d.role.Other() in s.slots && s.slots[d.role.Other()] == c))
  {
    if d.role !in s.slots {
      var other := d.role.Other();
      var s1 := Register(s, d, at);
      var s2 := if other in s1.slots then s1 else Deliver(s1, d, AbsentNotice(d));
      assert PeerOf(s2, c) == PeerOf(s, c) && (other in s2.slots <==> other in s.slots);
      ForwardPeer(s2, other, f, at, c);
    }
  }

  lemma SendMail(s: SessionState, d: Conn, f: Frame, at: int, c: Conn)
    requires Registered(s, d) && SlotsHonest(s)
    ensures var forwarded := f.kind != PeerAbsent && f.kind != Unknown && !(f.kind == Bye && PeerOf(s, d).byeReceived);
            SameMail(PeerOf(Receive(s, d, f, at), c),
                     MailAfter(PeerOf(s, c), if forwarded then Some(f) else None,
                               d.role.Other() in s.slots && s.slots[d.role.Other()] == c))
  {
    var other := d.role.Other();
    if IsSdp(f.kind) {
      StartFlags(s, d, c);
      ForwardPeer(StartNegotiation(s, d), other, f, at, c);
    } else if f.kind == Bye {
      var echo := IsEcho(s, d, f);
      var s2 := if echo then s else Forward(s, other, f, at);
      ForwardPeer(s, other, f, at, c);
      ByeFlags(s2, if echo then {d.role} else {Client, Browser}, d, c);
    } else if ValidKind(f.kind) {
      ForwardPeer(s, other, f, at, c);
    }
  }

  lemma LeaveMail(s: SessionState, d: Conn, down: bool, at: int, c: Conn)
    requires Registered(s, d) && SlotsHonest(s)
    ensures SameMail(PeerOf(Leave(s, d, down, at), c),
                     MailAfter(PeerOf(s, c), if SynthesisesBye(PeerOf(s, d), down) then Some(Frame(d, Bye, false, "")) else None,
                               d.role.Other() in s.slots && s.slots[d.role.Other()] == c))
  {
    var s1 := Discard(Unregister(s, d), if EndsSession(PeerOf(s, d)) then {Client, Browser} else {d.role});
    assert s1.slots == s.slots - {d.role} && PeerOf(s1, c) == PeerOf(s, c);
    ForwardPeer(s1, d.role.Other(), ByeFrom(d), at, c);
  }

  lemma StepMail(maxAge: nat, h: History, e: Event, c: Conn)
    requires Legal(maxAge, Then(h, e)) && !(e.Joins? && e.c == c) && !e.Drains?
    ensures var s := Run(maxAge, h);
            SameMail(PeerOf(Step(s, e), c),
                     MailAfter(PeerOf(s, c), Forwarded(h, e), Holder(h, e.c.role.Other()) == Some(c)))
  {
    var s, other := Run(maxAge, h), e.c.role.Other();
    HoldersAreHistory(maxAge, h);
    FlagsAreHistory(maxAge, h, e.c);
    assert Holder(h, other).Some? <==> other in s.slots;
    assert Holder(h, e.c.role).Some? <==> e.c.role in s.slots;
    match e
    case Joins(d, f, at) => JoinMail(s, d, f, at, c);
    case Sends(d, f, at) => SendMail(s, d, f, at, c);
    case Leaves(d, down, at) =>
      SynthesisedByeIsHistory(maxAge, h, d, down);
      LeaveMail(s, d, down, at, c);
  }

  lemma MailSnoc(p: PeerState, m: Mailbox, f: Option<Frame>, reaches: bool)
    requires MailAgrees(p, m)
    ensures MailAgrees(MailAfter(p, f, reaches),
                       if f.Some? && reaches && |m.sent| - m.written < 32 then m.(sent := m.sent + [f.value]) else m)
  {
  }

  lemma DrainMail(s: SessionState, d: Conn, c: Conn, m: Mailbox)
    requires MailAgrees(PeerOf(s, c), m)
    ensures MailAgrees(PeerOf(Drain(s, d), c), if d == c && m.written < |m.sent| then m.(written := m.written + 1) else m)
  {
  }

  /** In every legal run under a monotone clock, a connection has been sent exactly
      its mail, in order, and as much of it has been written as was drained. */
  lemma {:induction false} MailIsHistory(maxAge: nat, h: History, c: Conn)
    requires Legal(maxAge, h) && Monotone(h)
    ensures MailAgrees(PeerOf(Run(maxAge, h), c), MailOf(h, c, maxAge))
    ensures PeerOf(Run(maxAge, h), c).Inbox() == MailOf(h, c, maxAge).sent
  {
    if h.Then? {
      MailIsHistory(maxAge, h.past, c);
      NextMail(maxAge, h.past, h.event, c);
    }
    var m := MailOf(h, c, maxAge);
    assert m.sent[..m.written] + m.sent[m.written..] == m.sent;
  }

  lemma NextMail(maxAge: nat, h: History, e: Event, c: Conn)
    requires Legal(maxAge, Then(h, e)) && Monotone(Then(h, e)) && MailAgrees(PeerOf(Run(maxAge, h), c), MailOf(h, c, maxAge))
    ensures MailAgrees(PeerOf(Run(maxAge, Then(h, e)), c), MailOf(Then(h, e), c, maxAge))
  {
    var s, m := Run(maxAge, h), MailOf(h, c, maxAge);
    HoldersAreHistory(maxAge, h);
    assert Holder(h, c.role).Some? <==> c.role in s.slots;
    if e.Joins? && e.c == c {
      if Holder(h, c.role).None? {
        JoinerInbox(maxAge, h, c, e.frame, e.at);
      } else {
        assert Holder(h, c.role.Other()) != Some(c);
      }
    } else if e.Drains? {
      DrainMail(s, e.c, c, m);
    } else {
      StepMail(maxAge, h, e, c);
      MailSnoc(PeerOf(s, c), m, Forwarded(h, e), Holder(h, e.c.role.Other()) == Some(c));
    }
  }
}
