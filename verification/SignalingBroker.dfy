/** The broker in the source's own form: a `Session` whose maps, and `Peer`s
    whose flags and channels, are updated in place.  Every method is proved to
    do to the abstract session exactly what its function in Signaling says, so
    every theorem about those functions is one about this code. */
module SignalingBroker {
  import opened Signaling

  const REPLAY_ORDER: seq<Kind> := [Offer, Answer, RequestRenegotiate]

  class Peer {
    const id: Conn
    var negotiated: bool
    var saidBye: bool
    var byeReceived: bool
    var written: seq<Frame>
    var queue: seq<Frame>

    constructor (id: Conn)
      ensures this.id == id && View() == NEW_PEER
    {
      this.id := id;
      negotiated, saidBye, byeReceived := false, false, false;
      written, queue := [], [];
    }

    ghost function View(): PeerState
      reads this
    {
      PeerState(negotiated, saidBye, byeReceived, written, queue)
    }

    /** The channel's non-blocking send. */
    method TrySend(f: Frame) returns (sent: bool)
      modifies this`queue
      ensures View() == Accept(old(View()), f)
      ensures sent <==> |old(queue)| < SEND_BUFFER
    {
      sent := |queue| < SEND_BUFFER;
      if sent {
        queue := queue + [f];
      }
    }
  }

  /** The replay contribution of the first k types. */
  ghost function SdpPrefix(s: SessionState, r: Role, now: int, k: nat): seq<Frame>
    requires k <= 3
  {
    if k == 0 then [] else SdpPrefix(s, r, now, k - 1) + FreshSlot(SdpSlot(s, r, REPLAY_ORDER[k - 1]), now, s.maxAge)
  }

  /** The position of a type in the replay order. */
  function Rank(k: Kind): nat {
    if k.Offer? then 0 else if k.Answer? then 1 else if k.RequestRenegotiate? then 2 else 3
  }

  /** What is left of a buffer once the first k types have been aged out. */
  ghost function PurgeFirst(buf: map<Kind, Stamped>, now: int, maxAge: nat, k: nat): map<Kind, Stamped>
  {
    map t | t in buf && (Rank(t) < k ==> Fresh(buf[t], now, maxAge)) :: buf[t]
  }

  lemma AcceptSnoc(p: PeerState, fs: seq<Frame>, f: Frame)
    ensures AcceptAll(p, fs + [f]) == Accept(AcceptAll(p, fs), f)
  {
    assert (fs + [f])[..|fs|] == fs;
  }

  class Session {
    const maxAge: nat
    var peers: map<Role, Peer>
    var recent: map<Role, map<Kind, Stamped>>
    var recentICE: map<Role, seq<Stamped>>
    /** Every connection that ever registered here. */
    ghost var known: map<Conn, Peer>

    constructor (maxAge: nat)
      ensures Valid() && known == map[] && View() == Init(maxAge)
    {
      this.maxAge := maxAge;
      peers, recent, recentICE, known := map[], map[], map[], map[];
    }

    ghost predicate Valid()
      reads this
    {
      && (forall c :: c in known ==> known[c].id == c)
      && (forall r :: r in peers ==> peers[r].id.role == r && peers[r].id in known && known[peers[r].id] == peers[r])
      && (forall r, k :: r in recent && k in recent[r] ==> Replayable(k))
    }

    ghost function View(): SessionState
      reads this, known.Values
    {
      SessionState(maxAge, Slots(), PeerViews(), recent, recentICE)
    }

    ghost function Slots(): map<Role, Conn>
      reads this
    {
      map r | r in peers :: peers[r].id
    }

    ghost function PeerViews(): map<Conn, PeerState>
      reads this, known.Values
    {
      map c | c in known :: known[c].View()
    }

    /** Only p, possibly new, has changed. */
    twostate lemma OnlyPeer(p: Peer)
      requires old(Valid()) && (p.id in old(known) ==> old(known)[p.id] == p)
      requires known == old(known)[p.id := p]
      requires forall c :: c in old(known) && c != p.id ==> unchanged(old(known)[c])
      ensures PeerViews() == old(PeerViews())[p.id := p.View()]
    {
    }

    method Unregister(p: Peer)
      requires Valid() && p.id in known && known[p.id] == p
      modifies this`peers
      ensures Valid() && View() == Signaling.Unregister(old(View()), p.id)
    {
      if p.id.role in peers && peers[p.id.role] == p {
        peers := peers - {p.id.role};
      }
    }

    method MarkNegotiated(p: Peer)
      requires Valid() && p.id in known && known[p.id] == p
      modifies p`negotiated
      ensures Valid() && View() == Signaling.MarkNegotiated(old(View()), p.id)
    {
      p.negotiated := true;
      OnlyPeer(p);
    }

    method SetSaidBye(p: Peer, b: bool)
      requires Valid() && p.id in known && known[p.id] == p
      modifies p`saidBye
      ensures Valid() && View() == Signaling.SetSaidBye(old(View()), p.id, b)
    {
      p.saidBye := b;
      OnlyPeer(p);
    }

    method ClearByeReceived(p: Peer)
      requires Valid() && p.id in known && known[p.id] == p
      modifies p`byeReceived
      ensures Valid() && View() == Signaling.ClearByeReceived(old(View()), p.id)
    {
      p.byeReceived := false;
      OnlyPeer(p);
    }

    method DiscardReplay(roles: seq<Role>)
      requires Valid()
      modifies this`recent, this`recentICE
      ensures Valid() && View() == Discard(old(View()), set r | r in roles)
    {
      for i := 0 to |roles|
        invariant Valid()
        invariant recent == old(recent) - set r | r in roles[..i]
        invariant recentICE == old(recentICE) - set r | r in roles[..i]
      {
        recent := recent - {roles[i]};
        recentICE := recentICE - {roles[i]};
      }
      assert roles[..|roles|] == roles;
    }

    /** Adds p unless its role is taken, and replays the counterpart's buffers
        into p's channel.  `replayed` counts what the channel took.  The lock
        is held throughout, so nobody sees p between replay and entry. */
    method Register(p: Peer, now: int) returns (replayed: nat, ok: bool)
      requires Valid() && p.View() == NEW_PEER && p.id !in known
      modifies this, p`queue
      ensures Valid() && replayed == |p.queue|
      ensures ok <==> p.id.role !in old(peers)
      ensures if ok then known == old(known)[p.id := p] && View() == Signaling.Register(old(View()), p.id, now)
              else known == old(known) && View() == old(View()) && p.View() == NEW_PEER
    {
      ok := p.id.role !in peers;
      replayed := 0;
      if !ok {
        return;
      }
      ghost var s := View();
      replayed := Replay(p, p.id.role.Other(), now, s);
      Admit(p);
    }

    method Admit(p: Peer)
      requires Valid() && p.id.role !in peers && p.id !in known
      modifies this`peers, this`known
      ensures Valid() && known == old(known)[p.id := p]
      ensures View() == old(View()).(slots := old(Slots())[p.id.role := p.id], peers := old(PeerViews())[p.id := p.View()])
    {
      peers := peers[p.id.role := p];
      known := known[p.id := p];
      OnlyPeer(p);
    }

    /** Replays role `other` into p's channel, SDP first. */
    method Replay(p: Peer, other: Role, now: int, ghost s: SessionState) returns (replayed: nat)
      requires Valid() && p.View() == NEW_PEER && s == View() && p.id !in known
      modifies this`recent, p`queue
      ensures Valid() && replayed == |p.queue|
      ensures p.View() == AcceptAll(NEW_PEER, Signaling.Replay(s, other, now))
      ensures View() == s.(sdp := if other in s.sdp then s.sdp[other := Purge(s.sdp[other], now, maxAge)] else s.sdp)
    {
      replayed := ReplaySdp(p, other, now, s);
      replayed := ReplayIce(p, other, now, replayed, s);
    }

    /** First half of the replay: the SDP slots in order, stale ones deleted. */
    method ReplaySdp(p: Peer, other: Role, now: int, ghost s: SessionState) returns (replayed: nat)
      requires Valid() && p.View() == NEW_PEER
      requires recent == s.sdp && maxAge == s.maxAge
      modifies this`recent, p`queue
      ensures Valid() && replayed == |p.queue|
      ensures p.View() == AcceptAll(NEW_PEER, SdpReplay(s, other, now))
      ensures recent == if other in s.sdp then s.sdp[other := Purge(s.sdp[other], now, maxAge)] else s.sdp
    {
      replayed := 0;
      if other in recent {
        var buf;
        buf, replayed := ReplaySlots(p, other, now, recent[other], s);
        recent := recent[other := buf];
      }
      SdpPrefixAll(s, other, now);
    }

    method ReplaySlots(p: Peer, other: Role, now: int, slots: map<Kind, Stamped>, ghost s: SessionState)
      returns (buf: map<Kind, Stamped>, replayed: nat)
      requires p.View() == NEW_PEER && maxAge == s.maxAge
      requires slots == SdpBuffer(s, other) && forall k :: k in slots ==> Replayable(k)
      modifies p`queue
      ensures buf == Purge(slots, now, maxAge) && replayed == |p.queue|
      ensures p.View() == AcceptAll(NEW_PEER, SdpPrefix(s, other, now, 3))
    {
      buf, replayed := slots, 0;
      for i := 0 to |REPLAY_ORDER|
        invariant buf == PurgeFirst(slots, now, maxAge, i)
        invariant p.View() == AcceptAll(NEW_PEER, SdpPrefix(s, other, now, i))
        invariant replayed == |p.queue|
      {
        PurgeNext(slots, now, maxAge, i);
        PrefixNext(s, other, now, i);
        var sent;
        buf, sent := ReplaySlot(p, REPLAY_ORDER[i], buf, now);
        replayed := if sent then replayed + 1 else replayed;
      }
    }

    method ReplaySlot(p: Peer, t: Kind, slots: map<Kind, Stamped>, now: int)
      returns (buf: map<Kind, Stamped>, sent: bool)
      modifies p`queue
      ensures var young := t in slots && Fresh(slots[t], now, maxAge);
              && p.View() == (if young then Accept(old(p.View()), slots[t].frame) else old(p.View()))
              && buf == (if t in slots && !young then slots - {t} else slots)
      ensures |p.queue| == |old(p.queue)| + if sent then 1 else 0
    {
      buf, sent := slots, false;
      if t in slots {
        if now - slots[t].at > maxAge {
          buf := slots - {t};
        } else {
          sent := p.TrySend(slots[t].frame);
        }
      }
    }

    /** Second half: the candidates in send order, stale ones skipped. */
    method ReplayIce(p: Peer, other: Role, now: int, already: nat, ghost s: SessionState) returns (replayed: nat)
      requires p.View() == AcceptAll(NEW_PEER, SdpReplay(s, other, now)) && already == |p.queue|
      requires recentICE == s.ice && maxAge == s.maxAge
      modifies p`queue
      ensures replayed == |p.queue|
      ensures p.View() == AcceptAll(NEW_PEER, Signaling.Replay(s, other, now))
    {
      replayed := already;
      ghost var q, sdp := IceQueue(s, other), SdpReplay(s, other, now);
      if other in recentICE {
        var queue := recentICE[other];
        assert sdp + FreshFrames([], now, maxAge) == sdp;
        for i := 0 to |queue|
          invariant p.View() == AcceptAll(NEW_PEER, sdp + FreshFrames(q[..i], now, maxAge))
          invariant replayed == |p.queue|
        {
          ghost var done := sdp + FreshFrames(q[..i], now, maxAge);
          assert q[..i + 1][..i] == q[..i];
          if now - queue[i].at <= maxAge {
            AcceptSnoc(NEW_PEER, done, queue[i].frame);
            assert sdp + FreshFrames(q[..i + 1], now, maxAge) == done + [queue[i].frame];
            var sent := p.TrySend(queue[i].frame);
            replayed := if sent then replayed + 1 else replayed;
          }
        }
        assert q[..|q|] == q;
      }
      assert Signaling.Replay(s, other, now) == sdp + FreshFrames(q, now, maxAge);
      assert q == [] ==> Signaling.Replay(s, other, now) == sdp;
    }

    /** Buffer a frame of role `sender` for a later joiner. */
    method Store(sender: Role, f: Frame, now: int)
      requires Valid()
      modifies this`recent, this`recentICE
      ensures Valid() && View() == StoreFrame(old(View()), sender, f, now)
    {
      if Replayable(f.kind) {
        var buf := if sender in recent then recent[sender] else map[];
        recent := recent[sender := buf[f.kind := Stamped(f, now)]];
      } else if f.kind == Ice && f.hasData {
        var queue := if sender in recentICE then recentICE[sender] else [];
        if |queue| >= ICE_REPLAY_MAX {
          queue := queue[1..];
        }
        recentICE := recentICE[sender := queue + [Stamped(f, now)]];
      }
    }

    method Forward(to: Role, f: Frame, now: int) returns (ok: bool)
      requires Valid()
      modifies this`recent, this`recentICE, if to in peers then {peers[to]} else {}
      ensures Valid() && View() == Signaling.Forward(old(View()), to, f, now)
      ensures ok <==> to in peers && |old(peers[to].queue)| < SEND_BUFFER
    {
      Store(to.Other(), f, now);
      ok := to in peers;
      if ok {
        ok := Push(peers[to], f);
      }
    }

    /** Flag the receiver of a bye, then send on its channel. */
    method Push(target: Peer, f: Frame) returns (sent: bool)
      requires Valid() && target.id in known && known[target.id] == target
      requires target.id.role in peers && peers[target.id.role] == target
      modifies target
      ensures Valid() && sent == (|old(target.queue)| < SEND_BUFFER)
      ensures View() == Deliver(FlagBye(old(View()), target.id.role, f), target.id, f)
    {
      if f.kind == Bye {
        target.byeReceived := true;
      }
      sent := target.TrySend(f);
      OnlyPeer(target);
      assert Slots()[target.id.role] == target.id;
    }
  }

  /** wsHandler up to the pumps: register, tell a lone peer it is alone, forward
      the first frame.  A duplicate role is turned away. */
  method Join(sess: Session, p: Peer, first: Frame, now: int) returns (ok: bool)
    requires sess.Valid() && p.View() == NEW_PEER && p.id !in sess.known
    modifies sess, sess.known.Values, p
    ensures sess.Valid() && sess.View() == Signaling.Join(old(sess.View()), p.id, first, now)
    ensures ok <==> p.id.role !in old(sess.peers)
  {
    var replayed;
    replayed, ok := sess.Register(p, now);
    if ok {
      if p.id.role.Other() !in sess.peers {
        Advise(sess, p);
      }
      if ValidKind(first.kind) {
        var forwarded := sess.Forward(p.id.role.Other(), first, now);
      }
    }
  }

  method Advise(sess: Session, p: Peer)
    requires sess.Valid() && p.id in sess.known && sess.known[p.id] == p
    modifies p`queue
    ensures sess.Valid() && sess.View() == Deliver(old(sess.View()), p.id, AbsentNotice(p.id))
  {
    var advised := p.TrySend(AbsentNotice(p.id));
    sess.OnlyPeer(p);
  }

  /** One iteration of readPump. */
  method HandleFrame(sess: Session, p: Peer, f: Frame, now: int)
    requires sess.Valid() && p.id in sess.known && sess.known[p.id] == p
    modifies sess`recent, sess`recentICE, sess.known.Values
    ensures sess.Valid() && sess.View() == Receive(old(sess.View()), p.id, f, now)
  {
    if !ValidKind(f.kind) {
      return;
    }
    if f.kind == Offer || f.kind == Answer {
      sess.MarkNegotiated(p);
      sess.SetSaidBye(p, false);
      sess.ClearByeReceived(p);
    }
    ghost var s := sess.View();
    assert s.peers[p.id] == p.View();
    var echo := f.kind == Bye && p.byeReceived;
    if !echo {
      var forwarded := sess.Forward(p.id.role.Other(), f, now);
    }
    if f.kind == Bye {
      EndRound(sess, p, echo);
    }
  }

  /** A bye has been handled: an echo voids the sender's buffer only. */
  method EndRound(sess: Session, p: Peer, echo: bool)
    requires sess.Valid() && p.id in sess.known && sess.known[p.id] == p
    modifies sess`recent, sess`recentICE, p`saidBye
    ensures sess.Valid()
    ensures sess.View() == Signaling.SetSaidBye(Discard(old(sess.View()), if echo then {p.id.role} else {Client, Browser}), p.id, true)
  {
    var roles := if echo then [p.id.role] else [Client, Browser];
    assert (set r | r in roles) == if echo then {p.id.role} else {Client, Browser};
    sess.DiscardReplay(roles);
    sess.SetSaidBye(p, true);
  }

  /** The disconnect tail of wsHandler. */
  method Disconnect(sess: Session, p: Peer, shuttingDown: bool, now: int)
    requires sess.Valid() && p.id in sess.known && sess.known[p.id] == p
    modifies sess, sess.known.Values
    ensures sess.Valid() && sess.View() == Leave(old(sess.View()), p.id, shuttingDown, now)
  {
    ghost var s := sess.View();
    assert s.peers[p.id] == p.View();
    var over := DropBuffers(sess, p);
    if !shuttingDown && over && !p.saidBye {
      var told := sess.Forward(p.id.role.Other(), ByeFrom(p.id), now);
    }
  }

  /** Unregister p and discard what its departure voids; `over` tells that the
      session it took part in ended with it. */
  method DropBuffers(sess: Session, p: Peer) returns (over: bool)
    requires sess.Valid() && p.id in sess.known && sess.known[p.id] == p
    modifies sess
    ensures sess.Valid() && sess.known == old(sess.known)
    ensures over <==> EndsSession(p.View())
    ensures sess.View() == Discard(Signaling.Unregister(old(sess.View()), p.id), if over then {Client, Browser} else {p.id.role})
  {
    sess.Unregister(p);
    var roles := [p.id.role];
    var negotiated := p.negotiated;
    var ended := p.byeReceived;
    over := negotiated && !ended;
    if over {
      roles := roles + [p.id.role.Other()];
    }
    assert (set r | r in roles) == if over then {Client, Browser} else {p.id.role};
    sess.DiscardReplay(roles);
  }

  lemma PurgeNext(buf: map<Kind, Stamped>, now: int, maxAge: nat, i: nat)
    requires i < 3
    ensures var t := REPLAY_ORDER[i];
            && (t in buf <==> t in PurgeFirst(buf, now, maxAge, i))
            && PurgeFirst(buf, now, maxAge, i + 1)
               == (if t in buf && !Fresh(buf[t], now, maxAge) then PurgeFirst(buf, now, maxAge, i) - {t} else PurgeFirst(buf, now, maxAge, i))
  {
    assert forall k: Kind :: Rank(k) == i <==> k == REPLAY_ORDER[i];
  }

  lemma PrefixNext(s: SessionState, r: Role, now: int, i: nat)
    requires i < 3
    ensures var slot := SdpSlot(s, r, REPLAY_ORDER[i]);
            var before := AcceptAll(NEW_PEER, SdpPrefix(s, r, now, i));
            AcceptAll(NEW_PEER, SdpPrefix(s, r, now, i + 1))
            == if slot.Some? && Fresh(slot.value, now, s.maxAge) then Accept(before, slot.value.frame) else before
  {
    var slot, done := SdpSlot(s, r, REPLAY_ORDER[i]), SdpPrefix(s, r, now, i);
    if slot.Some? && Fresh(slot.value, now, s.maxAge) {
      AcceptSnoc(NEW_PEER, done, slot.value.frame);
    } else {
      assert done + [] == done;
    }
  }

  lemma SdpPrefixAll(s: SessionState, r: Role, now: int)
    ensures SdpPrefix(s, r, now, 3) == SdpReplay(s, r, now)
    ensures r !in s.sdp ==> SdpReplay(s, r, now) == []
  {
    assert SdpPrefix(s, r, now, 1) == FreshSlot(SdpSlot(s, r, Offer), now, s.maxAge);
    assert SdpPrefix(s, r, now, 2) == SdpPrefix(s, r, now, 1) + FreshSlot(SdpSlot(s, r, Answer), now, s.maxAge);
  }
}
