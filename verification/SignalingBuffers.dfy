/** The replay buffers refine the event log, and what a joiner is replayed. */
module SignalingBuffers {
  import opened Options
  import opened Signaling
  import opened SignalingHistory

  datatype Buffer = Buffer(sdp: map<Kind, Stamped>, ice: seq<Stamped>)

  function BufferOf(s: SessionState, r: Role): Buffer {
    Buffer(SdpBuffer(s, r), IceQueue(s, r))
  }

  const EMPTY := Buffer(map[], [])

  function Stored(b: Buffer, f: Frame, at: int): Buffer {
    Buffer(if Replayable(f.kind) then b.sdp[f.kind := Stamped(f, at)] else b.sdp,
           if IsCandidate(f) then PushIce(b.ice, Stamped(f, at)) else b.ice)
  }

  /** Voids, read off the state instead of the log. */
  predicate Wipes(s: SessionState, e: Event, r: Role) {
    match e
    case Sends(c, f, _) => f.kind == Bye && (c.role == r || !PeerOf(s, c).byeReceived)
    case Leaves(c, _, _) => c.role == r || EndsSession(PeerOf(s, c))
    case _ => false
  }

  predicate Accepted(s: SessionState, e: Event) {
    e.Joins? ==> e.c.role !in s.slots
  }

  /** What one step does to the buffer of role r. */
  function BufferAfter(s: SessionState, e: Event, r: Role): Buffer {
    var b := BufferOf(s, r);
    if Wipes(s, e, r) then EMPTY
    else if !Accepted(s, e) then b
    else if (e.Joins? || e.Sends?) && e.c.role == r && ValidKind(e.frame.kind) then Stored(b, e.frame, e.at)
    else if e.Joins? && e.c.role != r then b.(sdp := Purge(b.sdp, e.at, s.maxAge))
    else b
  }

  lemma StoreBuffer(s: SessionState, sender: Role, f: Frame, now: int, r: Role)
    ensures BufferOf(StoreFrame(s, sender, f, now), r)
         == if r == sender then Stored(BufferOf(s, r), f, now) else BufferOf(s, r)
  {
  }

  lemma ForwardBuffer(s: SessionState, to: Role, f: Frame, now: int, r: Role)
    ensures BufferOf(Forward(s, to, f, now), r)
         == if r == to then BufferOf(s, r) else Stored(BufferOf(s, r), f, now)
  {
    StoreBuffer(s, to.Other(), f, now, r);
    assert BufferOf(Forward(s, to, f, now), r) == BufferOf(StoreFrame(s, to.Other(), f, now), r);
  }

  lemma DiscardBuffer(s: SessionState, roles: set<Role>, r: Role)
    ensures BufferOf(Discard(s, roles), r) == if r in roles then EMPTY else BufferOf(s, r)
  {
  }

  lemma JoinBuffer(s: SessionState, d: Conn, f: Frame, at: int, r: Role)
    ensures BufferOf(Join(s, d, f, at), r) == BufferAfter(s, Joins(d, f, at), r)
  {
    if d.role !in s.slots {
      var other := d.role.Other();
      var s1 := Register(s, d, at);
      assert BufferOf(s1, r) == if r == other then Buffer(Purge(SdpBuffer(s, r), at, s.maxAge), IceQueue(s, r)) else BufferOf(s, r);
      var s2 := if other in s1.slots then s1 else Deliver(s1, d, AbsentNotice(d));
      assert BufferOf(s2, r) == BufferOf(s1, r);
      ForwardBuffer(s2, other, f, at, r);
    }
  }

  lemma ReceiveBuffer(s: SessionState, d: Conn, f: Frame, at: int, r: Role)
    ensures BufferOf(Receive(s, d, f, at), r) == BufferAfter(s, Sends(d, f, at), r)
  {
    var other := d.role.Other();
    if !ValidKind(f.kind) {
    } else if f.kind == Bye {
      var echo := IsEcho(s, d, f);
      var s2 := if echo then s else Forward(s, other, f, at);
      ForwardBuffer(s, other, f, at, r);
      DiscardBuffer(s2, if echo then {d.role} else {Client, Browser}, r);
    } else {
      var s1 := if IsSdp(f.kind) then StartNegotiation(s, d) else s;
      assert BufferOf(s1, r) == BufferOf(s, r);
      ForwardBuffer(s1, other, f, at, r);
      assert Receive(s, d, f, at) == Forward(s1, other, f, at);
    }
  }

  lemma LeaveBuffer(s: SessionState, d: Conn, down: bool, at: int, r: Role)
    ensures BufferOf(Leave(s, d, down, at), r) == BufferAfter(s, Leaves(d, down, at), r)
  {
    var roles := if EndsSession(PeerOf(s, d)) then {Client, Browser} else {d.role};
    var s1 := Discard(Unregister(s, d), roles);
    DiscardBuffer(Unregister(s, d), roles, r);
    ForwardBuffer(s1, d.role.Other(), ByeFrom(d), at, r);
  }

  lemma StepBuffer(s: SessionState, e: Event, r: Role)
    ensures BufferOf(Step(s, e), r) == BufferAfter(s, e, r)
  {
    match e
    case Joins(d, f, at) => JoinBuffer(s, d, f, at, r);
    case Sends(d, f, at) => ReceiveBuffer(s, d, f, at, r);
    case Leaves(d, down, at) => LeaveBuffer(s, d, down, at, r);
    case Drains(d, _) =>
  }

  // ----- refinement of the log -----

  lemma LatestOfSnoc(q: seq<Stamped>, e: Stamped, k: Kind)
    ensures Latest(q + [e], k) == if e.frame.kind == k then Some(e) else Latest(q, k)
    ensures Candidates(q + [e]) == if IsCandidate(e.frame) then Candidates(q) + [e] else Candidates(q)
  {
    assert (q + [e])[..|q|] == q;
  }

  lemma PushIsLastN(q: seq<Stamped>, e: Stamped)
    ensures PushIce(LastN(q, ICE_REPLAY_MAX), e) == LastN(q + [e], ICE_REPLAY_MAX)
  {
  }

  /** The state-level and log-level readings of an event agree. */
  lemma EventReadings(maxAge: nat, h: History, e: Event, r: Role)
    requires Legal(maxAge, h) && Enabled(Run(maxAge, h), e)
    ensures Wipes(Run(maxAge, h), e, r) <==> Voids(h, e, r)
    ensures Accepted(Run(maxAge, h), e) && (e.Joins? || e.Sends?) && e.c.role == r && ValidKind(e.frame.kind)
       <==> Carries(h, e, r)
  {
    FlagsAreHistory(maxAge, h, e.c);
    LastOfAll(h, e.c);
    HoldersAreHistory(maxAge, h);
    assert Holder(h, e.c.role).Some? <==> e.c.role in Run(maxAge, h).slots;
  }

  /** In every legal run the candidate queue of a role is the last at most 32
      data-bearing candidates it sent since its frames were last voided. */
  lemma {:induction false} IceQueueIsHistory(maxAge: nat, h: History, r: Role)
    requires Legal(maxAge, h)
    ensures IceQueue(Run(maxAge, h), r) == LastN(Candidates(Live(h, r)), ICE_REPLAY_MAX)
  {
    if h.Then? {
      var s, e := Run(maxAge, h.past), h.event;
      IceQueueIsHistory(maxAge, h.past, r);
      EventReadings(maxAge, h.past, e, r);
      StepBuffer(s, e, r);
      assert IceQueue(Step(s, e), r) == BufferAfter(s, e, r).ice;
      if Carries(h.past, e, r) && !Voids(h.past, e, r) {
        LatestOfSnoc(Live(h.past, r), Stamped(e.frame, e.at), Offer);
        PushIsLastN(Candidates(Live(h.past, r)), Stamped(e.frame, e.at));
      }
    }
  }

  /** One step keeps a slot in agreement with the latest frame of its type. */
  lemma SlotStep(s: SessionState, after: Buffer, e: Event, r: Role, k: Kind, live: seq<Stamped>, now: int)
    requires after == BufferAfter(s, e, r) && Replayable(k)
    requires SlotMatches(SdpSlot(s, r, k), Latest(live, k), now, s.maxAge) && now <= e.at
    ensures var carries := Accepted(s, e) && (e.Joins? || e.Sends?) && e.c.role == r && ValidKind(e.frame.kind);
            var live' := if Wipes(s, e, r) then [] else if carries then live + [Stamped(e.frame, e.at)] else live;
            SlotMatches(if k in after.sdp then Some(after.sdp[k]) else None, Latest(live', k), e.at, s.maxAge)
  {
    if (e.Joins? || e.Sends?) {
      LatestOfSnoc(live, Stamped(e.frame, e.at), k);
    }
  }

  /** In every legal run under a monotone clock each SDP slot is the latest
      frame of its type since the role's frames were last voided, or is empty
      because that frame was found stale, and then it stays stale. */
  lemma {:induction false} SdpSlotIsHistory(maxAge: nat, h: History, r: Role, k: Kind)
    requires Legal(maxAge, h) && Monotone(h) && Replayable(k)
    ensures SlotMatches(SdpSlot(Run(maxAge, h), r, k), Latest(Live(h, r), k), Now(h), maxAge)
  {
    if h.Then? {
      var s, e := Run(maxAge, h.past), h.event;
      SdpSlotIsHistory(maxAge, h.past, r, k);
      var after := BufferAfter(s, e, r);
      assert SdpBuffer(Run(maxAge, h), r) == after.sdp by { StepBuffer(s, e, r); }
      RunMaxAge(maxAge, h.past);
      if h.past.Boot? {
        SlotStep(s, after, e, r, k, Live(h.past, r), e.at);
      } else {
        SlotStep(s, after, e, r, k, Live(h.past, r), Now(h.past));
      }
      EventReadings(maxAge, h.past, e, r);
    }
  }

  lemma {:induction false} RunMaxAge(maxAge: nat, h: History)
    ensures Run(maxAge, h).maxAge == maxAge
  {
    if h.Then? {
      RunMaxAge(maxAge, h.past);
      StepSlots(Run(maxAge, h.past), h.event);
    }
  }

  lemma NonEmptyHasMember(q: seq<Stamped>)
    ensures q != [] ==> exists x :: x in q
  {
    if q != [] {
      assert q[0] in q;
    }
  }

  /** Every live frame of a role was sent by the connection registered in it
      now; a role nobody holds has none. */
  lemma {:induction false} LiveFramesAreTheHolders(maxAge: nat, h: History, r: Role)
    requires Legal(maxAge, h)
    ensures forall x | x in Live(h, r) :: Holder(h, r) == Some(x.frame.origin)
  {
    if h.Then? {
      var s, e := Run(maxAge, h.past), h.event;
      LiveFramesAreTheHolders(maxAge, h.past, r);
      HoldersAreHistory(maxAge, h.past);
      assert Holder(h.past, e.c.role).Some? <==> e.c.role in s.slots;
      assert Holder(h.past, r).Some? <==> r in s.slots;
      if Holder(h.past, r).None? {
        NonEmptyHasMember(Live(h.past, r));
      }
    }
  }

  // ----- what a joiner is replayed -----

  function Min(a: int, b: int): int {
    if a <= b then a else b
  }

  /** A burst into the send channel keeps its first frames, in order. */
  lemma {:induction false} AcceptAllTakes(p: PeerState, fs: seq<Frame>)
    requires |p.queue| <= SEND_BUFFER
    ensures AcceptAll(p, fs) == p.(queue := p.queue + fs[..Min(SEND_BUFFER - |p.queue|, |fs|)])
  {
    if fs != [] {
      AcceptAllTakes(p, fs[..|fs| - 1]);
      var n := Min(SEND_BUFFER - |p.queue|, |fs| - 1);
      assert fs[..|fs| - 1][..n] == fs[..n];
      assert n == |fs| - 1 ==> fs[..n] + [fs[|fs| - 1]] == fs;
    }
  }

  /** The replay owed for the frames of role r, from the log alone: no stale
      entry is ever deleted here. */
  function SdpOwed(h: History, r: Role, now: int, maxAge: nat): seq<Frame> {
    FreshSlot(Latest(Live(h, r), Offer), now, maxAge)
    + FreshSlot(Latest(Live(h, r), Answer), now, maxAge)
    + FreshSlot(Latest(Live(h, r), RequestRenegotiate), now, maxAge)
  }

  function IceOwed(h: History, r: Role, now: int, maxAge: nat): seq<Frame> {
    FreshFrames(LastN(Candidates(Live(h, r)), ICE_REPLAY_MAX), now, maxAge)
  }

  function Owed(h: History, r: Role, now: int, maxAge: nat): seq<Frame> {
    SdpOwed(h, r, now, maxAge) + IceOwed(h, r, now, maxAge)
  }

  lemma SlotsReplayAlike(slot: Option<Stamped>, latest: Option<Stamped>, then_: int, now: int, maxAge: nat)
    requires SlotMatches(slot, latest, then_, maxAge) && then_ <= now
    ensures FreshSlot(slot, now, maxAge) == FreshSlot(latest, now, maxAge)
  {
  }

  /** Deleting stale SDP at earlier joins never changes what a later one is
      owed. */
  lemma ReplayIsHistory(maxAge: nat, h: History, r: Role, now: int)
    requires Legal(maxAge, h) && Monotone(h) && (h.Then? ==> h.event.at <= now)
    ensures Replay(Run(maxAge, h), r, now) == Owed(h, r, now, maxAge)
  {
    var s := Run(maxAge, h);
    RunMaxAge(maxAge, h);
    IceQueueIsHistory(maxAge, h, r);
    var t := if h.Then? then Now(h) else now;
    SdpSlotIsHistory(maxAge, h, r, Offer);
    SlotsReplayAlike(SdpSlot(s, r, Offer), Latest(Live(h, r), Offer), t, now, maxAge);
    SdpSlotIsHistory(maxAge, h, r, Answer);
    SlotsReplayAlike(SdpSlot(s, r, Answer), Latest(Live(h, r), Answer), t, now, maxAge);
    SdpSlotIsHistory(maxAge, h, r, RequestRenegotiate);
    SlotsReplayAlike(SdpSlot(s, r, RequestRenegotiate), Latest(Live(h, r), RequestRenegotiate), t, now, maxAge);
  }

  lemma {:induction false} FreshFramesFrom(q: seq<Stamped>, now: int, maxAge: nat)
    ensures |FreshFrames(q, now, maxAge)| <= |q|
    ensures forall f | f in FreshFrames(q, now, maxAge) :: exists x :: x in q && x.frame == f
  {
    if q != [] {
      var init := q[..|q| - 1];
      FreshFramesFrom(init, now, maxAge);
      forall f | f in FreshFrames(q, now, maxAge)
        ensures exists x :: x in q && x.frame == f
      {
        if f in FreshFrames(init, now, maxAge) {
          var x :| x in init && x.frame == f;
          assert x in q;
        } else {
          assert q[|q| - 1] in q;
        }
      }
    }
  }

  lemma {:induction false} LatestFrom(q: seq<Stamped>, k: Kind)
    ensures Latest(q, k).Some? ==> Latest(q, k).value in q && Latest(q, k).value.frame.kind == k
  {
    if q != [] && q[|q| - 1].frame.kind != k {
      LatestFrom(q[..|q| - 1], k);
    }
  }

  lemma {:induction false} CandidatesFrom(q: seq<Stamped>)
    ensures forall x | x in Candidates(q) :: x in q
  {
    if q != [] {
      CandidatesFrom(q[..|q| - 1]);
    }
  }

  /** Everything owed comes from the connection holding the role now. */
  lemma OwedByHolder(maxAge: nat, h: History, r: Role, now: int)
    requires Legal(maxAge, h)
    ensures forall f | f in Owed(h, r, now, maxAge) :: Holder(h, r) == Some(f.origin)
  {
    var live := Live(h, r);
    LiveFramesAreTheHolders(maxAge, h, r);
    LatestFrom(live, Offer);
    LatestFrom(live, Answer);
    LatestFrom(live, RequestRenegotiate);
    CandidatesFrom(live);
    FreshFramesFrom(LastN(Candidates(live), ICE_REPLAY_MAX), now, maxAge);
    forall f | f in IceOwed(h, r, now, maxAge)
      ensures Holder(h, r) == Some(f.origin)
    {
      var x :| x in LastN(Candidates(live), ICE_REPLAY_MAX) && x.frame == f;
      assert x in Candidates(live);
    }
  }

  lemma JoinInbox(s: SessionState, c: Conn, first: Frame, at: int)
    requires c.role !in s.slots && c !in s.peers && SlotsHonest(s)
    ensures PeerOf(Join(s, c, first, at), c)
         == var p := AcceptAll(NEW_PEER, Replay(s, c.role.Other(), at));
            if c.role.Other() in s.slots then p else Accept(p, AbsentNotice(c))
  {
    var s1, other := Register(s, c, at), c.role.Other();
    var s2 := if other in s1.slots then s1 else Deliver(s1, c, AbsentNotice(c));
    ForwardPeer(s2, other, first, at, c);
  }

  lemma OwedBounds(h: History, r: Role, now: int, maxAge: nat)
    ensures |SdpOwed(h, r, now, maxAge)| <= 3 && |IceOwed(h, r, now, maxAge)| <= ICE_REPLAY_MAX
  {
    FreshFramesFrom(LastN(Candidates(Live(h, r)), ICE_REPLAY_MAX), now, maxAge);
  }

  // ----- the same in terms of the log's indices -----

  /** `frames` are the frames of q at the indices ix, in order. */
  ghost predicate Picks(q: seq<Stamped>, ix: seq<int>, frames: seq<Frame>) {
    && |ix| == |frames|
    && (forall k :: 0 <= k < |ix| ==> 0 <= ix[k] < |q| && frames[k] == q[ix[k]].frame)
    && (forall k, l :: 0 <= k < l < |ix| ==> ix[k] < ix[l])
  }

  /** The candidates sent after index i. */
  ghost function LaterCandidates(q: seq<Stamped>, i: int): set<int> {
    set j | 0 <= j < |q| && i < j && q[j].frame.kind == Ice && q[j].frame.hasData
  }

  /** Entry i is a candidate with data, at most maxAge old, with fewer than 32 such
      candidates after it. */
  ghost predicate CandidateOwed(q: seq<Stamped>, i: int, now: int, maxAge: nat) {
    && 0 <= i < |q| && q[i].frame.kind == Ice && q[i].frame.hasData
    && now - q[i].at <= maxAge && |LaterCandidates(q, i)| < 32
  }

  /** `ice` is exactly the candidates owed, in the order sent. */
  ghost predicate CandidatesOwed(q: seq<Stamped>, ice: seq<Frame>, now: int, maxAge: nat) {
    exists ix :: Picks(q, ix, ice) && forall i :: i in ix <==> CandidateOwed(q, i, now, maxAge)
  }

  /** Entry i is the last of its kind, and at most maxAge old. */
  ghost predicate LastYoung(q: seq<Stamped>, k: Kind, i: int, now: int, maxAge: nat) {
    && 0 <= i < |q| && q[i].frame.kind == k && (forall j :: i < j < |q| ==> q[j].frame.kind != k)
    && now - q[i].at <= maxAge
  }

  /** `part` is the last frame of kind k if that is at most maxAge old, else
      nothing. */
  ghost predicate LastOwed(q: seq<Stamped>, k: Kind, part: seq<Frame>, now: int, maxAge: nat) {
    if exists i :: LastYoung(q, k, i, now, maxAge)
    then exists i :: LastYoung(q, k, i, now, maxAge) && part == [q[i].frame]
    else part == []
  }

  /** `sdp` is what is owed of offers, answers and renegotiation requests, in that
      order. */
  ghost predicate DescriptionsOwed(q: seq<Stamped>, sdp: seq<Frame>, now: int, maxAge: nat) {
    exists o, a, r ::
      && sdp == o + a + r && LastOwed(q, Offer, o, now, maxAge) && LastOwed(q, Answer, a, now, maxAge)
      && LastOwed(q, RequestRenegotiate, r, now, maxAge)
  }

  lemma {:induction false} LatestAt(q: seq<Stamped>, k: Kind) returns (i: int)
    ensures if Latest(q, k).Some?
            then 0 <= i < |q| && Latest(q, k).value == q[i] && q[i].frame.kind == k && forall j :: i < j < |q| ==> q[j].frame.kind != k
            else forall j :: 0 <= j < |q| ==> q[j].frame.kind != k
  {
    i := |q| - 1;
    if q != [] && q[|q| - 1].frame.kind != k {
      i := LatestAt(q[..|q| - 1], k);
    }
  }

  lemma SlotIsOwed(q: seq<Stamped>, k: Kind, now: int, maxAge: nat)
    ensures LastOwed(q, k, FreshSlot(Latest(q, k), now, maxAge), now, maxAge)
  {
    var i := LatestAt(q, k);
    if Latest(q, k).Some? {
      if now - q[i].at <= maxAge {
        assert LastYoung(q, k, i, now, maxAge);
      } else {
        assert forall j :: LastYoung(q, k, j, now, maxAge) ==> j == i;
      }
    }
  }

  lemma SdpIsOwed(h: History, r: Role, now: int, maxAge: nat)
    ensures DescriptionsOwed(Live(h, r), SdpOwed(h, r, now, maxAge), now, maxAge)
  {
    var q := Live(h, r);
    SlotIsOwed(q, Offer, now, maxAge);
    SlotIsOwed(q, Answer, now, maxAge);
    SlotIsOwed(q, RequestRenegotiate, now, maxAge);
  }

  /** The candidates of q are the entries at the indices ix. */
  ghost predicate CandidatesAt(q: seq<Stamped>, ix: seq<int>) {
    && |ix| == |Candidates(q)|
    && (forall k :: 0 <= k < |ix| ==> 0 <= ix[k] < |q| && Candidates(q)[k] == q[ix[k]])
    && (forall k, l :: 0 <= k < l < |ix| ==> ix[k] < ix[l])
    && (forall i :: i in ix <==> 0 <= i < |q| && q[i].frame.kind == Ice && q[i].frame.hasData)
  }

  lemma {:induction false} CandidateIndices(q: seq<Stamped>) returns (ix: seq<int>)
    ensures CandidatesAt(q, ix)
  {
    ix := [];
    if q != [] {
      var last := |q| - 1;
      ix := CandidateIndices(q[..last]);
      if q[last].frame.kind == Ice && q[last].frame.hasData {
        ix := ix + [last];
      }
    }
  }

  lemma {:induction false} CountAfter(ix: seq<int>, k: nat)
    requires k < |ix| && forall i, j :: 0 <= i < j < |ix| ==> ix[i] < ix[j]
    ensures |set i | i in ix && ix[k] < i| == |ix| - 1 - k
    decreases |ix| - k
  {
    var after := set i | i in ix && ix[k] < i;
    if k == |ix| - 1 {
      assert after == {};
    } else {
      CountAfter(ix, k + 1);
      var rest := set i | i in ix && ix[k + 1] < i;
      assert after == rest + {ix[k + 1]};
    }
  }

  /** ix are the indices of the entries of q at most maxAge old. */
  ghost predicate YoungAt(q: seq<Stamped>, ix: seq<int>, now: int, maxAge: nat) {
    forall i :: i in ix <==> 0 <= i < |q| && now - q[i].at <= maxAge
  }

  lemma PicksMore(q: seq<Stamped>, x: Stamped, ix: seq<int>, frames: seq<Frame>)
    requires Picks(q, ix, frames)
    ensures Picks(q + [x], ix, frames) && Picks(q + [x], ix + [|q|], frames + [x.frame])
  {
  }

  lemma YoungMore(q: seq<Stamped>, x: Stamped, ix: seq<int>, now: int, maxAge: nat)
    requires YoungAt(q, ix, now, maxAge)
    ensures YoungAt(q + [x], if now - x.at <= maxAge then ix + [|q|] else ix, now, maxAge)
  {
    var q' := q + [x];
    assert forall i :: 0 <= i < |q| ==> q'[i] == q[i];
  }

  lemma {:induction false} FreshIndices(q: seq<Stamped>, now: int, maxAge: nat) returns (ix: seq<int>)
    ensures Picks(q, ix, FreshFrames(q, now, maxAge)) && YoungAt(q, ix, now, maxAge)
  {
    ix := [];
    if q != [] {
      var init, x := q[..|q| - 1], q[|q| - 1];
      ix := FreshIndices(init, now, maxAge);
      PicksMore(init, x, ix, FreshFrames(init, now, maxAge));
      YoungMore(init, x, ix, now, maxAge);
      assert init + [x] == q;
      if now - x.at <= maxAge {
        ix := ix + [|init|];
      }
    }
  }

  /** Index m of the last at most 32 candidates, as an index of q. */
  lemma RecentCandidate(q: seq<Stamped>, cs: seq<int>, m: nat, now: int, maxAge: nat)
    requires CandidatesAt(q, cs) && m < |cs|
    ensures CandidateOwed(q, cs[m], now, maxAge) <==> now - q[cs[m]].at <= maxAge && |cs| - m <= 32
  {
    CountAfter(cs, m);
    assert cs[m] in cs;
    assert LaterCandidates(q, cs[m]) == set i | i in cs && cs[m] < i;
  }

  /** Picking from a pick. */
  lemma PicksThrough(q: seq<Stamped>, cs: seq<int>, recent: seq<Stamped>, skip: nat, fx: seq<int>, frames: seq<Frame>, ix: seq<int>)
    requires |cs| == skip + |recent| && Picks(recent, fx, frames) && |ix| == |fx|
    requires forall k :: 0 <= k < |cs| ==> 0 <= cs[k] < |q|
    requires forall k, l :: 0 <= k < l < |cs| ==> cs[k] < cs[l]
    requires forall k :: 0 <= k < |recent| ==> recent[k] == q[cs[skip + k]]
    requires forall k :: 0 <= k < |ix| ==> ix[k] == cs[skip + fx[k]]
    ensures Picks(q, ix, frames)
  {
  }

  lemma IceIndexOwed(q: seq<Stamped>, cs: seq<int>, recent: seq<Stamped>, skip: nat, fx: seq<int>, ix: seq<int>, i: int, now: int, maxAge: nat)
    requires CandidatesAt(q, cs) && skip == (if |cs| <= 32 then 0 else |cs| - 32) && |ix| == |fx| && |cs| == skip + |recent|
    requires forall k :: 0 <= k < |recent| ==> recent[k] == q[cs[skip + k]]
    requires YoungAt(recent, fx, now, maxAge)
    requires forall k :: 0 <= k < |ix| ==> 0 <= fx[k] < |recent| && ix[k] == cs[skip + fx[k]]
    ensures i in ix <==> CandidateOwed(q, i, now, maxAge)
  {
    if i in ix {
      var k :| 0 <= k < |ix| && ix[k] == i;
      assert fx[k] in fx;
      RecentCandidate(q, cs, skip + fx[k], now, maxAge);
    }
    if CandidateOwed(q, i, now, maxAge) {
      assert i in cs;
      var m :| 0 <= m < |cs| && cs[m] == i;
      RecentCandidate(q, cs, m, now, maxAge);
      assert recent[m - skip] == q[i];
      assert m - skip in fx;
      var k :| 0 <= k < |fx| && fx[k] == m - skip;
      assert ix[k] == i;
    }
  }

  lemma IceIndicesOwed(q: seq<Stamped>, cs: seq<int>, recent: seq<Stamped>, skip: nat, fx: seq<int>, ix: seq<int>, now: int, maxAge: nat)
    requires CandidatesAt(q, cs) && skip == (if |cs| <= 32 then 0 else |cs| - 32) && |ix| == |fx| && |cs| == skip + |recent|
    requires forall k :: 0 <= k < |recent| ==> recent[k] == q[cs[skip + k]]
    requires YoungAt(recent, fx, now, maxAge)
    requires forall k :: 0 <= k < |ix| ==> 0 <= fx[k] < |recent| && ix[k] == cs[skip + fx[k]]
    ensures forall i :: i in ix <==> CandidateOwed(q, i, now, maxAge)
  {
    forall i
      ensures i in ix <==> CandidateOwed(q, i, now, maxAge)
    {
      IceIndexOwed(q, cs, recent, skip, fx, ix, i, now, maxAge);
    }
  }

  lemma RecentAreOwed(q: seq<Stamped>, cs: seq<int>, recent: seq<Stamped>, now: int, maxAge: nat)
    requires CandidatesAt(q, cs) && |recent| == Min(32, |cs|)
    requires forall k :: 0 <= k < |recent| ==> recent[k] == q[cs[|cs| - |recent| + k]]
    ensures CandidatesOwed(q, FreshFrames(recent, now, maxAge), now, maxAge)
  {
    var skip := |cs| - |recent|;
    var fx := FreshIndices(recent, now, maxAge);
    var ix := seq(|fx|, k requires 0 <= k < |fx| => cs[skip + fx[k]]);
    PicksThrough(q, cs, recent, skip, fx, FreshFrames(recent, now, maxAge), ix);
    IceIndicesOwed(q, cs, recent, skip, fx, ix, now, maxAge);
  }

  lemma IceIsOwed(h: History, r: Role, now: int, maxAge: nat)
    ensures CandidatesOwed(Live(h, r), IceOwed(h, r, now, maxAge), now, maxAge)
  {
    var q := Live(h, r);
    var cs := CandidateIndices(q);
    RecentAreOwed(q, cs, LastN(Candidates(q), ICE_REPLAY_MAX), now, maxAge);
  }

  lemma JoinerInbox(maxAge: nat, h: History, c: Conn, first: Frame, at: int)
    requires Legal(maxAge, Then(h, Joins(c, first, at))) && Monotone(Then(h, Joins(c, first, at)))
    requires Holder(h, c.role).None?
    ensures var other := c.role.Other();
            var sdp, ice := SdpOwed(h, other, at, maxAge), IceOwed(h, other, at, maxAge);
            var p := PeerOf(Run(maxAge, Then(h, Joins(c, first, at))), c);
            && p.written == []
            && p.queue == if Holder(h, other).Some? then (sdp + ice)[..Min(32, |sdp| + |ice|)] else [AbsentNotice(c)]
  {
    var s, other := Run(maxAge, h), c.role.Other();
    HoldersAreHistory(maxAge, h);
    assert Holder(h, c.role).Some? <==> c.role in s.slots;
    assert Holder(h, other).Some? <==> other in s.slots;
    ReplayIsHistory(maxAge, h, other, at);
    OwedByHolder(maxAge, h, other, at);
    var owed := Owed(h, other, at, maxAge);
    AcceptAllTakes(NEW_PEER, owed);
    JoinInbox(s, c, first, at);
    assert owed != [] ==> owed[0] in owed;
  }

  /** What the newcomer of a legal run finds in its channel: with the
      counterpart present, exactly the first 32 of the fresh SDP in offer,
      answer, renegotiate order followed by the fresh candidates in send
      order, all of them the present counterpart's; so no SDP is dropped and
      at most as many of the newest candidates as there is SDP.  Fresh is at most
      maxAge old, and both are read off the log entry by entry.  Alone, it finds
      the absence notice only. */
  lemma JoinerReceives(maxAge: nat, h: History, c: Conn, first: Frame, at: int)
    requires Legal(maxAge, Then(h, Joins(c, first, at))) && Monotone(Then(h, Joins(c, first, at)))
    requires Holder(h, c.role).None?
    ensures var other := c.role.Other();
            var sdp, ice := SdpOwed(h, other, at, maxAge), IceOwed(h, other, at, maxAge);
            var inbox := PeerOf(Run(maxAge, Then(h, Joins(c, first, at))), c).Inbox();
            && DescriptionsOwed(Live(h, other), sdp, at, maxAge) && CandidatesOwed(Live(h, other), ice, at, maxAge)
            && |sdp| <= 3 && |ice| <= 32
            && (forall f | f in sdp + ice :: Holder(h, other) == Some(f.origin))
            && inbox == (if Holder(h, other).Some? then (sdp + ice)[..Min(32, |sdp| + |ice|)] else [AbsentNotice(c)])
            && (Holder(h, other).Some? ==> sdp <= inbox && |sdp| + |ice| - |inbox| <= |sdp|)
  {
    var other := c.role.Other();
    JoinerInbox(maxAge, h, c, first, at);
    SdpIsOwed(h, other, at, maxAge);
    IceIsOwed(h, other, at, maxAge);
    OwedByHolder(maxAge, h, other, at);
    OwedBounds(h, other, at, maxAge);
  }
}
