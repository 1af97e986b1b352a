/** What a session's state means in terms of everything that happened to it.

    The definitions in the first half read the event log alone: who is
    registered, what a connection did last, which events void a role's frames
    and which frames are still live.  The lemmas in the second half prove that
    the registered connections and the three flags the broker keeps are exactly
    those readings, in every legal coarse run. */
module SignalingHistory {
  import opened Options
  import opened Signaling

  datatype Mark = Nothing | SentSdp | SentBye | GotBye

  /** The connection holding role r: the last accepted join not yet left. */
  function Holder(h: History, r: Role): Option<Conn> {
    match h
    case Boot => None
    case Then(past, Joins(c, _, _)) =>
      if c.role == r && Holder(past, r).None? then Some(c) else Holder(past, r)
    case Then(past, Leaves(c, _, _)) =>
      if Holder(past, r) == Some(c) then None else Holder(past, r)
    case Then(past, _) => Holder(past, r)
  }

  /** The last mark of c among those in `of`. */
  function Last(h: History, c: Conn, of: set<Mark>): Mark
    decreases h, 0
  {
    match h
    case Boot => Nothing
    case Then(past, e) =>
      var m := MarkOf(past, e, c);
      if m in of then m else Last(past, c, of)
  }

  /** What event e, after `past`, means for connection c. */
  function MarkOf(past: History, e: Event, c: Conn): Mark
    decreases past, 3
  {
    if e.Sends? && e.c == c && (e.frame.kind == Offer || e.frame.kind == Answer) then SentSdp
    else if e.Sends? && e.c == c && e.frame.kind == Bye then SentBye
    else if SendsBye(past, e) && Holder(past, e.c.role.Other()) == Some(c) then GotBye
    else Nothing
  }

  /** Event e makes the broker forward a bye to the counterpart of e.c. */
  predicate SendsBye(past: History, e: Event)
    decreases past, 2
  {
    match e
    case Joins(c, f, _) => f.kind == Bye && Holder(past, c.role).None?
    case Sends(c, f, _) => f.kind == Bye && !Ended(past, c)
    case Leaves(c, down, _) => !down && Last(past, c, {SentSdp, SentBye, GotBye}) == SentSdp
    case Drains(_, _) => false
  }

  /** A bye reached c and c has not negotiated since. */
  predicate Ended(h: History, c: Conn)
    decreases h, 1
  {
    Last(h, c, {SentSdp, GotBye}) == GotBye
  }

  /** Event e voids everything role r has sent so far. */
  predicate Voids(past: History, e: Event, r: Role) {
    match e
    case Sends(c, f, _) => f.kind == Bye && (c.role == r || !Ended(past, c))
    case Leaves(c, _, _) => c.role == r || Last(past, c, {SentSdp, GotBye}) == SentSdp
    case _ => false
  }

  /** Event e carries a frame of role r to be forwarded. */
  predicate Carries(past: History, e: Event, r: Role) {
    (e.Joins? || e.Sends?) && e.c.role == r && e.frame.kind != PeerAbsent && e.frame.kind != Unknown
    && (e.Joins? ==> Holder(past, r).None?)
  }

  /** The frames of role r, in order, since the last event that voided them. */
  function Live(h: History, r: Role): seq<Stamped> {
    match h
    case Boot => []
    case Then(past, e) =>
      if Voids(past, e, r) then []
      else if Carries(past, e, r) then Live(past, r) + [Stamped(e.frame, e.at)]
      else Live(past, r)
  }

  function Latest(q: seq<Stamped>, k: Kind): Option<Stamped> {
    if q == [] then None
    else if q[|q| - 1].frame.kind == k then Some(q[|q| - 1])
    else Latest(q[..|q| - 1], k)
  }

  function Candidates(q: seq<Stamped>): seq<Stamped> {
    if q == [] then []
    else
      var rest := Candidates(q[..|q| - 1]);
      if IsCandidate(q[|q| - 1].frame) then rest + [q[|q| - 1]] else rest
  }

  function LastN(q: seq<Stamped>, n: nat): seq<Stamped> {
    if |q| <= n then q else q[|q| - n..]
  }

  function Now(h: History): int {
    if h.Then? then h.event.at else 0
  }

  /** The buffered slot is the latest frame, unless that one was found stale
      at some join and deleted: then it is stale for good. */
  predicate SlotMatches(slot: Option<Stamped>, latest: Option<Stamped>, now: int, maxAge: nat) {
    slot == latest || (slot.None? && latest.Some? && !Fresh(latest.value, now, maxAge))
  }

  // ----- the flags are readings of the log -----

  ghost predicate HoldersAgree(s: SessionState, h: History) {
    forall r :: (Holder(h, r).Some? <==> r in s.slots) && (r in s.slots ==> Holder(h, r) == Some(s.slots[r]))
  }

  ghost predicate FlagsAgree(s: SessionState, h: History, c: Conn) {
    && (PeerOf(s, c).negotiated <==> Last(h, c, {SentSdp}) == SentSdp)
    && (PeerOf(s, c).saidBye <==> Last(h, c, {SentSdp, SentBye}) == SentBye)
    && (PeerOf(s, c).byeReceived <==> Last(h, c, {SentSdp, GotBye}) == GotBye)
  }

  /** Reading all three marks at once tells what the flags tell together. */
  lemma {:induction false} LastOfAll(h: History, c: Conn)
    ensures Last(h, c, {SentSdp, SentBye, GotBye}) == SentSdp
       <==> Last(h, c, {SentSdp}) == SentSdp && Last(h, c, {SentSdp, SentBye}) != SentBye
            && Last(h, c, {SentSdp, GotBye}) != GotBye
    ensures Last(h, c, {SentSdp, GotBye}) == SentSdp
       <==> Last(h, c, {SentSdp}) == SentSdp && Last(h, c, {SentSdp, GotBye}) != GotBye
  {
    if h.Then? {
      LastOfAll(h.past, c);
    }
  }

  lemma ForwardSlots(s: SessionState, to: Role, f: Frame, now: int)
    ensures Forward(s, to, f, now).slots == s.slots
    ensures Forward(s, to, f, now).maxAge == s.maxAge
  {
    var s1 := StoreFrame(s, to.Other(), f, now);
    assert s1.slots == s.slots && s1.maxAge == s.maxAge;
    var s2 := FlagBye(s1, to, f);
    assert s2.slots == s.slots && s2.maxAge == s.maxAge;
  }

  /** Who is registered after one step. */
  lemma StepSlots(s: SessionState, e: Event)
    ensures Step(s, e).maxAge == s.maxAge
    ensures Step(s, e).slots ==
            match e
            case Joins(c, _, _) => if c.role in s.slots then s.slots else s.slots[c.role := c]
            case Leaves(c, _, _) => if Registered(s, c) then s.slots - {c.role} else s.slots
            case _ => s.slots
  {
    match e
    case Joins(c, f, at) =>
      var s1 := Register(s, c, at);
      var s2 := if c.role.Other() in s1.slots then s1 else Deliver(s1, c, AbsentNotice(c));
      assert s2.slots == s1.slots && s2.maxAge == s1.maxAge;
      ForwardSlots(s2, c.role.Other(), f, at);
    case Sends(c, f, at) =>
      var s1 := if IsSdp(f.kind) then StartNegotiation(s, c) else s;
      assert s1.slots == s.slots && s1.maxAge == s.maxAge;
      ForwardSlots(s1, c.role.Other(), f, at);
    case Leaves(c, down, at) =>
      var s1 := Discard(Unregister(s, c), if EndsSession(PeerOf(s, c)) then {Client, Browser} else {c.role});
      ForwardSlots(s1, c.role.Other(), ByeFrom(c), at);
    case Drains(c, _) =>
  }

  lemma {:induction false} HoldersAreHistory(maxAge: nat, h: History)
    requires Legal(maxAge, h)
    ensures HoldersAgree(Run(maxAge, h), h)
    ensures forall r | r in Run(maxAge, h).slots :: Run(maxAge, h).slots[r].role == r
  {
    if h.Then? {
      var s := Run(maxAge, h.past);
      HoldersAreHistory(maxAge, h.past);
      StepSlots(s, h.event);
      forall r
        ensures Holder(h, r).Some? <==> r in Step(s, h.event).slots
        ensures r in Step(s, h.event).slots ==> Holder(h, r) == Some(Step(s, h.event).slots[r])
      {
        assert Holder(h.past, r).Some? <==> r in s.slots;
      }
    }
  }

  ghost predicate SlotsHonest(s: SessionState) {
    forall r :: r in s.slots ==> s.slots[r].role == r
  }

  /** SendsBye, read off the state instead of the log. */
  predicate ForwardsBye(s: SessionState, e: Event) {
    match e
    case Joins(c, f, _) => f.kind == Bye && c.role !in s.slots
    case Sends(c, f, _) => f.kind == Bye && !PeerOf(s, c).byeReceived
    case Leaves(c, down, _) => SynthesisesBye(PeerOf(s, c), down)
    case Drains(_, _) => false
  }

  predicate ReachesBye(s: SessionState, e: Event, c: Conn) {
    ForwardsBye(s, e) && e.c.role.Other() in s.slots && s.slots[e.c.role.Other()] == c
  }

  predicate SameFlags(p: PeerState, q: PeerState) {
    p.negotiated == q.negotiated && p.saidBye == q.saidBye && p.byeReceived == q.byeReceived
  }

  /** A forward touches the receiver only. */
  lemma ForwardPeer(s: SessionState, to: Role, f: Frame, now: int, c: Conn)
    ensures PeerOf(Forward(s, to, f, now), c)
         == if to in s.slots && s.slots[to] == c
            then Accept(if f.kind == Bye then PeerOf(s, c).(byeReceived := true) else PeerOf(s, c), f)
            else PeerOf(s, c)
  {
    var s1 := StoreFrame(s, to.Other(), f, now);
    assert s1.slots == s.slots && s1.peers == s.peers;
  }

  lemma {:induction false} AcceptAllFlags(p: PeerState, fs: seq<Frame>)
    ensures SameFlags(AcceptAll(p, fs), p)
  {
    if fs != [] {
      AcceptAllFlags(p, fs[..|fs| - 1]);
    }
  }

  /** How one step moves the flags of connection c. */
  function FlagsAfter(s: SessionState, e: Event, c: Conn): PeerState {
    var p := PeerOf(s, c);
    if e.Sends? && e.c == c && IsSdp(e.frame.kind) then p.(negotiated := true, saidBye := false, byeReceived := false)
    else if e.Sends? && e.c == c && e.frame.kind == Bye then p.(saidBye := true)
    else if ReachesBye(s, e, c) then p.(byeReceived := true)
    else p
  }

  lemma JoinFlags(s: SessionState, d: Conn, f: Frame, at: int, c: Conn)
    requires d !in s.peers && SlotsHonest(s)
    ensures SameFlags(PeerOf(Join(s, d, f, at), c), FlagsAfter(s, Joins(d, f, at), c))
  {
    if d.role !in s.slots {
      var other := d.role.Other();
      var s1 := Register(s, d, at);
      RegisterFlags(s, d, at, c);
      var s2 := if other in s1.slots then s1 else Deliver(s1, d, AbsentNotice(d));
      assert s2.slots == s1.slots && SameFlags(PeerOf(s2, c), PeerOf(s1, c));
      ForwardPeer(s2, other, f, at, c);
    }
  }

  lemma RegisterFlags(s: SessionState, d: Conn, at: int, c: Conn)
    requires d !in s.peers
    ensures SameFlags(PeerOf(Register(s, d, at), c), PeerOf(s, c))
    ensures d.role.Other() in Register(s, d, at).slots <==> d.role.Other() in s.slots
    ensures d.role.Other() in s.slots ==> Register(s, d, at).slots[d.role.Other()] == s.slots[d.role.Other()]
  {
    AcceptAllFlags(NEW_PEER, Replay(s, d.role.Other(), at));
  }

  lemma StartFlags(s: SessionState, d: Conn, c: Conn)
    ensures StartNegotiation(s, d).slots == s.slots
    ensures PeerOf(StartNegotiation(s, d), c)
         == if c == d then PeerOf(s, c).(negotiated := true, saidBye := false, byeReceived := false) else PeerOf(s, c)
  {
  }

  lemma ByeFlags(s: SessionState, roles: set<Role>, d: Conn, c: Conn)
    ensures PeerOf(SetSaidBye(Discard(s, roles), d, true), c)
         == if c == d then PeerOf(s, c).(saidBye := true) else PeerOf(s, c)
  {
  }

  lemma SdpFlags(s: SessionState, d: Conn, f: Frame, at: int, c: Conn)
    requires Registered(s, d) && SlotsHonest(s) && IsSdp(f.kind)
    ensures SameFlags(PeerOf(Receive(s, d, f, at), c), FlagsAfter(s, Sends(d, f, at), c))
  {
    var s1 := StartNegotiation(s, d);
    StartFlags(s, d, c);
    ForwardPeer(s1, d.role.Other(), f, at, c);
    assert Receive(s, d, f, at) == Forward(s1, d.role.Other(), f, at);
  }

  lemma ByeFrameFlags(s: SessionState, d: Conn, f: Frame, at: int, c: Conn)
    requires Registered(s, d) && SlotsHonest(s) && f.kind == Bye
    ensures SameFlags(PeerOf(Receive(s, d, f, at), c), FlagsAfter(s, Sends(d, f, at), c))
  {
    var echo := IsEcho(s, d, f);
    var s2 := if echo then s else Forward(s, d.role.Other(), f, at);
    ForwardPeer(s, d.role.Other(), f, at, c);
    ByeFlags(s2, if echo then {d.role} else {Client, Browser}, d, c);
    assert Receive(s, d, f, at) == SetSaidBye(Discard(s2, if echo then {d.role} else {Client, Browser}), d, true);
  }

  lemma ReceiveFlags(s: SessionState, d: Conn, f: Frame, at: int, c: Conn)
    requires Registered(s, d) && SlotsHonest(s)
    ensures SameFlags(PeerOf(Receive(s, d, f, at), c), FlagsAfter(s, Sends(d, f, at), c))
  {
    if IsSdp(f.kind) {
      SdpFlags(s, d, f, at, c);
    } else if f.kind == Bye {
      ByeFrameFlags(s, d, f, at, c);
    } else if ValidKind(f.kind) {
      ForwardPeer(s, d.role.Other(), f, at, c);
      assert Receive(s, d, f, at) == Forward(s, d.role.Other(), f, at);
    }
  }

  lemma LeaveFlags(s: SessionState, d: Conn, down: bool, at: int, c: Conn)
    requires Registered(s, d) && SlotsHonest(s)
    ensures SameFlags(PeerOf(Leave(s, d, down, at), c), FlagsAfter(s, Leaves(d, down, at), c))
  {
    var s1 := Discard(Unregister(s, d), if EndsSession(PeerOf(s, d)) then {Client, Browser} else {d.role});
    assert s1.slots == s.slots - {d.role} && PeerOf(s1, c) == PeerOf(s, c);
    ForwardPeer(s1, d.role.Other(), ByeFrom(d), at, c);
  }

  lemma StepFlags(s: SessionState, e: Event, c: Conn)
    requires Enabled(s, e) && SlotsHonest(s)
    ensures SameFlags(PeerOf(Step(s, e), c), FlagsAfter(s, e, c))
  {
    match e
    case Joins(d, f, at) => JoinFlags(s, d, f, at, c);
    case Sends(d, f, at) => ReceiveFlags(s, d, f, at, c);
    case Leaves(d, down, at) => LeaveFlags(s, d, down, at, c);
    case Drains(d, _) =>
  }

  lemma FlagsStep(s: SessionState, h: History, e: Event, c: Conn, after: PeerState)
    requires FlagsAgree(s, h, c) && SameFlags(after, FlagsAfter(s, e, c))
    requires ReachesBye(s, e, c) <==> SendsBye(h, e) && Holder(h, e.c.role.Other()) == Some(c)
    requires e.Sends? && e.c == c ==> !ReachesBye(s, e, c)
    ensures var h' := Then(h, e);
            && (after.negotiated <==> Last(h', c, {SentSdp}) == SentSdp)
            && (after.saidBye <==> Last(h', c, {SentSdp, SentBye}) == SentBye)
            && (after.byeReceived <==> Last(h', c, {SentSdp, GotBye}) == GotBye)
  {
  }

  lemma ByeReadings(s: SessionState, h: History, e: Event, c: Conn)
    requires FlagsAgree(s, h, e.c) && HoldersAgree(s, h)
    ensures ReachesBye(s, e, c) <==> SendsBye(h, e) && Holder(h, e.c.role.Other()) == Some(c)
  {
    LastOfAll(h, e.c);
    var other := e.c.role.Other();
    assert Holder(h, other).Some? <==> other in s.slots;
    assert Holder(h, e.c.role).Some? <==> e.c.role in s.slots;
  }

  /** Each flag, in every legal run, is a reading of the whole log. */
  lemma {:induction false} FlagsAreHistory(maxAge: nat, h: History, c: Conn)
    requires Legal(maxAge, h)
    ensures FlagsAgree(Run(maxAge, h), h, c)
    decreases h
  {
    if h.Then? {
      var s := Run(maxAge, h.past);
      FlagsAreHistory(maxAge, h.past, c);
      FlagsAreHistory(maxAge, h.past, h.event.c);
      HoldersAreHistory(maxAge, h.past);
      ByeReadings(s, h.past, h.event, c);
      StepFlags(s, h.event, c);
      FlagsStep(s, h.past, h.event, c, PeerOf(Step(s, h.event), c));
    }
  }

  /** A bye is synthesised on disconnect exactly when the broker is not
      shutting down and the last thing the leaver did or was told, after its
      first frame, is that it sent an offer or an answer. */
  lemma SynthesisedByeIsHistory(maxAge: nat, h: History, c: Conn, down: bool)
    requires Legal(maxAge, h)
    ensures SynthesisesBye(PeerOf(Run(maxAge, h), c), down)
       <==> !down && Last(h, c, {SentSdp, SentBye, GotBye}) == SentSdp
  {
    FlagsAreHistory(maxAge, h, c);
    LastOfAll(h, c);
  }
}
