/** Values of the signaling broker: roles, frames, one session's buffers and
    the effect of each mutex section of `session` on them.

    A section is a function from session to session.  The handlers of
    `wsHandler` and `readPump` are compositions of sections: `Join`, `Receive`
    and `Leave` are the coarse steps, in which no other goroutine runs between
    two sections.  SignalingFine interleaves the same sections freely. */
module Signaling {
  import opened Options

  datatype Role = Client | Browser {
    function Other(): Role {
      if this == Client then Browser else Client
    }
  }

  /** `PeerAbsent` is the broker's own advisory; `Unknown` is any type outside
      validTypes. */
  datatype Kind = Offer | Answer | RequestRenegotiate | Ice | Bye | ProbeResult | PeerAbsent | Unknown

  /** One websocket connection.  Its role is fixed by its first frame. */
  datatype Conn = Conn(role: Role, id: nat)

  /** A frame as the broker sees it.  `origin` is the connection it arrived on;
      it stands for the bytes' provenance and no branch below reads it. */
  datatype Frame = Frame(origin: Conn, kind: Kind, hasData: bool, body: string)

  datatype Stamped = Stamped(frame: Frame, at: int)

  /** `queue` is the send channel, `written` what the write pump has already
      put on the socket. */
  datatype PeerState = PeerState(negotiated: bool, saidBye: bool, byeReceived: bool,
                                 written: seq<Frame>, queue: seq<Frame>)
  {
    function Inbox(): seq<Frame> { written + queue }
  }

  datatype SessionState = SessionState(maxAge: nat,
                                       slots: map<Role, Conn>,
                                       peers: map<Conn, PeerState>,
                                       sdp: map<Role, map<Kind, Stamped>>,
                                       ice: map<Role, seq<Stamped>>)

  const ICE_REPLAY_MAX := 32
  const SEND_BUFFER := 32

  const NEW_PEER := PeerState(false, false, false, [], [])

  function Init(maxAge: nat): SessionState {
    SessionState(maxAge, map[], map[], map[], map[])
  }

  predicate ValidKind(k: Kind) {
    !k.PeerAbsent? && !k.Unknown?
  }

  predicate Replayable(k: Kind) {
    k.Offer? || k.Answer? || k.RequestRenegotiate?
  }

  predicate IsSdp(k: Kind) {
    k.Offer? || k.Answer?
  }

  predicate IsCandidate(f: Frame) {
    f.kind == Ice && f.hasData
  }

  // ----- lookups, with the source's defaults for an absent key -----

  function PeerOf(s: SessionState, c: Conn): PeerState {
    if c in s.peers then s.peers[c] else NEW_PEER
  }

  predicate Registered(s: SessionState, c: Conn) {
    c.role in s.slots && s.slots[c.role] == c
  }

  function SdpBuffer(s: SessionState, r: Role): map<Kind, Stamped> {
    if r in s.sdp then s.sdp[r] else map[]
  }

  function SdpSlot(s: SessionState, r: Role, k: Kind): Option<Stamped> {
    if k in SdpBuffer(s, r) then Some(SdpBuffer(s, r)[k]) else None
  }

  function IceQueue(s: SessionState, r: Role): seq<Stamped> {
    if r in s.ice then s.ice[r] else []
  }

  // ----- register and replay -----

  predicate Fresh(e: Stamped, now: int, maxAge: nat) {
    now - e.at <= maxAge
  }

  /** The replay contribution of one SDP slot. */
  function FreshSlot(e: Option<Stamped>, now: int, maxAge: nat): seq<Frame> {
    if e.Some? && Fresh(e.value, now, maxAge) then [e.value.frame] else []
  }

  function FreshFrames(q: seq<Stamped>, now: int, maxAge: nat): seq<Frame> {
    if q == [] then []
    else
      var rest := FreshFrames(q[..|q| - 1], now, maxAge);
      if Fresh(q[|q| - 1], now, maxAge) then rest + [q[|q| - 1].frame] else rest
  }

  function SdpReplay(s: SessionState, r: Role, now: int): seq<Frame> {
    FreshSlot(SdpSlot(s, r, Offer), now, s.maxAge)
    + FreshSlot(SdpSlot(s, r, Answer), now, s.maxAge)
    + FreshSlot(SdpSlot(s, r, RequestRenegotiate), now, s.maxAge)
  }

  function Replay(s: SessionState, r: Role, now: int): seq<Frame> {
    SdpReplay(s, r, now) + FreshFrames(IceQueue(s, r), now, s.maxAge)
  }

  function Purge(buf: map<Kind, Stamped>, now: int, maxAge: nat): map<Kind, Stamped> {
    map k | k in buf && Fresh(buf[k], now, maxAge) :: buf[k]
  }

  /** A non-blocking channel send: kept while there is room, else dropped. */
  function Accept(p: PeerState, f: Frame): PeerState {
    if |p.queue| < SEND_BUFFER then p.(queue := p.queue + [f]) else p
  }

  function AcceptAll(p: PeerState, fs: seq<Frame>): PeerState {
    if fs == [] then p else Accept(AcceptAll(p, fs[..|fs| - 1]), fs[|fs| - 1])
  }

  function Register(s: SessionState, c: Conn, now: int): SessionState {
    var other := c.role.Other();
    s.(slots := s.slots[c.role := c],
       peers := s.peers[c := AcceptAll(NEW_PEER, Replay(s, other, now))],
       sdp := if other in s.sdp then s.sdp[other := Purge(s.sdp[other], now, s.maxAge)] else s.sdp)
  }

  // ----- the other mutex sections -----

  function Unregister(s: SessionState, c: Conn): SessionState {
    if Registered(s, c) then s.(slots := s.slots - {c.role}) else s
  }

  function MarkNegotiated(s: SessionState, c: Conn): SessionState {
    s.(peers := s.peers[c := PeerOf(s, c).(negotiated := true)])
  }

  function SetSaidBye(s: SessionState, c: Conn, b: bool): SessionState {
    s.(peers := s.peers[c := PeerOf(s, c).(saidBye := b)])
  }

  function ClearByeReceived(s: SessionState, c: Conn): SessionState {
    s.(peers := s.peers[c := PeerOf(s, c).(byeReceived := false)])
  }

  function Discard(s: SessionState, roles: set<Role>): SessionState {
    s.(sdp := s.sdp - roles, ice := s.ice - roles)
  }

  function PushIce(q: seq<Stamped>, e: Stamped): seq<Stamped> {
    (if |q| >= ICE_REPLAY_MAX then q[1..] else q) + [e]
  }

  /** Keep a replayable frame or a data-bearing candidate for a later joiner. */
  function StoreFrame(s: SessionState, sender: Role, f: Frame, now: int): SessionState {
    if Replayable(f.kind)
    then s.(sdp := s.sdp[sender := SdpBuffer(s, sender)[f.kind := Stamped(f, now)]])
    else if IsCandidate(f)
    then s.(ice := s.ice[sender := PushIce(IceQueue(s, sender), Stamped(f, now))])
    else s
  }

  /** The receiver of a bye has no session left. */
  function FlagBye(s: SessionState, to: Role, f: Frame): SessionState {
    if to in s.slots && f.kind == Bye
    then s.(peers := s.peers[s.slots[to] := PeerOf(s, s.slots[to]).(byeReceived := true)])
    else s
  }

  /** The locked half of `forward`. */
  function ForwardLocked(s: SessionState, to: Role, f: Frame, now: int): SessionState {
    FlagBye(StoreFrame(s, to.Other(), f, now), to, f)
  }

  /** The unlocked half of `forward`: the channel send. */
  function Deliver(s: SessionState, c: Conn, f: Frame): SessionState {
    s.(peers := s.peers[c := Accept(PeerOf(s, c), f)])
  }

  function Forward(s: SessionState, to: Role, f: Frame, now: int): SessionState {
    var s1 := ForwardLocked(s, to, f, now);
    if to in s1.slots then Deliver(s1, s1.slots[to], f) else s1
  }

  // ----- coarse steps -----

  function AbsentNotice(c: Conn): Frame {
    Frame(c, PeerAbsent, false, "")
  }

  function ByeFrom(c: Conn): Frame {
    Frame(c, Bye, false, "")
  }

  /** A whole join: a taken role is rejected and leaves the session as it was. */
  function Join(s: SessionState, c: Conn, first: Frame, now: int): SessionState {
    if c.role in s.slots then s
    else
      var s1 := Register(s, c, now);
      var s2 := if c.role.Other() in s1.slots then s1 else Deliver(s1, c, AbsentNotice(c));
      if ValidKind(first.kind) then Forward(s2, c.role.Other(), first, now) else s2
  }

  function StartNegotiation(s: SessionState, c: Conn): SessionState {
    ClearByeReceived(SetSaidBye(MarkNegotiated(s, c), c, false), c)
  }

  predicate IsEcho(s: SessionState, c: Conn, f: Frame) {
    f.kind == Bye && PeerOf(s, c).byeReceived
  }

  /** One iteration of readPump. */
  function Receive(s: SessionState, c: Conn, f: Frame, now: int): SessionState {
    if !ValidKind(f.kind) then s
    else
      var s1 := if IsSdp(f.kind) then StartNegotiation(s, c) else s;
      var echo := IsEcho(s1, c, f);
      var s2 := if echo then s1 else Forward(s1, c.role.Other(), f, now);
      if f.kind == Bye
      then SetSaidBye(Discard(s2, if echo then {c.role} else {Client, Browser}), c, true)
      else s2
  }

  /** The session the leaver took part in is over because of the leaver. */
  predicate EndsSession(p: PeerState) {
    p.negotiated && !p.byeReceived
  }

  predicate SynthesisesBye(p: PeerState, down: bool) {
    !down && EndsSession(p) && !p.saidBye
  }

  /** The disconnect tail of wsHandler. */
  function Leave(s: SessionState, c: Conn, down: bool, now: int): SessionState {
    var p := PeerOf(s, c);
    var s1 := Discard(Unregister(s, c), if EndsSession(p) then {Client, Browser} else {c.role});
    if SynthesisesBye(p, down) then Forward(s1, c.role.Other(), ByeFrom(c), now) else s1
  }

  /** The write pump moves one frame to the socket. */
  function Drain(s: SessionState, c: Conn): SessionState {
    var p := PeerOf(s, c);
    if p.queue == [] then s
    else s.(peers := s.peers[c := p.(written := p.written + [p.queue[0]], queue := p.queue[1..])])
  }

  datatype Event =
    | Joins(c: Conn, frame: Frame, at: int)
    | Sends(c: Conn, frame: Frame, at: int)
    | Leaves(c: Conn, down: bool, at: int)
    | Drains(c: Conn, at: int)

  function Step(s: SessionState, e: Event): SessionState {
    match e
    case Joins(c, f, at) => Join(s, c, f, at)
    case Sends(c, f, at) => Receive(s, c, f, at)
    case Leaves(c, down, at) => Leave(s, c, down, at)
    case Drains(c, _) => Drain(s, c)
  }

  /** What can happen next: a dial is a connection never seen before, only a
      registered connection sends or leaves, and frames carry their origin. */
  predicate Enabled(s: SessionState, e: Event) {
    match e
    case Joins(c, f, _) => c !in s.peers && f.origin == c
    case Sends(c, f, _) => Registered(s, c) && f.origin == c
    case Leaves(c, _, _) => Registered(s, c)
    case Drains(c, _) => c in s.peers
  }

  // ----- runs -----

  datatype History = Boot | Then(past: History, event: Event)

  function Run(maxAge: nat, h: History): SessionState {
    match h
    case Boot => Init(maxAge)
    case Then(past, e) => Step(Run(maxAge, past), e)
  }

  predicate Legal(maxAge: nat, h: History) {
    h.Then? ==> Legal(maxAge, h.past) && Enabled(Run(maxAge, h.past), h.event)
  }

  /** The broker's clock never runs backwards. */
  predicate Monotone(h: History) {
    h.Then? ==> Monotone(h.past) && (h.past.Then? ==> h.past.event.at <= h.event.at)
  }

  function Extend(h: History, es: seq<Event>): History {
    if es == [] then h else Then(Extend(h, es[..|es| - 1]), es[|es| - 1])
  }
}
