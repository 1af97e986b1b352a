/** Finding a session by (tenant, id) races with its removal: getOrCreate hands out
    a session that dropIfEmpty may remove before the connection registers in it.

    A connection passes through getOrCreate, register, unregister and dropIfEmpty,
    each a critical section of its own; any connection may move next. */
module SessionHub {
  import TenantMetrics
  import Signaling

  type Key = TenantMetrics.Key
  type Conn = Signaling.Conn
  type Role = Signaling.Role

  /** A session object knows its key; objects are numbered as they are made. */
  datatype Sid = Sid(key: Key, number: nat)

  datatype Pc = Got(sid: Sid) | In(sid: Sid) | Leaving(key: Key) | Gone

  datatype State = State(sessions: map<Key, Sid>, next: nat, peers: map<Sid, map<Role, Conn>>, pcs: map<Conn, Pc>)

  const START := State(map[], 0, map[], map[])

  function PeersOf(s: State, sid: Sid): map<Role, Conn> { if sid in s.peers then s.peers[sid] else map[] }

  function GetOrCreate(s: State, c: Conn, k: Key): State {
    if k in s.sessions then s.(pcs := s.pcs[c := Got(s.sessions[k])])
    else s.(sessions := s.sessions[k := Sid(k, s.next)], next := s.next + 1, pcs := s.pcs[c := Got(Sid(k, s.next))])
  }

  function Register(s: State, c: Conn, sid: Sid): State {
    if c.role in PeersOf(s, sid) then s.(pcs := s.pcs[c := Leaving(sid.key)])
    else s.(peers := s.peers[sid := PeersOf(s, sid)[c.role := c]], pcs := s.pcs[c := In(sid)])
  }

  function Unregister(s: State, c: Conn, sid: Sid): State {
    s.(peers := s.peers[sid := PeersOf(s, sid) - {c.role}], pcs := s.pcs[c := Leaving(sid.key)])
  }

  predicate Removes(s: State, k: Key) { k in s.sessions && PeersOf(s, s.sessions[k]) == map[] }

  function DropIfEmpty(s: State, c: Conn, k: Key): State {
    var s1 := s.(pcs := s.pcs[c := Gone]);
    if Removes(s, k) then s1.(sessions := s.sessions - {k}) else s1
  }

  /** A new connection dials, or one that is here goes on to its next section. */
  datatype Event = Dials(c: Conn, k: Key) | Moves(c: Conn)

  function Step(s: State, e: Event): State {
    match e
    case Dials(c, k) => if c in s.pcs then s else GetOrCreate(s, c, k)
    case Moves(c) =>
      if c !in s.pcs then s
      else
        match s.pcs[c]
        case Got(sid) => Register(s, c, sid)
        case In(sid) => Unregister(s, c, sid)
        case Leaving(k) => DropIfEmpty(s, c, k)
        case Gone => s
  }

  datatype History = Boot | Then(past: History, event: Event)

  function Run(h: History): State {
    match h
    case Boot => START
    case Then(past, e) => Step(Run(past), e)
  }

  // ----- strays -----

  predicate Holds(pc: Pc) { pc.Got? || pc.In? }

  /** c's session is the one the hub would hand out for its key. */
  predicate AtHome(s: State, c: Conn) {
    c in s.pcs && Holds(s.pcs[c]) ==> s.pcs[c].sid.key in s.sessions && s.sessions[s.pcs[c].sid.key] == s.pcs[c].sid
  }

  ghost predicate AllAtHome(s: State) {
    forall c :: c in s.pcs ==> AtHome(s, c)
  }

  /** A registered connection is listed in its session. */
  ghost predicate Listed(s: State) {
    forall c :: c in s.pcs && s.pcs[c].In? ==> c.role in PeersOf(s, s.pcs[c].sid) && PeersOf(s, s.pcs[c].sid)[c.role] == c
  }

  lemma StepKeepsListed(s: State, e: Event)
    requires Listed(s)
    ensures Listed(Step(s, e))
  {
  }

  lemma {:induction false} RunKeepsListed(h: History)
    ensures Listed(Run(h))
  {
    if h.Then? {
      RunKeepsListed(h.past);
      StepKeepsListed(Run(h.past), h.event);
    }
  }

  ghost predicate KeysMatch(s: State) {
    forall k :: k in s.sessions ==> s.sessions[k].key == k
  }

  lemma {:induction false} RunKeepsKeys(h: History)
    ensures KeysMatch(Run(h))
  {
    if h.Then? {
      RunKeepsKeys(h.past);
    }
  }

  /** A registered connection that nobody who asks for its key will meet. */
  ghost predicate Strays(s: State) {
    exists c :: c in s.pcs && s.pcs[c].In? && !AtHome(s, c)
  }

  predicate Drops(s: State, e: Event) {
    e.Moves? && e.c in s.pcs && s.pcs[e.c].Leaving? && Removes(s, s.pcs[e.c].key)
  }

  /** A session is removed only when nobody is on the way into it. */
  ghost predicate Careful(s: State, e: Event) {
    Drops(s, e) ==> forall d :: d in s.pcs && s.pcs[d].Got? ==> s.pcs[d].sid != s.sessions[s.pcs[e.c].key]
  }

  ghost predicate AllCareful(h: History) {
    h.Then? ==> AllCareful(h.past) && Careful(Run(h.past), h.event)
  }

  lemma StepKeepsHome(s: State, e: Event)
    requires Listed(s) && KeysMatch(s) && AllAtHome(s) && Careful(s, e)
    ensures AllAtHome(Step(s, e))
  {
    forall d | d in Step(s, e).pcs
      ensures AtHome(Step(s, e), d)
    {
      assert d in s.pcs ==> AtHome(s, d);
    }
  }

  lemma {:induction false} CarefulKeepsHome(h: History)
    requires AllCareful(h)
    ensures AllAtHome(Run(h))
  {
    if h.Then? {
      CarefulKeepsHome(h.past);
      RunKeepsListed(h.past);
      RunKeepsKeys(h.past);
      StepKeepsHome(Run(h.past), h.event);
    }
  }

  /** So in a careful run two connections registered for the same key are in the
      same session, and meet. */
  lemma CarefulPeersMeet(h: History, c: Conn, d: Conn)
    requires AllCareful(h) && c in Run(h).pcs && d in Run(h).pcs && Run(h).pcs[c].In? && Run(h).pcs[d].In?
    requires Run(h).pcs[c].sid.key == Run(h).pcs[d].sid.key
    ensures Run(h).pcs[c].sid == Run(h).pcs[d].sid
    ensures var sid := Run(h).pcs[c].sid;
            c.role in PeersOf(Run(h), sid) && d.role in PeersOf(Run(h), sid)
  {
    CarefulKeepsHome(h);
    RunKeepsListed(h);
    assert AtHome(Run(h), c) && AtHome(Run(h), d);
  }

  /** h' goes on from h and removes no session. */
  ghost predicate GoesOn(h': History, h: History) {
    h' == h || (h'.Then? && GoesOn(h'.past, h) && !Drops(Run(h'.past), h'.event))
  }

  lemma {:induction false} StaysAtHome(h: History, h': History)
    requires GoesOn(h', h) && AllAtHome(Run(h))
    ensures AllAtHome(Run(h'))
  {
    if h' != h {
      StaysAtHome(h, h'.past);
      RunKeepsListed(h'.past);
      RunKeepsKeys(h'.past);
      StepKeepsHome(Run(h'.past), h'.event);
    }
  }

  ghost predicate CanStray(h: History) {
    exists h' :: GoesOn(h', h) && Strays(Run(h'))
  }

  /** A connection could have been left alone at some point of the run. */
  ghost predicate EverStrays(h: History) {
    CanStray(h) || (h.Then? && EverStrays(h.past))
  }

  /** Registering in a session just removed. */
  lemma CarelessStrays(h: History)
    requires h.Then? && !Careful(Run(h.past), h.event)
    ensures CanStray(h)
  {
    var s, e := Run(h.past), h.event;
    var d :| d in s.pcs && s.pcs[d].Got? && s.pcs[d].sid == s.sessions[s.pcs[e.c].key];
    RunKeepsKeys(h.past);
    assert d != e.c && Run(h).pcs[d] == s.pcs[d] && PeersOf(Run(h), s.pcs[d].sid) == map[];
    var h' := Then(h, Moves(d));
    assert Run(h').pcs[d] == In(s.pcs[d].sid) && s.pcs[d].sid.key !in Run(h').sessions;
    assert GoesOn(h, h) && GoesOn(h', h) && !AtHome(Run(h'), d);
  }

  /** Exact: removals are careful if and only if at no point of the run could a
      connection have ended up registered where nobody will find it. */
  lemma {:induction false} CarefulExactly(h: History)
    ensures AllCareful(h) <==> !EverStrays(h)
  {
    if h.Then? {
      CarefulExactly(h.past);
    }
    if AllCareful(h) {
      CarefulKeepsHome(h);
      forall h' | GoesOn(h', h)
        ensures !Strays(Run(h'))
      {
        StaysAtHome(h, h');
      }
    } else if AllCareful(h.past) {
      CarelessStrays(h);
    }
  }

  /** A viewer leaves, the browser has been handed the same session but has not
      registered: it registers in the removed one, and the next viewer waits for
      it in another. */
  lemma PeersNeverMeet(k: Key, a: Conn, b: Conn, d: Conn)
    requires a.role == d.role == Signaling.Client && b.role == Signaling.Browser && a != d
    ensures exists h :: var s := Run(h);
              b in s.pcs && d in s.pcs && s.pcs[b].In? && s.pcs[d].In? && s.pcs[b].sid.key == s.pcs[d].sid.key == k && s.pcs[b].sid != s.pcs[d].sid
  {
    var h1 := Then(Then(Then(Boot, Dials(a, k)), Moves(a)), Moves(a));
    assert Run(Boot) == START;
    var s0 := Run(Then(Boot, Dials(a, k)));
    assert s0 == State(map[k := Sid(k, 0)], 1, map[], map[a := Got(Sid(k, 0))]);
    var s1 := Run(Then(Then(Boot, Dials(a, k)), Moves(a)));
    assert s1.pcs == map[a := In(Sid(k, 0))] && s1.sessions == map[k := Sid(k, 0)] && s1.next == 1;
    assert PeersOf(s1, Sid(k, 0)) == map[Signaling.Client := a];
    var s2 := Run(h1);
    assert s2.pcs == map[a := Leaving(k)] && s2.sessions == map[k := Sid(k, 0)] && s2.next == 1 && PeersOf(s2, Sid(k, 0)) == map[];
    AfterTheLeaver(h1, k, a, b, d);
  }

  lemma AfterTheLeaver(h: History, k: Key, a: Conn, b: Conn, d: Conn)
    requires a.role == d.role == Signaling.Client && b.role == Signaling.Browser && a != d
    requires Run(h).pcs == map[a := Leaving(k)] && Run(h).sessions == map[k := Sid(k, 0)] && Run(h).next == 1
    requires PeersOf(Run(h), Sid(k, 0)) == map[] && PeersOf(Run(h), Sid(k, 1)) == map[]
    ensures exists h :: var s := Run(h);
              b in s.pcs && d in s.pcs && s.pcs[b].In? && s.pcs[d].In? && s.pcs[b].sid.key == s.pcs[d].sid.key == k && s.pcs[b].sid != s.pcs[d].sid
  {
    var h1 := Then(h, Dials(b, k));
    assert Run(h1).pcs[b] == Got(Sid(k, 0));
    var h2 := Then(h1, Moves(a));
    assert k !in Run(h2).sessions && Run(h2).pcs[b] == Got(Sid(k, 0)) && Run(h2).peers == Run(h).peers;
    var h3 := Then(h2, Moves(b));
    assert Run(h3).pcs[b] == In(Sid(k, 0)) && PeersOf(Run(h3), Sid(k, 1)) == map[];
    var h4 := Then(h3, Dials(d, k));
    assert Run(h4).pcs[d] == Got(Sid(k, 1));
    var h5 := Then(h4, Moves(d));
    assert Run(h5).pcs[d] == In(Sid(k, 1)) && Run(h5).pcs[b] == In(Sid(k, 0));
  }
}
