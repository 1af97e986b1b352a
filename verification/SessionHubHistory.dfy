/** The hub read off its events: which session a connection was handed, how far it
    has come, whether its role was taken, and which sessions the hub has. */
module SessionHubHistory {
  import opened Options
  import opened SessionHub

  // ----- readings -----

  /** The key c dialed with; a connection dials once. */
  function KeyOf(h: History, c: Conn): Option<Key> {
    if h.Boot? then None
    else if KeyOf(h.past, c).None? && h.event.Dials? && h.event.c == c then Some(h.event.k)
    else KeyOf(h.past, c)
  }

  predicate FirstDial(past: History, e: Event) { e.Dials? && KeyOf(past, e.c).None? }

  /** Sections c has gone through since getOrCreate. */
  function MovesOf(h: History, c: Conn): nat {
    if h.Boot? then 0 else MovesOf(h.past, c) + if h.event == Moves(c) && KeyOf(h.past, c).Some? then 1 else 0
  }

  /** The session c was handed: the hub's for its key, made if need be. */
  ghost function SidOf(h: History, c: Conn): Option<Sid>
    decreases h, 0
  {
    if h.Boot? then None
    else if FirstDial(h.past, h.event) && h.event.c == c
    then if SessionOf(h.past, h.event.k).Some? then SessionOf(h.past, h.event.k) else Some(Sid(h.event.k, Made(h.past)))
    else SidOf(h.past, c)
  }

  /** Registered in the session, and not left since. */
  ghost predicate Inside(h: History, c: Conn, sid: Sid)
    decreases h, 1
  {
    SidOf(h, c) == Some(sid) && MovesOf(h, c) == 1 && !Turned(h, c)
  }

  ghost predicate Taken(h: History, role: Role, sid: Sid)
    decreases h, 2
  {
    exists d: Conn :: d.role == role && Inside(h, d, sid)
  }

  /** c was turned away: its role was taken when it came to register. */
  ghost predicate Turned(h: History, c: Conn)
    decreases h, 0
  {
    h.Then? && (Turned(h.past, c)
                || (h.event == Moves(c) && SidOf(h.past, c).Some? && MovesOf(h.past, c) == 0
                    && Taken(h.past, c.role, SidOf(h.past, c).value)))
  }

  /** c is at dropIfEmpty for k: after unregister, or after being turned away. */
  ghost predicate AtDrop(h: History, c: Conn, k: Key)
    decreases h, 1
  {
    KeyOf(h, c) == Some(k) && MovesOf(h, c) == if Turned(h, c) then 1 else 2
  }

  /** The hub's session for k: made when k was dialed and there was none, and gone
      once a connection that leaves finds nobody in it. */
  ghost function SessionOf(h: History, k: Key): Option<Sid>
    decreases h, 0
  {
    if h.Boot? then None
    else
      var e, was := h.event, SessionOf(h.past, k);
      if was.None? then if FirstDial(h.past, e) && e.k == k then Some(Sid(k, Made(h.past))) else None
      else if e.Moves? && AtDrop(h.past, e.c, k) && (forall role :: !Taken(h.past, role, was.value)) then None
      else was
  }

  /** Sessions ever made. */
  ghost function Made(h: History): nat
    decreases h, 0
  {
    if h.Boot? then 0
    else Made(h.past) + if FirstDial(h.past, h.event) && SessionOf(h.past, h.event.k).None? then 1 else 0
  }

  /** Where that leaves a connection. */
  function Place(key: Key, sid: Sid, moves: nat, turned: bool): Pc {
    if moves == 0 then Got(sid)
    else if turned then if moves == 1 then Leaving(key) else Gone
    else if moves == 1 then In(sid) else if moves == 2 then Leaving(key) else Gone
  }

  // ----- the hub is its readings -----

  ghost predicate ConnAgrees(s: State, h: History, c: Conn) {
    && (c in s.pcs <==> KeyOf(h, c).Some?) && (SidOf(h, c).Some? <==> KeyOf(h, c).Some?)
    && (KeyOf(h, c).None? ==> MovesOf(h, c) == 0) && (Turned(h, c) ==> MovesOf(h, c) > 0)
    && (c in s.pcs ==>
          && SidOf(h, c).value.key == KeyOf(h, c).value
          && s.pcs[c] == Place(KeyOf(h, c).value, SidOf(h, c).value, MovesOf(h, c), Turned(h, c)))
  }

  ghost predicate SessionAgrees(s: State, h: History, k: Key) {
    if k in s.sessions then SessionOf(h, k) == Some(s.sessions[k]) else SessionOf(h, k).None?
  }

  /** A session lists exactly the connections in it, each under its role. */
  ghost predicate ListsExactly(s: State) {
    && Listed(s)
    && (forall sid, role :: role in PeersOf(s, sid) ==> IsIn(s, PeersOf(s, sid)[role], role, sid))
  }

  predicate IsIn(s: State, c: Conn, role: Role, sid: Sid) { c.role == role && c in s.pcs && s.pcs[c] == In(sid) }

  lemma StepLists(s: State, e: Event)
    requires ListsExactly(s)
    ensures ListsExactly(Step(s, e))
  {
    StepKeepsListed(s, e);
    var s' := Step(s, e);
    forall sid, role | role in PeersOf(s', sid)
      ensures IsIn(s', PeersOf(s', sid)[role], role, sid)
    {
      assert role in PeersOf(s, sid) ==> IsIn(s, PeersOf(s, sid)[role], role, sid);
    }
  }

  ghost predicate HubAgrees(s: State, h: History) {
    && ListsExactly(s) && KeysMatch(s) && s.next == Made(h)
    && (forall c :: ConnAgrees(s, h, c)) && (forall k :: SessionAgrees(s, h, k))
  }

  lemma InsideIsIn(s: State, h: History, c: Conn, sid: Sid)
    requires ConnAgrees(s, h, c)
    ensures Inside(h, c, sid) <==> c in s.pcs && s.pcs[c] == In(sid)
  {
  }

  lemma TakenIsListed(s: State, h: History, role: Role, sid: Sid)
    requires ListsExactly(s) && (forall c :: ConnAgrees(s, h, c))
    ensures Taken(h, role, sid) <==> role in PeersOf(s, sid)
  {
    forall c: Conn ensures Inside(h, c, sid) <==> c in s.pcs && s.pcs[c] == In(sid) {
      InsideIsIn(s, h, c, sid);
    }
    if role in PeersOf(s, sid) {
      assert Inside(h, PeersOf(s, sid)[role], sid);
    }
  }

  lemma NextConn(s: State, h: History, e: Event, c: Conn)
    requires HubAgrees(s, h)
    ensures ConnAgrees(Step(s, e), Then(h, e), c)
  {
    assert ConnAgrees(s, h, c);
    if e.Dials? {
      assert SessionAgrees(s, h, e.k);
    } else if SidOf(h, c).Some? {
      TakenIsListed(s, h, c.role, SidOf(h, c).value);
    }
  }

  lemma NextSession(s: State, h: History, e: Event, k: Key)
    requires HubAgrees(s, h)
    ensures SessionAgrees(Step(s, e), Then(h, e), k)
  {
    assert SessionAgrees(s, h, k) && ConnAgrees(s, h, e.c);
    if e.Moves? && k in s.sessions {
      forall role ensures Taken(h, role, s.sessions[k]) <==> role in PeersOf(s, s.sessions[k]) {
        TakenIsListed(s, h, role, s.sessions[k]);
      }
    }
  }

  lemma NextHub(s: State, h: History, e: Event)
    requires HubAgrees(s, h)
    ensures HubAgrees(Step(s, e), Then(h, e))
  {
    StepLists(s, e);
    forall c ensures ConnAgrees(Step(s, e), Then(h, e), c) {
      NextConn(s, h, e, c);
    }
    forall k ensures SessionAgrees(Step(s, e), Then(h, e), k) {
      NextSession(s, h, e, k);
    }
    if e.Dials? {
      assert SessionAgrees(s, h, e.k) && ConnAgrees(s, h, e.c);
    }
  }

  lemma {:induction false} RunAgrees(h: History)
    ensures HubAgrees(Run(h), h)
  {
    if h.Then? {
      RunAgrees(h.past);
      NextHub(Run(h.past), h.past, h.event);
    }
  }

  /** In every interleaving each connection is where its own moves have brought it,
      by way of dropIfEmpty whether it was registered or turned away. */
  lemma JourneyIsHistory(h: History, c: Conn)
    ensures c in Run(h).pcs <==> KeyOf(h, c).Some?
    ensures c in Run(h).pcs ==> SidOf(h, c).Some? && Run(h).pcs[c] == Place(KeyOf(h, c).value, SidOf(h, c).value, MovesOf(h, c), Turned(h, c))
  {
    RunAgrees(h);
    assert ConnAgrees(Run(h), h, c);
  }

  /** The hub has a session for a key exactly from the dial that made it until a
      leaving connection finds it empty. */
  lemma SessionsAreHistory(h: History, k: Key)
    ensures (k in Run(h).sessions <==> SessionOf(h, k).Some?) && (k in Run(h).sessions ==> Run(h).sessions[k] == SessionOf(h, k).value)
  {
    RunAgrees(h);
    assert SessionAgrees(Run(h), h, k);
  }

  // ----- no session is left behind -----

  predicate BoundFor(pc: Pc, k: Key) {
    match pc
    case Got(sid) => sid.key == k
    case In(sid) => sid.key == k
    case Leaving(key) => key == k
    case Gone => false
  }

  /** Every session of the hub has somebody on the way in, inside or on the way
      out. */
  ghost predicate Attended(s: State) {
    forall k :: k in s.sessions ==> exists c :: c in s.pcs && BoundFor(s.pcs[c], k)
  }

  lemma StepKeepsAttended(s: State, e: Event)
    requires Attended(s) && ListsExactly(s) && KeysMatch(s)
    ensures Attended(Step(s, e))
  {
    var s' := Step(s, e);
    forall k | k in s'.sessions
      ensures exists c :: c in s'.pcs && BoundFor(s'.pcs[c], k)
    {
      if k in s.sessions {
        var c :| c in s.pcs && BoundFor(s.pcs[c], k);
        if !(c in s'.pcs && BoundFor(s'.pcs[c], k)) {
          var role :| role in PeersOf(s, s.sessions[k]);
          assert BoundFor(s'.pcs[PeersOf(s, s.sessions[k])[role]], k);
        }
      } else {
        assert BoundFor(s'.pcs[e.c], k);
      }
    }
  }

  /** In every interleaving, once every connection is gone the hub has no session
      left. */
  lemma {:induction false} NoSessionIsLeftBehind(h: History)
    ensures Attended(Run(h))
    ensures (forall c :: c in Run(h).pcs ==> Run(h).pcs[c] == Gone) ==> Run(h).sessions == map[]
  {
    if h.Then? {
      NoSessionIsLeftBehind(h.past);
      RunAgrees(h.past);
      StepKeepsAttended(Run(h.past), h.event);
    }
    if forall c :: c in Run(h).pcs ==> Run(h).pcs[c] == Gone {
      assert forall k :: k !in Run(h).sessions;
    }
  }
}
