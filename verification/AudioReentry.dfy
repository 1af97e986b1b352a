/** The audio lifecycle when its observer calls back in.  A notice is the last
    thing an entry point does before it passes a driver event on, so whatever the
    observer calls from it runs in between: `open` lists the driver events still
    to be passed on, innermost last. */
module AudioReentry {
  import opened AudioLifecycle

  datatype Nested = Nested(s: State, open: seq<DriverEvent>)

  /** A call from outside or from inside a notice; and the way back out of the
      innermost driver event. */
  datatype Move = Calls(e: Event) | Returns

  function MoveTo(n: Nested, m: Move): Nested {
    match m
    case Calls(e) =>
      if e.FromDriver? then Nested(Local(n.s, e.event), n.open + [e.event]) else n.(s := Step(n.s, e))
    case Returns =>
      if n.open == [] then n else Nested(Forward(n.s, n.open[|n.open| - 1]), n.open[..|n.open| - 1])
  }

  datatype Moves = Made(observer: bool, downstream: bool) | After(past: Moves, move: Move)

  function RunOf(h: Moves): Nested {
    match h
    case Made(observer, downstream) => Nested(Start(observer, downstream), [])
    case After(past, m) => MoveTo(RunOf(past), m)
  }

  /** A driver event during which nobody calls back in is the plain step. */
  lemma UndisturbedIsStep(n: Nested, e: DriverEvent)
    ensures MoveTo(MoveTo(n, Calls(FromDriver(e))), Returns) == n.(s := Step(n.s, FromDriver(e)))
  {
    assert (n.open + [e])[..|n.open|] == n.open;
  }

  lemma MoveKeepsOk(n: Nested, m: Move)
    requires NoticesOk(n.s) && RefsOk(n.s)
    ensures NoticesOk(MoveTo(n, m).s) && RefsOk(MoveTo(n, m).s)
  {
    match m
    case Calls(e) =>
      if e.FromDriver? {
        LocalNotices(n.s, e.event);
        LocalKeepsRefs(n.s, e.event);
      } else {
        StepNotices(n.s, e);
        StepKeepsRefs(n.s, e);
      }
    case Returns =>
      if n.open != [] {
        QuietNote(n.s.log, Passed(n.open[|n.open| - 1]));
      }
  }

  lemma LocalKeepsRefs(s: State, e: DriverEvent)
    requires RefsOk(s)
    ensures RefsOk(Local(s, e))
  {
  }

  /** At any depth of re-entry: between re-arms at most one activation and one stop
      notice, no activation after the stop, and references held exactly while
      armed or active. */
  lemma {:induction false} DisciplinedAtAnyDepth(h: Moves)
    ensures NoticesOk(RunOf(h).s) && RefsOk(RunOf(h).s)
  {
    if h.After? {
      DisciplinedAtAnyDepth(h.past);
      MoveKeepsOk(RunOf(h.past), h.move);
    }
  }

  // ----- references -----

  function AdoptedIn(h: Moves): seq<Ref> {
    match h
    case Made(_, _) => []
    case After(past, m) =>
      if m.Calls? && Adopts(RunOf(past).s, m.e)
      then AdoptedIn(past) + InReleaseOrder(m.e.source.value, m.e.track.value, m.e.transceiver.value)
      else AdoptedIn(past)
  }

  /** Every adoption, nested ones included, is released once and in order or is the
      one still held. */
  lemma {:induction false} ReleasedAtAnyDepth(h: Moves)
    ensures Owned(RunOf(h).s) == AdoptedIn(h)
  {
    if h.After? {
      var n, m := RunOf(h.past), h.move;
      ReleasedAtAnyDepth(h.past);
      DisciplinedAtAnyDepth(h.past);
      match m
      case Calls(e) =>
        if e.FromDriver? {
          LocalOwns(n.s, e.event);
        } else {
          StepOwns(n.s, e);
        }
      case Returns =>
        if n.open != [] {
          NoteOwns(n.s, MoveTo(n, m).s, Passed(n.open[|n.open| - 1]));
        }
    }
  }

  // ----- forwarding -----

  function DriverCalls(h: Moves): seq<DriverEvent> {
    match h
    case Made(_, _) => []
    case After(past, m) => if m.Calls? && m.e.FromDriver? then DriverCalls(past) + [m.e.event] else DriverCalls(past)
  }

  function Origin(h: Moves): (b: Moves)
    ensures b.Made?
  {
    if h.After? then Origin(h.past) else h
  }

  lemma {:induction false} SameDownstream(h: Moves)
    ensures RunOf(h).s.downstream == Origin(h).downstream && RunOf(h).s.observer == Origin(h).observer
  {
    if h.After? {
      SameDownstream(h.past);
      MoveDownstream(RunOf(h.past), h.move);
    }
  }

  lemma MoveDownstream(n: Nested, m: Move)
    ensures MoveTo(n, m).s.downstream == n.s.downstream && MoveTo(n, m).s.observer == n.s.observer
  {
  }

  /** The driver events passed on, and those still to be. */
  function Account(n: Nested): multiset<DriverEvent> { multiset(PassedOf(n.s.log)) + multiset(n.open) }

  lemma MovePasses(n: Nested, m: Move)
    requires n.s.downstream
    ensures Account(MoveTo(n, m)) == if m.Calls? && m.e.FromDriver? then Account(n) + multiset{m.e.event} else Account(n)
  {
    match m
    case Calls(e) =>
      if e.FromDriver? {
        LocalPasses(n.s, e.event);
      } else {
        StepPasses(n.s, e);
      }
    case Returns =>
      if n.open != [] {
        var last := |n.open| - 1;
        PassedSnoc(n.s.log, Passed(n.open[last]));
        assert n.open == n.open[..last] + [n.open[last]];
      }
  }

  /** Every driver event is passed downstream exactly once, or its own entry point
      has yet to return; with none open, all have been. */
  lemma {:induction false} PassedOnceAtAnyDepth(h: Moves)
    requires Origin(h).downstream
    ensures Account(RunOf(h)) == multiset(DriverCalls(h))
    ensures RunOf(h).open == [] ==> multiset(PassedOf(RunOf(h).s.log)) == multiset(DriverCalls(h))
  {
    if h.After? {
      PassedOnceAtAnyDepth(h.past);
      SameDownstream(h.past);
      MovePasses(RunOf(h.past), h.move);
    }
  }

  // ----- stop notices -----

  function StopsOwedIn(h: Moves): seq<Note> {
    if h.Made? then []
    else if h.move.Calls? && StopOwed(RunOf(h.past).s, h.move.e).Some?
    then StopsOwedIn(h.past) + [StopOwed(RunOf(h.past).s, h.move.e).value]
    else StopsOwedIn(h.past)
  }

  lemma MoveStops(n: Nested, m: Move)
    requires n.s.observer
    ensures StopsOf(MoveTo(n, m).s.log)
            == if m.Calls? && StopOwed(n.s, m.e).Some? then StopsOf(n.s.log) + [StopOwed(n.s, m.e).value] else StopsOf(n.s.log)
  {
    match m
    case Calls(e) =>
      if e.FromDriver? {
        LocalStops(n.s, e.event);
      } else {
        StepStops(n.s, e);
      }
    case Returns =>
      if n.open != [] {
        StopsSnoc(n.s.log, Passed(n.open[|n.open| - 1]));
      }
  }

  /** Which stop notices were given, nested calls included, read off the calls. */
  lemma {:induction false} StopNoticesAtAnyDepth(h: Moves)
    requires Origin(h).observer
    ensures StopsOf(RunOf(h).s.log) == StopsOwedIn(h)
  {
    if h.After? {
      StopNoticesAtAnyDepth(h.past);
      SameDownstream(h.past);
      MoveStops(RunOf(h.past), h.move);
    }
  }

  /** The session was stopped while idle by the driver's end. */
  predicate SilentIn(h: Moves) {
    h.After?
    && !(h.move == Calls(TryRearm) && RunOf(h.past).s.phase == Stopped)
    && (SilentIn(h.past) || (h.move.Calls? && DriverEnds(h.move.e) && RunOf(h.past).s.phase == Idle))
  }

  lemma MoveStopNotice(n: Nested, m: Move)
    requires NoticesOk(n.s)
    ensures SinceStopped(MoveTo(n, m).s.log)
            == (if m == Calls(TryRearm) && n.s.phase == Stopped then false
                else SinceStopped(n.s.log) || (n.s.observer && m.Calls? && StopOwed(n.s, m.e).Some?))
    ensures MoveTo(n, m).s.phase == Stopped
       <==> (m.Calls? && (m.e.Teardown? || DriverEnds(m.e))) || (n.s.phase == Stopped && m != Calls(TryRearm))
  {
    match m
    case Calls(e) =>
      StepPhase(n.s, e);
      if e.FromDriver? {
        LocalNotices(n.s, e.event);
      } else {
        StepStopNotice(n.s, e);
      }
    case Returns =>
      if n.open != [] {
        QuietNote(n.s.log, Passed(n.open[|n.open| - 1]));
      }
  }

  /** At any depth: a stopped session has given its stop notice since the last
      re-arm, if and only if it was not an idle one the driver ended. */
  lemma {:induction false} StopNoticeExactlyAtAnyDepth(h: Moves)
    requires Origin(h).observer
    ensures SilentIn(h) ==> RunOf(h).s.phase == Stopped
    ensures SinceStopped(RunOf(h).s.log) <==> RunOf(h).s.phase == Stopped && !SilentIn(h)
  {
    if h.After? {
      StopNoticeExactlyAtAnyDepth(h.past);
      DisciplinedAtAnyDepth(h.past);
      SameDownstream(h.past);
      MoveStopNotice(RunOf(h.past), h.move);
    }
  }
}
