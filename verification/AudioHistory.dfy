/** The audio lifecycle read off its events: its phase, and every note of its log.
    Nested calls included, since what a session does depends on the calls alone. */
module AudioHistory {
  import opened Options
  import opened AudioLifecycle
  import opened AudioReentry

  // ----- readings -----

  predicate Stops(e: Event) {
    e.Teardown? || (e.FromDriver? && (e.event.Closed? || e.event.Failed?))
  }

  /** Stopped, and not re-armed since. */
  predicate StoppedBy(h: History) {
    h.Then? && (Stops(h.event) || (!h.event.TryRearm? && StoppedBy(h.past)))
  }

  predicate Full(e: Event) { e.Adopt? && e.source.Some? && e.track.Some? && e.transceiver.Some? }

  /** The adoption in force: the first full one since the last stop, unless still
      stopped. */
  function Bound(h: History): (a: Option<Event>)
    ensures a.Some? ==> Full(a.value)
  {
    if h.Boot? || Stops(h.event) then None
    else if Full(h.event) && Bound(h.past).None? && !StoppedBy(h.past) then Some(h.event)
    else Bound(h.past)
  }

  predicate Connects(e: Event) { e == FromDriver(IceChanged(Connected)) }

  /** Connected since the adoption in force. */
  predicate Joined(h: History) {
    h.Then? && !Stops(h.event) && (Joined(h.past) || (Connects(h.event) && Bound(h.past).Some?))
  }

  /** Stopped; or active, armed or idle by what was adopted and connected since. */
  function PhaseOf(h: History): Phase {
    if StoppedBy(h) then Stopped else if Joined(h) then Active else if Bound(h).Some? then Armed else Idle
  }

  // ----- notes -----

  /** The transceiver is stopped and the references dropped, transceiver first. */
  function ReleaseNotes(a: Option<Event>): seq<Note>
    requires a.Some? ==> Full(a.value)
  {
    if a.None? then []
    else [StopStandard(a.value.transceiver.value), Dropped(Transceiver(a.value.transceiver.value)),
          Dropped(Track(a.value.track.value)), Dropped(Source(a.value.source.value))]
  }

  function ToObserver(observer: bool, note: Note): seq<Note> { if observer then [note] else [] }

  /** What e has the session do itself: announce the first connection of an
      adoption; release and announce a stop; mark a re-arm. */
  function OwnNotes(past: History, e: Event, observer: bool): (notes: seq<Note>)
    ensures forall i :: 0 <= i < |notes| ==> !notes[i].Passed?
  {
    if Connects(e) && Bound(past).Some? && !Joined(past) then ToObserver(observer, Activated)
    else if e.Teardown? && !StoppedBy(past) then ReleaseNotes(Bound(past)) + ToObserver(observer, StoppedNotice(true, e.reason))
    else if e.FromDriver? && Stops(e) && Bound(past).Some?
    then ReleaseNotes(Bound(past)) + ToObserver(observer, StoppedNotice(false, e.event.reason))
    else if e.TryRearm? && StoppedBy(past) then [Rearmed]
    else []
  }

  function LogOf(h: History): seq<Note> {
    if h.Boot? then []
    else LogOf(h.past) + OwnNotes(h.past, h.event, Base(h).observer)
         + if h.event.FromDriver? && Base(h).downstream then [Passed(h.event.event)] else []
  }

  // ----- the session is its readings -----

  ghost predicate Agrees(s: State, h: History) {
    && s.phase == PhaseOf(h) && (s.emitted ==> s.phase == Active || s.phase == Stopped)
    && (if Bound(h).Some?
        then s.source == Bound(h).value.source && s.track == Bound(h).value.track && s.transceiver == Bound(h).value.transceiver
        else HoldsNone(s))
    && (StoppedBy(h) ==> Bound(h).None?) && (Joined(h) ==> Bound(h).Some?)
  }

  lemma StopLog(s: State, h: History, graceful: bool, reason: string)
    requires Agrees(s, h) && s.phase != Stopped
    ensures StopInternal(s, graceful, reason).log == s.log + ReleaseNotes(Bound(h)) + ToObserver(s.observer, StoppedNotice(graceful, reason))
  {
  }

  /** The part of a driver event that is not passing it on. */
  lemma LocalAgrees(s: State, h: History, e: DriverEvent)
    requires Agrees(s, h)
    ensures Agrees(Local(s, e), Then(h, FromDriver(e)))
    ensures Local(s, e).log == s.log + OwnNotes(h, FromDriver(e), s.observer)
  {
    if (e.Closed? || e.Failed?) && Bound(h).Some? {
      StopLog(s, h, false, e.reason);
    }
  }

  lemma StepAgrees(s: State, h: History, e: Event)
    requires Agrees(s, h) && !e.FromDriver?
    ensures Agrees(Step(s, e), Then(h, e)) && Step(s, e).log == s.log + OwnNotes(h, e, s.observer)
  {
    if e.Teardown? && !StoppedBy(h) {
      StopLog(s, h, true, e.reason);
    }
  }

  /** Every run: the phase is the history's, and the log is exactly the notes the
      history owes, in order. */
  lemma {:induction false} LogIsHistory(h: History)
    ensures Agrees(Run(h), h) && Run(h).log == LogOf(h)
  {
    if h.Then? {
      LogIsHistory(h.past);
      SameObserver(h.past);
      if h.event.FromDriver? {
        LocalAgrees(Run(h.past), h.past, h.event.event);
        PassingOn(Run(h.past), h.past, h.event.event);
      } else {
        StepAgrees(Run(h.past), h.past, h.event);
      }
    }
  }

  lemma PassingOn(s: State, h: History, e: DriverEvent)
    requires Agrees(Local(s, e), Then(h, FromDriver(e)))
    ensures Agrees(OnDriver(s, e), Then(h, FromDriver(e)))
    ensures OnDriver(s, e).log == Local(s, e).log + if s.downstream then [Passed(e)] else []
  {
  }

  /** An activation is announced exactly when ICE connects for the first time since
      an adoption, and the session is active exactly from then until it stops. */
  lemma ActivationExactly(h: History, e: Event) returns (notes: seq<Note>)
    requires Base(h).observer
    ensures Run(Then(h, e)).log == Run(h).log + notes
    ensures Activated in notes <==> Connects(e) && Bound(h).Some? && !Joined(h)
    ensures Run(h).phase == Active <==> Joined(h) && !StoppedBy(h)
  {
    LogIsHistory(h);
    LogIsHistory(Then(h, e));
    var passed := if e.FromDriver? && Base(h).downstream then [Passed(e.event)] else [];
    notes := OwnNotes(h, e, true) + passed;
    OwnActivation(h, e);
    LogGrows(h, e);
    assert LogOf(h) + OwnNotes(h, e, true) + passed == LogOf(h) + notes;
  }

  lemma OwnActivation(h: History, e: Event)
    ensures Activated in OwnNotes(h, e, true) <==> Connects(e) && Bound(h).Some? && !Joined(h)
  {
  }

  lemma LogGrows(h: History, e: Event)
    ensures LogOf(Then(h, e)) == LogOf(h) + OwnNotes(h, e, Base(h).observer)
                                 + if e.FromDriver? && Base(h).downstream then [Passed(e.event)] else []
  {
    assert Base(Then(h, e)) == Base(h);
  }

  /** Destruction adds nothing to an idle or stopped session; one that is armed or
      active releases what it holds, and says it did not end gracefully. */
  lemma DestroyIsHistory(h: History)
    ensures Destroy(Run(h)).log == LogOf(h) + ReleaseNotes(Bound(h))
              + if Bound(h).Some? then ToObserver(Base(h).observer, StoppedNotice(false, "lifecycle destroyed")) else []
  {
    LogIsHistory(h);
    SameObserver(h);
    if Bound(h).Some? {
      StopLog(Run(h), h, false, "lifecycle destroyed");
    }
  }

  // ----- the same at any depth of re-entry -----

  /** The calls, without the returns. */
  function Flat(h: Moves): History {
    match h
    case Made(observer, downstream) => Boot(observer, downstream)
    case After(past, m) => if m.Calls? then Then(Flat(past), m.e) else Flat(past)
  }

  function Unpassed(log: seq<Note>): seq<Note> {
    if log == [] then []
    else if log[|log| - 1].Passed? then Unpassed(log[..|log| - 1])
    else Unpassed(log[..|log| - 1]) + [log[|log| - 1]]
  }

  lemma {:induction false} UnpassedConcat(a: seq<Note>, b: seq<Note>)
    requires forall i :: 0 <= i < |b| ==> !b[i].Passed?
    ensures Unpassed(a + b) == Unpassed(a) + b
  {
    if b == [] {
      assert a + b == a;
    } else {
      var last := |b| - 1;
      UnpassedConcat(a, b[..last]);
      UnpassedSnoc(a + b[..last], b[last]);
      assert a + b == a + b[..last] + [b[last]];
      assert Unpassed(a) + b[..last] + [b[last]] == Unpassed(a) + b;
    }
  }

  lemma UnpassedSnoc(a: seq<Note>, note: Note)
    requires !note.Passed?
    ensures Unpassed(a + [note]) == Unpassed(a) + [note]
  {
    assert (a + [note])[..|a|] == a;
  }

  lemma UnpassedPassed(a: seq<Note>, e: DriverEvent)
    ensures Unpassed(a + [Passed(e)]) == Unpassed(a)
  {
    assert (a + [Passed(e)])[..|a|] == a;
  }

  lemma UnpassedNotes(log: seq<Note>, own: seq<Note>, passed: seq<Note>)
    requires (forall i :: 0 <= i < |own| ==> !own[i].Passed?) && (passed == [] || (|passed| == 1 && passed[0].Passed?))
    ensures Unpassed(log + own + passed) == Unpassed(log) + own
  {
    UnpassedConcat(log, own);
    if passed == [] {
      assert log + own + passed == log + own;
    } else {
      assert passed == [Passed(passed[0].event)];
      UnpassedPassed(log + own, passed[0].event);
    }
  }

  lemma LogUnpassed(h: History, e: Event)
    ensures Unpassed(LogOf(Then(h, e))) == Unpassed(LogOf(h)) + OwnNotes(h, e, Base(h).observer)
  {
    var passed := if e.FromDriver? && Base(h).downstream then [Passed(e.event)] else [];
    UnpassedNotes(LogOf(h), OwnNotes(h, e, Base(h).observer), passed);
    assert Base(Then(h, e)) == Base(h);
  }

  /** Nested or not, a session does what the sequence of calls says: same phase,
      and the same notes in the same order, passing on aside. */
  lemma NestedIsHistory(h: Moves)
    ensures Agrees(RunOf(h).s, Flat(h)) && Unpassed(RunOf(h).s.log) == Unpassed(LogOf(Flat(h)))
  {
    NestedFollows(h);
  }

  lemma {:induction false} NestedFollows(h: Moves)
    ensures Follows(RunOf(h).s, Flat(h))
  {
    if h.After? {
      NestedFollows(h.past);
      NestedStep(h.past, h.move);
    }
  }

  ghost predicate Follows(s: State, f: History) {
    Agrees(s, f) && Unpassed(s.log) == Unpassed(LogOf(f)) && s.observer == Base(f).observer
  }

  lemma CallFollows(s: State, f: History, e: Event)
    requires Follows(s, f)
    ensures Follows(if e.FromDriver? then Local(s, e.event) else Step(s, e), Then(f, e))
  {
    LogUnpassed(f, e);
    UnpassedConcat(s.log, OwnNotes(f, e, s.observer));
    if e.FromDriver? {
      LocalAgrees(s, f, e.event);
      MoveDownstream(Nested(s, []), Calls(e));
    } else {
      StepAgrees(s, f, e);
      MoveDownstream(Nested(s, []), Calls(e));
    }
  }

  lemma ReturnFollows(s: State, f: History, e: DriverEvent)
    requires Follows(s, f)
    ensures Follows(Forward(s, e), f)
  {
    UnpassedPassed(s.log, e);
  }

  lemma NestedStep(h: Moves, m: Move)
    requires Follows(RunOf(h).s, Flat(h))
    ensures Follows(MoveTo(RunOf(h), m).s, Flat(After(h, m)))
  {
    var n := RunOf(h);
    match m
    case Calls(e) => CallFollows(n.s, Flat(h), e);
    case Returns =>
      if n.open != [] {
        ReturnFollows(n.s, Flat(h), n.open[|n.open| - 1]);
      }
  }
}
