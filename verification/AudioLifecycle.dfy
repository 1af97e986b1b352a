/** The audio lifecycle: one re-armable session object between the peer connection
    driver and its embedder.  `log` is everything it does to others, in order. */
module AudioLifecycle {
  import opened Options

  type Handle = nat

  datatype Phase = Idle | Armed | Active | Stopped

  datatype IceState = Connected | Disconnected | OtherIce

  /** What the driver reports. */
  datatype DriverEvent =
    | IceChanged(ice: IceState)
    | RenegotiationStarted(trigger: string)
    | NewViewerNeedsOffer
    | RenegotiationCompleted
    | Closed(reason: string)
    | Failed(reason: string)

  datatype Ref = Transceiver(t: Handle) | Track(k: Handle) | Source(s: Handle)

  datatype Note =
    | Activated
    | StoppedNotice(graceful: bool, reason: string)
    | StopStandard(t: Handle)
    | Dropped(ref: Ref)
    | Rearmed
    | Passed(event: DriverEvent)

  /** The observer and the driver's own observer downstream may both be absent. */
  datatype State = State(observer: bool, downstream: bool, phase: Phase, source: Option<Handle>, track: Option<Handle>,
                         transceiver: Option<Handle>, emitted: bool, log: seq<Note>)

  function Start(observer: bool, downstream: bool): State {
    State(observer, downstream, Idle, None, None, None, false, [])
  }

  // ----- the operations -----

  function AdoptBindings(s: State, source: Option<Handle>, track: Option<Handle>, transceiver: Option<Handle>): State {
    if s.phase != Idle || source.None? || track.None? || transceiver.None? then s
    else s.(source := source, track := track, transceiver := transceiver, phase := Armed)
  }

  function Say(s: State, note: Note): State {
    if s.observer then s.(log := s.log + [note]) else s
  }

  function DropRef(log: seq<Note>, ref: Option<Ref>): seq<Note> {
    if ref.None? then log else log + [Dropped(ref.value)]
  }

  /** The transceiver is stopped, then the references go in the order
      transceiver, track, source. */
  function Released(s: State): seq<Note> {
    var stopped := if s.transceiver.None? then s.log else s.log + [StopStandard(s.transceiver.value)];
    DropRef(DropRef(DropRef(stopped, TransceiverOf(s)), TrackOf(s)), SourceOf(s))
  }

  function TransceiverOf(s: State): Option<Ref> { if s.transceiver.None? then None else Some(Transceiver(s.transceiver.value)) }
  function TrackOf(s: State): Option<Ref> { if s.track.None? then None else Some(Track(s.track.value)) }
  function SourceOf(s: State): Option<Ref> { if s.source.None? then None else Some(Source(s.source.value)) }

  function StopInternal(s: State, graceful: bool, reason: string): State {
    if s.phase == Stopped then s
    else Say(s.(phase := Stopped, source := None, track := None, transceiver := None, log := Released(s)),
             StoppedNotice(graceful, reason))
  }

  function PrepareForTeardown(s: State, reason: string): State {
    match s.phase
    case Stopped => s
    case Idle => Say(s.(phase := Stopped), StoppedNotice(true, reason))
    case _ => StopInternal(s, true, reason)
  }

  function Rearm(s: State): State {
    if s.phase != Stopped then s else s.(phase := Idle, emitted := false, log := s.log + [Rearmed])
  }

  function OnIce(s: State, ice: IceState): State {
    if ice != Connected || s.phase != Armed then s
    else if s.emitted then s.(phase := Active)
    else Say(s.(phase := Active, emitted := true), Activated)
  }

  /** Closed and failed alike: an idle session stops without a notice. */
  function OnEnd(s: State, reason: string): State {
    match s.phase
    case Stopped => s
    case Idle => s.(phase := Stopped)
    case _ => StopInternal(s, false, reason)
  }

  function Local(s: State, e: DriverEvent): State {
    match e
    case IceChanged(ice) => OnIce(s, ice)
    case Closed(reason) => OnEnd(s, reason)
    case Failed(reason) => OnEnd(s, reason)
    case _ => s
  }

  function Forward(s: State, e: DriverEvent): State {
    if s.downstream then s.(log := s.log + [Passed(e)]) else s
  }

  function OnDriver(s: State, e: DriverEvent): State { Forward(Local(s, e), e) }

  function Destroy(s: State): State {
    if s.phase == Stopped || s.phase == Idle then s else StopInternal(s, false, "lifecycle destroyed")
  }

  datatype Event =
    | Adopt(source: Option<Handle>, track: Option<Handle>, transceiver: Option<Handle>)
    | Teardown(reason: string)
    | TryRearm
    | FromDriver(event: DriverEvent)

  function Step(s: State, e: Event): State {
    match e
    case Adopt(source, track, transceiver) => AdoptBindings(s, source, track, transceiver)
    case Teardown(reason) => PrepareForTeardown(s, reason)
    case TryRearm => Rearm(s)
    case FromDriver(event) => OnDriver(s, event)
  }

  datatype History = Boot(observer: bool, downstream: bool) | Then(past: History, event: Event)

  function Run(h: History): State {
    match h
    case Boot(observer, downstream) => Start(observer, downstream)
    case Then(past, e) => Step(Run(past), e)
  }

  // ----- references -----

  predicate HoldsAll(s: State) { s.source.Some? && s.track.Some? && s.transceiver.Some? }
  predicate HoldsNone(s: State) { s.source.None? && s.track.None? && s.transceiver.None? }

  predicate RefsOk(s: State) {
    if s.phase == Armed || s.phase == Active then HoldsAll(s) else HoldsNone(s)
  }

  lemma StepKeepsRefs(s: State, e: Event)
    requires RefsOk(s)
    ensures RefsOk(Step(s, e))
  {
    if e.FromDriver? {
      assert RefsOk(Local(s, e.event));
    }
  }

  /** References are held exactly while armed or active, all three together. */
  lemma {:induction false} RefsHeldExactly(h: History)
    ensures if Run(h).phase == Armed || Run(h).phase == Active then HoldsAll(Run(h)) else HoldsNone(Run(h))
  {
    if h.Then? {
      RefsHeldExactly(h.past);
      StepKeepsRefs(Run(h.past), h.event);
    }
  }

  /** The order in which one adoption is to be released. */
  function InReleaseOrder(source: Handle, track: Handle, transceiver: Handle): seq<Ref> {
    [Transceiver(transceiver), Track(track), Source(source)]
  }

  predicate Adopts(s: State, e: Event) {
    e.Adopt? && s.phase == Idle && e.source.Some? && e.track.Some? && e.transceiver.Some?
  }

  /** Everything ever adopted, each adoption in release order. */
  function Adopted(h: History): seq<Ref> {
    match h
    case Boot(_, _) => []
    case Then(past, e) =>
      if Adopts(Run(past), e) then Adopted(past) + InReleaseOrder(e.source.value, e.track.value, e.transceiver.value)
      else Adopted(past)
  }

  function Held(s: State): seq<Ref> {
    if HoldsAll(s) then InReleaseOrder(s.source.value, s.track.value, s.transceiver.value) else []
  }

  function DroppedOf(log: seq<Note>): seq<Ref> {
    if log == [] then []
    else if log[|log| - 1].Dropped? then DroppedOf(log[..|log| - 1]) + [log[|log| - 1].ref]
    else DroppedOf(log[..|log| - 1])
  }

  lemma StopDrops(s: State, graceful: bool, reason: string)
    requires HoldsAll(s) && s.phase != Stopped
    ensures DroppedOf(StopInternal(s, graceful, reason).log) == DroppedOf(s.log) + Held(s)
  {
    ReleaseDrops(s);
    DropsNothing(Released(s), StoppedNotice(graceful, reason));
  }

  lemma ReleaseDrops(s: State)
    requires HoldsAll(s)
    ensures DroppedOf(Released(s)) == DroppedOf(s.log) + Held(s)
  {
    var t, k, c := s.transceiver.value, s.track.value, s.source.value;
    var l1 := s.log + [StopStandard(t)];
    var l2 := l1 + [Dropped(Transceiver(t))];
    var l3 := l2 + [Dropped(Track(k))];
    DropsNothing(s.log, StopStandard(t));
    DropsOne(l1, Transceiver(t));
    DropsOne(l2, Track(k));
    DropsOne(l3, Source(c));
    assert DroppedOf(l3 + [Dropped(Source(c))]) == DroppedOf(s.log) + [Transceiver(t)] + [Track(k)] + [Source(c)];
  }

  lemma DropsOne(log: seq<Note>, ref: Ref)
    ensures DroppedOf(log + [Dropped(ref)]) == DroppedOf(log) + [ref]
  {
    assert (log + [Dropped(ref)])[..|log|] == log;
  }

  lemma DropsNothing(log: seq<Note>, note: Note)
    requires !note.Dropped?
    ensures DroppedOf(log + [note]) == DroppedOf(log)
  {
    assert (log + [note])[..|log|] == log;
  }

  /** Dropped so far, and still to drop. */
  function Owned(s: State): seq<Ref> { DroppedOf(s.log) + Held(s) }

  lemma StopOwns(s: State, graceful: bool, reason: string)
    requires RefsOk(s) && (s.phase == Armed || s.phase == Active)
    ensures Owned(StopInternal(s, graceful, reason)) == Owned(s)
  {
    StopDrops(s, graceful, reason);
  }

  lemma NoteOwns(s: State, s': State, note: Note)
    requires !note.Dropped? && Held(s') == Held(s) && (s'.log == s.log || s'.log == s.log + [note])
    ensures Owned(s') == Owned(s)
  {
    DropsNothing(s.log, note);
  }

  lemma LocalOwns(s: State, e: DriverEvent)
    requires RefsOk(s)
    ensures Owned(Local(s, e)) == Owned(s)
  {
    if (e.Closed? || e.Failed?) && (s.phase == Armed || s.phase == Active) {
      StopOwns(s, false, e.reason);
    } else {
      NoteOwns(s, Local(s, e), Activated);
    }
  }

  lemma TeardownOwns(s: State, reason: string)
    requires RefsOk(s)
    ensures Owned(PrepareForTeardown(s, reason)) == Owned(s)
  {
    if s.phase == Armed || s.phase == Active {
      StopOwns(s, true, reason);
    } else {
      NoteOwns(s, PrepareForTeardown(s, reason), StoppedNotice(true, reason));
    }
  }

  lemma StepOwns(s: State, e: Event)
    requires RefsOk(s)
    ensures Owned(Step(s, e))
            == if Adopts(s, e) then Owned(s) + InReleaseOrder(e.source.value, e.track.value, e.transceiver.value) else Owned(s)
  {
    match e
    case Adopt(_, _, _) =>
    case Teardown(reason) => TeardownOwns(s, reason);
    case TryRearm => NoteOwns(s, Rearm(s), Rearmed);
    case FromDriver(event) =>
      LocalOwns(s, event);
      NoteOwns(Local(s, event), OnDriver(s, event), Passed(event));
  }

  /** Conservation: every adoption is released once, whole and in order, or is
      the one still held. */
  lemma {:induction false} ReleasedInOrder(h: History)
    ensures DroppedOf(Run(h).log) + Held(Run(h)) == Adopted(h)
  {
    if h.Then? {
      ReleasedInOrder(h.past);
      RefsHeldExactly(h.past);
      StepOwns(Run(h.past), h.event);
    }
  }

  // ----- notices -----

  /** An activation, or a stop, has been noticed since the last re-arm. */
  predicate SinceActivated(log: seq<Note>) {
    log != [] && (log[|log| - 1].Activated? || (!log[|log| - 1].Rearmed? && SinceActivated(log[..|log| - 1])))
  }

  predicate SinceStopped(log: seq<Note>) {
    log != [] && (log[|log| - 1].StoppedNotice? || (!log[|log| - 1].Rearmed? && SinceStopped(log[..|log| - 1])))
  }

  /** Between re-arms: one activation at most, one stop at most, and no activation
      after the stop. */
  predicate Disciplined(log: seq<Note>) {
    log == []
    || (var before, note := log[..|log| - 1], log[|log| - 1];
        && Disciplined(before)
        && (note.Activated? ==> !SinceActivated(before) && !SinceStopped(before))
        && (note.StoppedNotice? ==> !SinceStopped(before)))
  }

  lemma LogSnoc(log: seq<Note>, note: Note)
    ensures SinceActivated(log + [note]) == (note.Activated? || (!note.Rearmed? && SinceActivated(log)))
    ensures SinceStopped(log + [note]) == (note.StoppedNotice? || (!note.Rearmed? && SinceStopped(log)))
    ensures Disciplined(log + [note])
            == (Disciplined(log) && (note.Activated? ==> !SinceActivated(log) && !SinceStopped(log))
                && (note.StoppedNotice? ==> !SinceStopped(log)))
  {
    assert (log + [note])[..|log|] == log;
  }

  /** The session was stopped while idle by the driver's end, which says nothing. */
  predicate Silent(h: History) {
    h.Then?
    && !(h.event.TryRearm? && Run(h.past).phase == Stopped)
    && (Silent(h.past)
        || (h.event.FromDriver? && (h.event.event.Closed? || h.event.event.Failed?) && Run(h.past).phase == Idle))
  }

  ghost predicate NoticesOk(s: State) {
    && Disciplined(s.log)
    && (SinceActivated(s.log) ==> s.emitted && (s.phase == Active || s.phase == Stopped))
    && (s.emitted ==> s.phase == Active || s.phase == Stopped)
    && (SinceStopped(s.log) ==> s.phase == Stopped)
  }

  predicate Quiet(note: Note) { note.StopStandard? || note.Dropped? || note.Passed? }

  ghost predicate SameNotices(log: seq<Note>, log': seq<Note>) {
    && SinceActivated(log') == SinceActivated(log) && SinceStopped(log') == SinceStopped(log)
    && Disciplined(log') == Disciplined(log)
  }

  lemma QuietNote(log: seq<Note>, note: Note)
    requires Quiet(note)
    ensures SameNotices(log, log + [note])
  {
    LogSnoc(log, note);
  }

  lemma QuietDrop(log: seq<Note>, ref: Option<Ref>)
    ensures SameNotices(log, DropRef(log, ref))
  {
    if ref.Some? {
      QuietNote(log, Dropped(ref.value));
    }
  }

  lemma QuietRelease(s: State)
    ensures SameNotices(s.log, Released(s))
  {
    if s.transceiver.Some? {
      QuietNote(s.log, StopStandard(s.transceiver.value));
    }
    var l1 := if s.transceiver.None? then s.log else s.log + [StopStandard(s.transceiver.value)];
    var l2 := DropRef(l1, TransceiverOf(s));
    QuietDrop(l1, TransceiverOf(s));
    QuietDrop(l2, TrackOf(s));
    QuietDrop(DropRef(l2, TrackOf(s)), SourceOf(s));
  }

  lemma StopNotices(s: State, graceful: bool, reason: string)
    requires NoticesOk(s) && s.phase != Stopped
    ensures var s' := StopInternal(s, graceful, reason);
            && NoticesOk(s') && SinceStopped(s'.log) == s.observer
  {
    QuietRelease(s);
    LogSnoc(Released(s), StoppedNotice(graceful, reason));
  }

  lemma LocalNotices(s: State, e: DriverEvent)
    requires NoticesOk(s)
    ensures NoticesOk(Local(s, e))
    ensures SinceStopped(Local(s, e).log)
            == (SinceStopped(s.log) || (s.observer && (e.Closed? || e.Failed?) && (s.phase == Armed || s.phase == Active)))
  {
    LogSnoc(s.log, Activated);
    if (e.Closed? || e.Failed?) && (s.phase == Armed || s.phase == Active) {
      StopNotices(s, false, e.reason);
    }
  }

  lemma StepNotices(s: State, e: Event)
    requires NoticesOk(s)
    ensures NoticesOk(Step(s, e))
  {
    match e
    case Adopt(_, _, _) =>
    case Teardown(reason) =>
      LogSnoc(s.log, StoppedNotice(true, reason));
      if s.phase == Armed || s.phase == Active {
        StopNotices(s, true, reason);
      }
    case TryRearm => LogSnoc(s.log, Rearmed);
    case FromDriver(event) =>
      LocalNotices(s, event);
      QuietNote(Local(s, event).log, Passed(event));
  }

  /** The session discipline over every run. */
  lemma {:induction false} NoticesAreDisciplined(h: History)
    ensures NoticesOk(Run(h))
  {
    if h.Then? {
      NoticesAreDisciplined(h.past);
      StepNotices(Run(h.past), h.event);
    }
  }

  lemma TeardownNotice(s: State, reason: string)
    requires NoticesOk(s)
    ensures SinceStopped(PrepareForTeardown(s, reason).log) == (SinceStopped(s.log) || (s.observer && s.phase != Stopped))
  {
    LogSnoc(s.log, StoppedNotice(true, reason));
    if s.phase == Armed || s.phase == Active {
      StopNotices(s, true, reason);
    }
  }

  lemma StepStopNotice(s: State, e: Event)
    requires NoticesOk(s)
    ensures SinceStopped(Step(s, e).log)
            == (if e.TryRearm? && s.phase == Stopped then false
                else SinceStopped(s.log)
                     || (s.observer && ((e.Teardown? && s.phase != Stopped)
                                        || (e.FromDriver? && (e.event.Closed? || e.event.Failed?) && (s.phase == Armed || s.phase == Active)))))
  {
    match e
    case Adopt(_, _, _) =>
    case Teardown(reason) => TeardownNotice(s, reason);
    case TryRearm => LogSnoc(s.log, Rearmed);
    case FromDriver(event) =>
      LocalNotices(s, event);
      QuietNote(Local(s, event).log, Passed(event));
  }

  lemma {:induction false} SameObserver(h: History)
    ensures Run(h).observer == Base(h).observer && Run(h).downstream == Base(h).downstream
  {
    if h.Then? {
      SameObserver(h.past);
    }
  }

  function Base(h: History): (b: History)
    ensures b.Boot?
  {
    if h.Then? then Base(h.past) else h
  }

  predicate DriverEnds(e: Event) { e.FromDriver? && (e.event.Closed? || e.event.Failed?) }

  lemma StepPhase(s: State, e: Event)
    ensures Step(s, e).phase == Stopped <==> e.Teardown? || DriverEnds(e) || (s.phase == Stopped && !e.TryRearm?)
  {
  }

  /** A stopped session has given its one stop notice, unless it was idle when the
      driver closed or failed: exactly then it gives none. */
  lemma {:induction false} StopNoticeExactly(h: History)
    requires Base(h).observer
    ensures Silent(h) ==> Run(h).phase == Stopped
    ensures SinceStopped(Run(h).log) <==> Run(h).phase == Stopped && !Silent(h)
  {
    if h.Then? {
      StopNoticeExactly(h.past);
      NoticesAreDisciplined(h.past);
      SameObserver(h.past);
      StepStopNotice(Run(h.past), h.event);
      StepPhase(Run(h.past), h.event);
    }
  }

  function StopsOf(log: seq<Note>): seq<Note> {
    if log == [] then []
    else if log[|log| - 1].StoppedNotice? then StopsOf(log[..|log| - 1]) + [log[|log| - 1]]
    else StopsOf(log[..|log| - 1])
  }

  /** The notice a step owes: graceful exactly when the embedder asked for the
      teardown, and with the reason given. */
  function StopOwed(s: State, e: Event): Option<Note> {
    match e
    case Teardown(reason) => if s.phase == Stopped then None else Some(StoppedNotice(true, reason))
    case FromDriver(event) =>
      if (event.Closed? || event.Failed?) && (s.phase == Armed || s.phase == Active) then Some(StoppedNotice(false, event.reason))
      else None
    case _ => None
  }

  function StopsOwed(h: History): seq<Note> {
    if h.Boot? then []
    else if StopOwed(Run(h.past), h.event).Some? then StopsOwed(h.past) + [StopOwed(Run(h.past), h.event).value]
    else StopsOwed(h.past)
  }

  lemma StopsSnoc(log: seq<Note>, note: Note)
    ensures StopsOf(log + [note]) == if note.StoppedNotice? then StopsOf(log) + [note] else StopsOf(log)
  {
    assert (log + [note])[..|log|] == log;
  }

  lemma DropStops(log: seq<Note>, ref: Option<Ref>)
    ensures StopsOf(DropRef(log, ref)) == StopsOf(log)
  {
    if ref.Some? {
      StopsSnoc(log, Dropped(ref.value));
    }
  }

  lemma StopStops(s: State, graceful: bool, reason: string)
    requires s.phase != Stopped && s.observer
    ensures StopsOf(StopInternal(s, graceful, reason).log) == StopsOf(s.log) + [StoppedNotice(graceful, reason)]
  {
    if s.transceiver.Some? {
      StopsSnoc(s.log, StopStandard(s.transceiver.value));
    }
    var l1 := if s.transceiver.None? then s.log else s.log + [StopStandard(s.transceiver.value)];
    var l2 := DropRef(l1, TransceiverOf(s));
    DropStops(l1, TransceiverOf(s));
    DropStops(l2, TrackOf(s));
    DropStops(DropRef(l2, TrackOf(s)), SourceOf(s));
    StopsSnoc(Released(s), StoppedNotice(graceful, reason));
  }

  lemma TeardownStops(s: State, reason: string)
    requires s.observer && s.phase != Stopped
    ensures StopsOf(PrepareForTeardown(s, reason).log) == StopsOf(s.log) + [StoppedNotice(true, reason)]
  {
    if s.phase == Idle {
      StopsSnoc(s.log, StoppedNotice(true, reason));
    } else {
      StopStops(s, true, reason);
    }
  }

  lemma LocalStops(s: State, e: DriverEvent)
    requires s.observer
    ensures StopsOf(Local(s, e).log)
            == if StopOwed(s, FromDriver(e)).Some? then StopsOf(s.log) + [StopOwed(s, FromDriver(e)).value] else StopsOf(s.log)
  {
    if (e.Closed? || e.Failed?) && (s.phase == Armed || s.phase == Active) {
      StopStops(s, false, e.reason);
      assert Local(s, e) == StopInternal(s, false, e.reason) && StopOwed(s, FromDriver(e)) == Some(StoppedNotice(false, e.reason));
    } else {
      StopsSnoc(s.log, Activated);
      assert Local(s, e).log == s.log || Local(s, e).log == s.log + [Activated];
    }
  }

  lemma StepStops(s: State, e: Event)
    requires s.observer
    ensures StopsOf(Step(s, e).log)
            == if StopOwed(s, e).Some? then StopsOf(s.log) + [StopOwed(s, e).value] else StopsOf(s.log)
  {
    match e
    case Adopt(_, _, _) =>
    case Teardown(reason) =>
      if s.phase != Stopped {
        TeardownStops(s, reason);
      }
    case TryRearm => StopsSnoc(s.log, Rearmed);
    case FromDriver(event) =>
      LocalStops(s, event);
      StopsSnoc(Local(s, event).log, Passed(event));
  }

  /** Which stop notices were given, in order, read off the history. */
  lemma {:induction false} StopNoticesAreHistory(h: History)
    requires Base(h).observer
    ensures StopsOf(Run(h).log) == StopsOwed(h)
  {
    if h.Then? {
      StopNoticesAreHistory(h.past);
      SameObserver(h.past);
      StepStops(Run(h.past), h.event);
    }
  }

  /** A driver that fails before anything is adopted stops the session unseen. */
  lemma IdleFailureIsSilent(reason: string)
    ensures var h := Then(Boot(true, true), FromDriver(Failed(reason)));
            Run(h).phase == Stopped && Run(h).log == [Passed(Failed(reason))]
  {
    var h := Boot(true, true);
    assert Run(h) == Start(true, true);
    assert [] + [Passed(Failed(reason))] == [Passed(Failed(reason))];
  }

  // ----- forwarding -----

  function PassedOf(log: seq<Note>): seq<DriverEvent> {
    if log == [] then []
    else if log[|log| - 1].Passed? then PassedOf(log[..|log| - 1]) + [log[|log| - 1].event]
    else PassedOf(log[..|log| - 1])
  }

  function DriverEvents(h: History): seq<DriverEvent> {
    match h
    case Boot(_, _) => []
    case Then(past, e) => if e.FromDriver? then DriverEvents(past) + [e.event] else DriverEvents(past)
  }

  lemma PassedSnoc(log: seq<Note>, note: Note)
    ensures PassedOf(log + [note]) == if note.Passed? then PassedOf(log) + [note.event] else PassedOf(log)
  {
    assert (log + [note])[..|log|] == log;
  }

  lemma DropPasses(log: seq<Note>, ref: Option<Ref>)
    ensures PassedOf(DropRef(log, ref)) == PassedOf(log)
  {
    if ref.Some? {
      PassedSnoc(log, Dropped(ref.value));
    }
  }

  lemma StopPasses(s: State, graceful: bool, reason: string)
    ensures PassedOf(StopInternal(s, graceful, reason).log) == PassedOf(s.log)
  {
    if s.transceiver.Some? {
      PassedSnoc(s.log, StopStandard(s.transceiver.value));
    }
    var l1 := if s.transceiver.None? then s.log else s.log + [StopStandard(s.transceiver.value)];
    var l2 := DropRef(l1, TransceiverOf(s));
    DropPasses(l1, TransceiverOf(s));
    DropPasses(l2, TrackOf(s));
    DropPasses(DropRef(l2, TrackOf(s)), SourceOf(s));
    PassedSnoc(Released(s), StoppedNotice(graceful, reason));
  }

  /** What is done locally passes nothing on. */
  lemma LocalPasses(s: State, e: DriverEvent)
    ensures PassedOf(Local(s, e).log) == PassedOf(s.log)
  {
    PassedSnoc(s.log, Activated);
    if e.Closed? || e.Failed? {
      StopPasses(s, false, e.reason);
    }
  }

  lemma TeardownPasses(s: State, reason: string)
    ensures PassedOf(PrepareForTeardown(s, reason).log) == PassedOf(s.log)
  {
    if s.phase == Idle {
      PassedSnoc(s.log, StoppedNotice(true, reason));
    } else {
      StopPasses(s, true, reason);
    }
  }

  lemma DriverPasses(s: State, e: DriverEvent)
    ensures PassedOf(OnDriver(s, e).log) == if s.downstream then PassedOf(s.log) + [e] else PassedOf(s.log)
  {
    LocalPasses(s, e);
    PassedSnoc(Local(s, e).log, Passed(e));
    assert Local(s, e).downstream == s.downstream;
  }

  lemma StepPasses(s: State, e: Event)
    ensures PassedOf(Step(s, e).log)
            == if e.FromDriver? && s.downstream then PassedOf(s.log) + [e.event] else PassedOf(s.log)
    ensures e.FromDriver? && s.downstream ==> Step(s, e).log == Local(s, e.event).log + [Passed(e.event)]
  {
    match e
    case Adopt(_, _, _) =>
    case Teardown(reason) => TeardownPasses(s, reason);
    case TryRearm => PassedSnoc(s.log, Rearmed);
    case FromDriver(event) => DriverPasses(s, event);
  }

  /** Every driver event is passed downstream exactly once, in order; StepPasses
      puts it after everything done locally. */
  lemma {:induction false} PassedExactlyOnce(h: History)
    ensures PassedOf(Run(h).log) == if Base(h).downstream then DriverEvents(h) else []
  {
    if h.Then? {
      PassedExactlyOnce(h.past);
      SameObserver(h.past);
      StepPasses(Run(h.past), h.event);
    }
  }

  /** Destruction leaves no reference behind. */
  lemma DestroyReleases(h: History)
    ensures HoldsNone(Destroy(Run(h)))
    ensures DroppedOf(Destroy(Run(h)).log) == Adopted(h)
  {
    RefsHeldExactly(h);
    ReleasedInOrder(h);
    if HoldsAll(Run(h)) {
      StopDrops(Run(h), false, "lifecycle destroyed");
    }
  }
}
