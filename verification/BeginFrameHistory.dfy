/** The BeginFrame driver read off its history: which events issue a frame, and
    when each timer is due. */
module BeginFrameHistory {
  import opened Options
  import opened BeginFrame

  // ----- readings -----

  /** Started and not stopped since. */
  predicate Running(h: History)
    decreases h, 0
  {
    h.Then? && (if h.event.Starts? then true else if h.event.Stops? then false else Running(h.past))
  }

  /** e acknowledges the frame of the current epoch. */
  predicate Accepts(past: History, e: Event)
    decreases past, 1
  {
    e.Acks? && Running(past) && e.epoch == EpochOf(past)
  }

  /** Some frame of its own epoch was acknowledged. */
  predicate Acked(h: History)
    decreases h, 0
  {
    h.Then? && (Accepts(h.past, h.event) || Acked(h.past))
  }

  /** e is a resize that begins a wait. */
  predicate Holds(past: History, e: Event)
    decreases past, 1
  {
    e.Resizes? && Running(past) && !Awaiting(past)
  }

  /** Resized, and neither acknowledged nor stopped since. */
  predicate Awaiting(h: History)
    decreases h, 0
  {
    h.Then? && (Holds(h.past, h.event) || (Awaiting(h.past) && !Accepts(h.past, h.event) && !h.event.Stops?))
  }

  /** Watchdog fires since the last issue, accepted ack or resize. */
  function FiresSince(h: History): nat
    decreases h, 0
  {
    if h.Boot? then 0
    else if Issues(h.past, h.event).Some? || Accepts(h.past, h.event) || Holds(h.past, h.event) then 0
    else if h.event.WatchdogTimer? then FiresSince(h.past) + 1
    else FiresSince(h.past)
  }

  /** Why e issues a frame, if it does: at the start; an ack that comes an interval
      or more after the issue it answers; the frame timer; or the 15th watchdog
      fire with nothing heard since, once something has been heard at all and no
      resize is being waited out. */
  function Issues(past: History, e: Event): Option<Cause>
    decreases past, 2
  {
    match e
    case Starts(_) => if Running(past) then None else Some(AtStart)
    case Acks(_, at) => if Accepts(past, e) && at - LastAt(past) >= IntervalOf(past) then Some(AfterAck) else None
    case FrameTimer(_) => if Running(past) then Some(ByTimer) else None
    case WatchdogTimer(_) =>
      if Running(past) && Acked(past) && !Awaiting(past) && FiresSince(past) == 14 then Some(ByWatchdog) else None
    case _ => None
  }

  function IntervalOf(h: History): int
    decreases h, 0
  {
    if h.Then? then IntervalOf(h.past)
    else if h.requested < 16_666 then 16_666 else if h.requested > 1_000_000 then 1_000_000 else h.requested
  }

  /** Watchdog re-issues so far. */
  function EpochOf(h: History): nat
    decreases h, 0
  {
    if h.Boot? then 0 else if Issues(h.past, h.event) == Some(ByWatchdog) then EpochOf(h.past) + 1 else EpochOf(h.past)
  }

  /** The issues, numbered from 1. */
  function IssuesOf(h: History): seq<Issue>
    decreases h, 0
  {
    if h.Boot? then []
    else
      match Issues(h.past, h.event)
      case None => IssuesOf(h.past)
      case Some(cause) => IssuesOf(h.past) + [Issue(|IssuesOf(h.past)| + 1, EpochOf(h), h.event.at, cause)]
  }

  /** When the last issue was; 0 before the first. */
  function LastAt(h: History): int
    decreases h, 0
  {
    if h.Boot? then 0 else if Issues(h.past, h.event).Some? then h.event.at else LastAt(h.past)
  }

  /** The next frame is due one interval after the last, once that is acked. */
  function FrameDue(h: History): Option<int> {
    if h.Boot? || h.event.Stops? || Issues(h.past, h.event).Some? then None
    else if Accepts(h.past, h.event) then Some(LastAt(h.past) + IntervalOf(h))
    else FrameDue(h.past)
  }

  /** The watchdog is due a second after the last issue or fire, unless that was
      acknowledged, a resize began a wait, or the driver was stopped. */
  function WatchdogDue(h: History): Option<int> {
    if h.Boot? || h.event.Stops? then None
    else if Issues(h.past, h.event).Some? || h.event.WatchdogTimer? then Some(h.event.at + 1_000_000)
    else if Accepts(h.past, h.event) || Holds(h.past, h.event) then None
    else WatchdogDue(h.past)
  }

  /** A nudge is due every second of a wait. */
  function NudgeDue(h: History): Option<int> {
    if h.Boot? || !Awaiting(h) then None
    else if Holds(h.past, h.event) || h.event.NudgeTimer? then Some(h.event.at + 1_000_000)
    else NudgeDue(h.past)
  }

  /** The nudges of the last wait. */
  function NudgesOf(h: History): nat {
    if h.Boot? || Holds(h.past, h.event) then 0
    else if h.event.NudgeTimer? && Awaiting(h.past) then NudgesOf(h.past) + 1
    else NudgesOf(h.past)
  }

  // ----- the driver is its readings -----

  datatype Readings = Readings(running: bool, acked: bool, awaiting: bool, fires: nat, interval: int, epoch: nat,
                               issues: seq<Issue>, last: int, frame: Option<int>, watchdog: Option<int>, nudge: Option<int>, nudges: nat)

  function ReadingsOf(h: History): Readings {
    Readings(Running(h), Acked(h), Awaiting(h), FiresSince(h), IntervalOf(h), EpochOf(h), IssuesOf(h), LastAt(h), FrameDue(h),
             WatchdogDue(h), NudgeDue(h), NudgesOf(h))
  }

  predicate AcceptedBy(r: Readings, e: Event) { e.Acks? && r.running && e.epoch == r.epoch }
  predicate HeldBy(r: Readings, e: Event) { e.Resizes? && r.running && !r.awaiting }

  function CauseBy(r: Readings, e: Event): Option<Cause> {
    match e
    case Starts(_) => if r.running then None else Some(AtStart)
    case Acks(_, at) => if AcceptedBy(r, e) && at - r.last >= r.interval then Some(AfterAck) else None
    case FrameTimer(_) => if r.running then Some(ByTimer) else None
    case WatchdogTimer(_) => if r.running && r.acked && !r.awaiting && r.fires == 14 then Some(ByWatchdog) else None
    case _ => None
  }

  /** One event more. */
  function NextReadings(r: Readings, e: Event): Readings {
    var cause, accepted, held := CauseBy(r, e), AcceptedBy(r, e), HeldBy(r, e);
    var epoch := if cause == Some(ByWatchdog) then r.epoch + 1 else r.epoch;
    var awaiting := held || (r.awaiting && !accepted && !e.Stops?);
    Readings(if e.Starts? then true else if e.Stops? then false else r.running,
             accepted || r.acked, awaiting,
             if cause.Some? || accepted || held then 0 else if e.WatchdogTimer? then r.fires + 1 else r.fires,
             r.interval, epoch,
             if cause.None? then r.issues else r.issues + [Issue(|r.issues| + 1, epoch, e.at, cause.value)],
             if cause.Some? then e.at else r.last,
             if e.Stops? || cause.Some? then None else if accepted then Some(r.last + r.interval) else r.frame,
             if e.Stops? then None
             else if cause.Some? || e.WatchdogTimer? then Some(e.at + 1_000_000)
             else if accepted || held then None else r.watchdog,
             if !awaiting then None else if held || e.NudgeTimer? then Some(e.at + 1_000_000) else r.nudge,
             if held then 0 else if e.NudgeTimer? && r.awaiting then r.nudges + 1 else r.nudges)
  }

  lemma CauseUnfolds(h: History, e: Event)
    ensures Accepts(h, e) == AcceptedBy(ReadingsOf(h), e) && Holds(h, e) == HeldBy(ReadingsOf(h), e)
    ensures Issues(h, e) == CauseBy(ReadingsOf(h), e)
  {
  }

  lemma FlagsUnfold(h: History, e: Event)
    ensures var h', r := Then(h, e), NextReadings(ReadingsOf(h), e);
            && Running(h') == r.running && Acked(h') == r.acked && Awaiting(h') == r.awaiting && IntervalOf(h') == r.interval
  {
    CauseUnfolds(h, e);
  }

  lemma CountsUnfold(h: History, e: Event)
    ensures var h', r := Then(h, e), NextReadings(ReadingsOf(h), e);
            FiresSince(h') == r.fires && EpochOf(h') == r.epoch && LastAt(h') == r.last
  {
    CauseUnfolds(h, e);
  }

  lemma IssuesUnfold(h: History, e: Event)
    ensures IssuesOf(Then(h, e)) == NextReadings(ReadingsOf(h), e).issues
  {
    CauseUnfolds(h, e);
    CountsUnfold(h, e);
  }

  lemma TimersUnfold(h: History, e: Event)
    ensures var h', r := Then(h, e), NextReadings(ReadingsOf(h), e);
            FrameDue(h') == r.frame && WatchdogDue(h') == r.watchdog && NudgeDue(h') == r.nudge && NudgesOf(h') == r.nudges
  {
    CauseUnfolds(h, e);
    FlagsUnfold(h, e);
  }

  lemma Unfolds(h: History, e: Event)
    ensures ReadingsOf(Then(h, e)) == NextReadings(ReadingsOf(h), e)
  {
    FlagsUnfold(h, e);
    CountsUnfold(h, e);
    IssuesUnfold(h, e);
    TimersUnfold(h, e);
  }

  ghost predicate Agrees(d: Driver, r: Readings) {
    && d.running == r.running && d.interval == r.interval && d.epoch == r.epoch && d.firstAck == r.acked
    && d.awaiting == r.awaiting && d.issues == r.issues && d.nextNumber == |d.issues| + 1 && d.lastIssue == r.last
    && d.fires == r.fires && (d.running && d.firstAck && !d.awaiting ==> d.fires <= 14)
    && d.nextFrame == r.frame && d.watchdog == r.watchdog && d.nudge == r.nudge && d.nudges == r.nudges
    && (d.nudge.Some? ==> d.awaiting) && (d.awaiting ==> d.running)
  }

  lemma StepAgrees(d: Driver, r: Readings, e: Event)
    requires Inv(d) && Enabled(d, e) && Agrees(d, r)
    ensures Agrees(Step(d, e), NextReadings(r, e))
  {
    match e
    case Acks(epoch, at) => AckAgrees(d, r, epoch, at);
    case WatchdogTimer(at) => WatchdogAgrees(d, r, at);
    case _ =>
  }

  lemma AckAgrees(d: Driver, r: Readings, epoch: nat, at: int)
    requires Inv(d) && Enabled(d, Acks(epoch, at)) && Agrees(d, r)
    ensures Agrees(Step(d, Acks(epoch, at)), NextReadings(r, Acks(epoch, at)))
  {
    assert d.running && epoch == d.epoch ==> Outstanding(d);
  }

  lemma WatchdogAgrees(d: Driver, r: Readings, at: int)
    requires Inv(d) && Enabled(d, WatchdogTimer(at)) && Agrees(d, r)
    ensures Agrees(Step(d, WatchdogTimer(at)), NextReadings(r, WatchdogTimer(at)))
  {
  }

  /** In every legal run the issues, with number, epoch, time and cause, are those
      of the history, and each timer is due exactly when the history says. */
  lemma {:induction false} DriverIsHistory(h: History)
    requires Legal(h)
    ensures Agrees(Run(h), ReadingsOf(h))
  {
    if h.Then? {
      DriverIsHistory(h.past);
      RunKeeps(h.past);
      StepAgrees(Run(h.past), ReadingsOf(h.past), h.event);
      Unfolds(h.past, h.event);
    }
  }

  /** A watchdog fire on a running driver re-issues, in a new epoch, if and only if
      a first ack was accepted, no resize is being waited out, and it is the 15th
      since the last issue, accepted ack or resize; any other fire leaves issues
      and epoch alone.  Either way the watchdog is armed for a second later. */
  lemma WatchdogExactly(h: History, at: int)
    requires Legal(Then(h, WatchdogTimer(at))) && Run(h).running
    ensures var d, d' := Run(h), Run(Then(h, WatchdogTimer(at)));
            && d'.watchdog == Some(at + 1_000_000)
            && (if Acked(h) && !Awaiting(h) && FiresSince(h) == 14
                then d'.epoch == d.epoch + 1 && d'.issues == d.issues + [Issue(|d.issues| + 1, d'.epoch, at, ByWatchdog)]
                else d'.epoch == d.epoch && d'.issues == d.issues)
  {
    DriverIsHistory(h);
    RunKeeps(h);
    WatchdogAgrees(Run(h), ReadingsOf(h), at);
    CauseUnfolds(h, WatchdogTimer(at));
    FiredReadings(ReadingsOf(h), at);
  }

  lemma FiredReadings(r: Readings, at: int)
    requires r.running
    ensures var r', again := NextReadings(r, WatchdogTimer(at)), r.acked && !r.awaiting && r.fires == 14;
            && r'.watchdog == Some(at + 1_000_000) && r'.epoch == (if again then r.epoch + 1 else r.epoch)
            && r'.issues == if again then r.issues + [Issue(|r.issues| + 1, r.epoch + 1, at, ByWatchdog)] else r.issues
  {
  }

  /** d' has issued the next frame at once, an interval or more having passed since
      the last, or has it due at exactly one interval. */
  ghost predicate OnCadence(d: Driver, d': Driver, at: int) {
    var n := |d.issues|;
    && n > 0
    && var due := d.issues[n - 1].at + d.interval;
       if at >= due
       then d'.nextFrame.None? && |d'.issues| == n + 1 && d'.issues[..n] == d.issues && d'.issues[n].at == at
            && d'.issues[n].cause == AfterAck && d'.issues[n].epoch == d.epoch
       else d'.issues == d.issues && d'.nextFrame == Some(due)
  }

  /** Every accepted ack keeps the cadence. */
  lemma CadenceExactly(h: History, epoch: nat, at: int)
    requires Legal(h) && Enabled(Run(h), Acks(epoch, at)) && Run(h).running && epoch == Run(h).epoch
    ensures OnCadence(Run(h), Run(Then(h, Acks(epoch, at))), at)
  {
    RunAnswers(h);
    CadenceStep(Run(h), epoch, at);
  }

  lemma RunAnswers(h: History)
    requires Legal(h) && Run(h).running && Outstanding(Run(h))
    ensures Latest(Run(h)) && Run(h).nextFrame.None?
  {
    RunKeeps(h);
  }

  lemma CadenceStep(d: Driver, epoch: nat, at: int)
    requires Latest(d) && d.running && epoch == d.epoch && d.nextFrame.None?
    ensures OnCadence(d, Step(d, Acks(epoch, at)), at)
  {
  }
}
