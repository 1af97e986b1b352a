/** The external BeginFrame driver as timed steps against a compositor that may
    acknowledge late, out of turn or never.  Times are whole microseconds. */
module BeginFrame {
  import opened Options

  const SECOND := 1_000_000
  const STALL_TIMEOUT := SECOND
  const FIRES_BEFORE_REISSUE := 15
  const FASTEST_INTERVAL := SECOND / 60
  const SLOWEST_INTERVAL := SECOND

  function ClampInterval(requested: int): (r: int)
    ensures FASTEST_INTERVAL <= r <= SLOWEST_INTERVAL
    ensures FASTEST_INTERVAL <= requested <= SLOWEST_INTERVAL ==> r == requested
  {
    if requested < FASTEST_INTERVAL then FASTEST_INTERVAL
    else if requested > SLOWEST_INTERVAL then SLOWEST_INTERVAL
    else requested
  }

  datatype Cause = AtStart | AfterAck | ByTimer | ByWatchdog

  datatype Issue = Issue(number: nat, epoch: nat, at: int, cause: Cause)

  /** A timer field holds the earliest time it may fire.  `issues` lists every
      BeginFrame handed to the compositor, `unacked` the epochs of those whose
      callback has not run, `acks` how many callbacks were accepted. */
  datatype Driver = Driver(
    interval: int, running: bool, started: bool,
    nextNumber: nat, epoch: nat, firstAck: bool, fires: nat, lastIssue: int,
    nextFrame: Option<int>, watchdog: Option<int>,
    awaiting: bool, nudges: nat, nudge: Option<int>,
    issues: seq<Issue>, unacked: multiset<nat>, acks: nat, clock: int)

  function New(requested: int, clock: int): Driver {
    Driver(ClampInterval(requested), false, false, 1, 0, false, 0, 0, None, None, false, 0, None, [], multiset{}, 0, clock)
  }

  // ----- the methods -----

  function IssueOne(d: Driver, now: int, cause: Cause): Driver {
    if !d.running then d
    else d.(lastIssue := now, nextNumber := d.nextNumber + 1,
            issues := d.issues + [Issue(d.nextNumber, d.epoch, now, cause)],
            unacked := d.unacked + multiset{d.epoch},
            watchdog := Some(now + STALL_TIMEOUT))
  }

  function Start(d: Driver, now: int): Driver {
    if d.running then d else IssueOne(d.(running := true, started := true), now, AtStart)
  }

  function Stop(d: Driver): Driver {
    if !d.running then d
    else d.(running := false, nextFrame := None, watchdog := None, awaiting := false, nudge := None)
  }

  function Reconfigured(d: Driver, now: int): Driver {
    if !d.running || d.awaiting then d
    else d.(awaiting := true, nudges := 0, watchdog := None, fires := 0, nudge := Some(now + SECOND))
  }

  /** Hold the cadence: one interval after the previous issue, or at once. */
  function ReArm(d: Driver, now: int): Driver {
    var residual := d.interval - (now - d.lastIssue);
    if residual > 0 then d.(nextFrame := Some(now + residual)) else IssueOne(d, now, AfterAck)
  }

  function AcceptAck(d: Driver): Driver {
    d.(firstAck := true, awaiting := false, nudge := if d.awaiting then None else d.nudge,
       fires := 0, acks := d.acks + 1, watchdog := None)
  }

  function OnAck(d: Driver, epoch: nat, now: int): Driver {
    if !d.running || epoch != d.epoch then d else ReArm(AcceptAck(d), now)
  }

  function OnNextFrame(d: Driver, now: int): Driver {
    IssueOne(d.(nextFrame := None), now, ByTimer)
  }

  /** Abandon the frozen frame and start a new epoch. */
  function Reissue(d: Driver, now: int): Driver {
    IssueOne(d.(epoch := d.epoch + 1, nextFrame := None, fires := 0), now, ByWatchdog)
  }

  function OnWatchdog(d: Driver, now: int): Driver {
    var d1 := d.(watchdog := None);
    if !d.running then d1
    else if d.awaiting || !d.firstAck || d.fires + 1 < FIRES_BEFORE_REISSUE
    then d1.(fires := d.fires + 1, watchdog := Some(now + STALL_TIMEOUT))
    else Reissue(d1, now)
  }

  function OnNudge(d: Driver, now: int): Driver {
    if !d.running || !d.awaiting then d.(nudge := None)
    else d.(nudges := d.nudges + 1, nudge := Some(now + SECOND))
  }

  // ----- runs -----

  datatype Event =
    | Starts(at: int)
    | Stops(at: int)
    | Resizes(at: int)
    | Acks(epoch: nat, at: int)
    | FrameTimer(at: int)
    | WatchdogTimer(at: int)
    | NudgeTimer(at: int)

  /** Time never runs back, a driver is started once, only a frame still un-acked
      is acknowledged and no timer fires early. */
  predicate Enabled(d: Driver, e: Event) {
    && d.clock <= e.at
    && match e
       case Starts(_) => !d.started
       case Acks(epoch, _) => epoch in d.unacked
       case FrameTimer(at) => d.nextFrame.Some? && d.nextFrame.value <= at
       case WatchdogTimer(at) => d.watchdog.Some? && d.watchdog.value <= at
       case NudgeTimer(at) => d.nudge.Some? && d.nudge.value <= at
       case _ => true
  }

  function Handle(d: Driver, e: Event): Driver {
    match e
    case Starts(at) => Start(d, at)
    case Stops(_) => Stop(d)
    case Resizes(at) => Reconfigured(d, at)
    case Acks(epoch, at) => OnAck(d.(unacked := d.unacked - multiset{epoch}), epoch, at)
    case FrameTimer(at) => OnNextFrame(d, at)
    case WatchdogTimer(at) => OnWatchdog(d, at)
    case NudgeTimer(at) => OnNudge(d, at)
  }

  function Step(d: Driver, e: Event): Driver {
    Handle(d.(clock := e.at), e)
  }

  datatype History = Boot(requested: int, clock: int) | Then(past: History, event: Event)

  function Run(h: History): Driver {
    match h
    case Boot(requested, clock) => New(requested, clock)
    case Then(past, e) => Step(Run(past), e)
  }

  predicate Legal(h: History) {
    h.Then? ==> Legal(h.past) && Enabled(Run(h.past), h.event)
  }

  // ----- the ack chain -----

  predicate Outstanding(d: Driver) {
    d.epoch in d.unacked
  }

  /** Either one frame of the current epoch is un-acked and the next-frame timer
      is idle, or none is and the timer is armed for no earlier than one
      interval after the last issue. */
  predicate Chained(d: Driver) {
    && d.unacked[d.epoch] <= 1
    && (Outstanding(d) <==> d.nextFrame.None?)
    && (d.nextFrame.Some? ==> d.lastIssue + d.interval <= d.nextFrame.value)
    && |d.issues| == d.acks + d.epoch + d.unacked[d.epoch]
  }

  /** The watchdog runs over an outstanding frame only, and its n-th fire comes
      at least n timeouts after the issue. */
  predicate Watched(d: Driver) {
    && (Outstanding(d) && !d.awaiting ==> d.watchdog.Some?)
    && (d.watchdog.Some? ==> Outstanding(d) && d.lastIssue + (d.fires + 1) * STALL_TIMEOUT <= d.watchdog.value)
    && (!Outstanding(d) ==> d.fires == 0)
  }

  /** Before the first ack the boot frame is the only one. */
  predicate BootWindow(d: Driver) {
    d.started && !d.firstAck ==> |d.issues| == 1 && d.epoch == 0 && d.acks == 0
  }

  ghost predicate NoFutureEpoch(d: Driver) {
    forall n :: n in d.unacked ==> n <= d.epoch
  }

  predicate Latest(d: Driver) {
    |d.issues| > 0 && d.issues[|d.issues| - 1].at == d.lastIssue && d.issues[|d.issues| - 1].epoch == d.epoch && d.lastIssue <= d.clock
  }

  /** Consecutive issues are at least one interval apart; a watchdog re-issue
      opens a new epoch at least 15 s after the issue it abandons, and every
      other issue stays in its epoch. */
  ghost predicate Paced(issues: seq<Issue>, interval: int) {
    forall i :: 0 < i < |issues| ==>
      && issues[i - 1].at + interval <= issues[i].at
      && (if issues[i].cause == ByWatchdog
          then issues[i].epoch == issues[i - 1].epoch + 1
               && issues[i - 1].at + FIRES_BEFORE_REISSUE * STALL_TIMEOUT <= issues[i].at
          else issues[i].epoch == issues[i - 1].epoch)
  }

  ghost predicate Inv(d: Driver) {
    && FASTEST_INTERVAL <= d.interval <= SLOWEST_INTERVAL
    && Paced(d.issues, d.interval)
    && (!d.started ==> !d.running && d.issues == [] && d.unacked == multiset{} && d.epoch == 0 && d.fires == 0
                       && d.acks == 0 && !d.firstAck && !d.awaiting && d.nextFrame.None? && d.watchdog.None?)
    && NoFutureEpoch(d) && BootWindow(d)
    && (d.running ==> d.started && Chained(d) && Watched(d) && Latest(d))
    && (!d.running ==> d.nextFrame.None? && d.watchdog.None?)
  }

  /** Issuing with nothing outstanding in the current epoch. */
  lemma IssueKeeps(d: Driver, now: int, cause: Cause)
    requires d.running && d.started && !Outstanding(d) && d.nextFrame.None? && d.fires == 0 && NoFutureEpoch(d)
    requires FASTEST_INTERVAL <= d.interval <= SLOWEST_INTERVAL && Paced(d.issues, d.interval)
    requires |d.issues| == d.acks + d.epoch && now <= d.clock
    requires !d.firstAck ==> |d.issues| == 0 && d.epoch == 0 && d.acks == 0
    requires |d.issues| > 0 ==>
               var last := d.issues[|d.issues| - 1];
               && last.at + d.interval <= now
               && (if cause == ByWatchdog
                   then d.epoch == last.epoch + 1 && last.at + FIRES_BEFORE_REISSUE * STALL_TIMEOUT <= now
                   else d.epoch == last.epoch)
    ensures Inv(IssueOne(d, now, cause))
  {
  }

  lemma AckKeeps(d: Driver, epoch: nat, now: int)
    requires Inv(d) && epoch in d.unacked && now == d.clock
    ensures Inv(OnAck(d.(unacked := d.unacked - multiset{epoch}), epoch, now))
  {
    var d0 := d.(unacked := d.unacked - multiset{epoch});
    if d.running && epoch == d.epoch {
      if d.interval - (now - d.lastIssue) <= 0 {
        IssueKeeps(AcceptAck(d0), now, AfterAck);
      }
    }
  }

  lemma WatchdogKeeps(d: Driver, now: int)
    requires Inv(d) && d.watchdog.Some? && d.watchdog.value <= now && now == d.clock
    ensures Inv(OnWatchdog(d, now))
  {
    if d.running && !(d.awaiting || !d.firstAck || d.fires + 1 < FIRES_BEFORE_REISSUE) {
      IssueKeeps(d.(watchdog := None, epoch := d.epoch + 1, nextFrame := None, fires := 0), now, ByWatchdog);
    }
  }

  lemma StepKeeps(d: Driver, e: Event)
    requires Inv(d) && Enabled(d, e)
    ensures Inv(Step(d, e))
  {
    var d0 := d.(clock := e.at);
    match e
    case Starts(at) => IssueKeeps(d0.(running := true, started := true), at, AtStart);
    case Stops(_) =>
    case Resizes(at) =>
    case Acks(epoch, at) => AckKeeps(d0, epoch, at);
    case FrameTimer(at) => IssueKeeps(d0.(nextFrame := None), at, ByTimer);
    case WatchdogTimer(at) => WatchdogKeeps(d0, at);
    case NudgeTimer(at) =>
  }

  /** What every legal run of the driver keeps. */
  lemma {:induction false} RunKeeps(h: History)
    requires Legal(h)
    ensures Inv(Run(h))
  {
    if h.Then? {
      RunKeeps(h.past);
      StepKeeps(Run(h.past), h.event);
    }
  }

  // ----- what the runs promise -----

  /** In every legal run at most one BeginFrame of the current epoch is un-acked:
      either one is and the next-frame timer is idle, or none is and the timer
      is armed.  Every issue is accounted for by an accepted ack, an epoch bump
      or the frame outstanding. */
  lemma AckChain(h: History)
    requires Legal(h)
    ensures var d := Run(h);
            d.running ==>
              && ((d.unacked[d.epoch] == 1 && d.nextFrame.None?) || (d.unacked[d.epoch] == 0 && d.nextFrame.Some?))
              && |d.issues| == d.acks + d.epoch + d.unacked[d.epoch]
              && (forall n :: n in d.unacked ==> n <= d.epoch)
  {
    RunKeeps(h);
  }

  /** A late ack for an abandoned frame changes nothing but the compositor's own
      account of it. */
  lemma StaleAckIsIgnored(h: History, epoch: nat, at: int)
    requires Legal(Then(h, Acks(epoch, at))) && epoch != Run(h).epoch
    ensures Run(Then(h, Acks(epoch, at))) == Run(h).(clock := at, unacked := Run(h).unacked - multiset{epoch})
  {
  }

  /** Before the first ack exactly one BeginFrame has been issued, however often
      the watchdog fired. */
  lemma OneIssueBeforeFirstAck(h: History)
    requires Legal(h) && Run(h).started && !Run(h).firstAck
    ensures |Run(h).issues| == 1 && Run(h).issues[0].cause == AtStart
  {
    RunKeeps(h);
    FirstIssueIsStart(h);
  }

  lemma {:induction false} FirstIssueIsStart(h: History)
    requires Legal(h)
    ensures |Run(h).issues| > 0 ==> Run(h).issues[0].cause == AtStart
  {
    if h.Then? {
      FirstIssueIsStart(h.past);
      RunKeeps(h.past);
    }
  }

  /** While a reconfigure ack is awaited the epoch stands still and nothing is
      issued on top of an outstanding frame: only the awaited ack, or stopping,
      ends the wait. */
  lemma NoReissueWhileAwaiting(h: History, e: Event)
    requires Legal(Then(h, e)) && Run(h).awaiting
    ensures var d, d' := Run(h), Run(Then(h, e));
            && d'.epoch == d.epoch
            && (Outstanding(d) && !(e.Acks? && e.epoch == d.epoch) ==> d'.issues == d.issues)
            && (!d'.awaiting ==> e.Stops? || (e.Acks? && e.epoch == d.epoch))
  {
    RunKeeps(h);
  }

  /** Nothing but the watchdog, and not before 15 s, issues over a frame still
      un-acked in its epoch. */
  lemma ReissueComesLate(h: History, i: nat)
    requires Legal(h) && 0 < i < |Run(h).issues| && Run(h).issues[i].cause == ByWatchdog
    ensures Run(h).issues[i].at - Run(h).issues[i - 1].at >= 15 * SECOND
    ensures Run(h).issues[i].epoch == Run(h).issues[i - 1].epoch + 1
  {
    RunKeeps(h);
  }

  lemma {:induction false} PacedSpan(issues: seq<Issue>, interval: int, i: nat, j: nat)
    requires Paced(issues, interval) && i <= j < |issues|
    ensures issues[i].at + (j - i) * interval <= issues[j].at
  {
    if i < j {
      PacedSpan(issues, interval, i, j - 1);
      assert (j - i) * interval == (j - 1 - i) * interval + interval;
    }
  }

  /** The k-th issue after any given one comes at least k intervals later. */
  lemma RateIsBounded(h: History, i: nat, j: nat)
    requires Legal(h) && i <= j < |Run(h).issues|
    ensures Run(h).issues[j].at - Run(h).issues[i].at >= (j - i) * Run(h).interval
  {
    RunKeeps(h);
    PacedSpan(Run(h).issues, Run(h).interval, i, j);
  }

  // ----- issues in a second -----

  function Base(h: History): (b: History)
    ensures b.Boot?
  {
    if h.Then? then Base(h.past) else h
  }

  lemma {:induction false} SameInterval(h: History)
    ensures Run(h).interval == ClampInterval(Base(h).requested)
  {
    if h.Then? {
      SameInterval(h.past);
      StepInterval(Run(h.past), h.event);
    }
  }

  lemma StepInterval(d: Driver, e: Event)
    ensures Step(d, e).interval == d.interval
  {
  }

  /** Issues i to j of a run all fall within one second. */
  predicate InOneSecond(h: History, i: nat, j: nat) {
    i <= j < |Run(h).issues| && Run(h).issues[j].at - Run(h).issues[i].at <= SECOND
  }

  /** No legal run of a driver asked for this interval issues more than 60 frames
      within a second. */
  ghost predicate AtMostSixty(requested: int) {
    forall h, i: nat, j: nat :: Legal(h) && Base(h).requested == requested && InOneSecond(h, i, j) ==> j - i + 1 <= 60
  }

  lemma SlowEnough(h: History, i: nat, j: nat)
    requires Legal(h) && InOneSecond(h, i, j) && 60 * ClampInterval(Base(h).requested) > SECOND
    ensures j - i + 1 <= 60
  {
    RunKeeps(h);
    SameInterval(h);
    PacedFew(Run(h).issues, Run(h).interval, i, j);
  }

  lemma PacedFew(issues: seq<Issue>, interval: int, i: nat, j: nat)
    requires Paced(issues, interval) && i <= j < |issues| && issues[j].at - issues[i].at <= SECOND < 60 * interval
    ensures j - i < 60
  {
    PacedSpan(issues, interval, i, j);
    FewFit(j - i, interval, issues[j].at - issues[i].at);
  }

  lemma FewFit(k: nat, interval: int, span: int)
    requires k * interval <= span <= SECOND < 60 * interval
    ensures k < 60
  {
    assert k >= 60 ==> k * interval >= 60 * interval;
  }

  /** n intervals. */
  function Beats(interval: int, n: nat): int {
    if n == 0 then 0 else Beats(interval, n - 1) + interval
  }

  lemma {:induction false} BeatsAre(interval: int, n: nat)
    ensures Beats(interval, n) == n * interval
  {
    if n > 0 {
      BeatsAre(interval, n - 1);
    }
  }

  ghost predicate Ticking(d: Driver, interval: int, n: nat) {
    && d.interval == interval && d.running && d.started && d.epoch == 0 && d.unacked == multiset{0}
    && d.lastIssue == d.clock == Beats(interval, n) && |d.issues| == n + 1
    && d.issues[0].at == 0 && d.issues[n].at == Beats(interval, n)
  }

  lemma Beat(d: Driver, interval: int, n: nat)
    requires Ticking(d, interval, n) && interval > 0
    ensures Enabled(d, Acks(0, Beats(interval, n)))
    ensures var d1 := Step(d, Acks(0, Beats(interval, n)));
            && Enabled(d1, FrameTimer(Beats(interval, n + 1)))
            && Ticking(Step(d1, FrameTimer(Beats(interval, n + 1))), interval, n + 1)
  {
    var d1 := Step(d, Acks(0, Beats(interval, n)));
    assert d1.nextFrame == Some(Beats(interval, n) + interval);
  }

  /** A legal run whose compositor acks every frame at once: n + 1 issues, one
      per interval. */
  ghost predicate Metronome(h: History, requested: int, n: nat) {
    Legal(h) && Base(h).requested == requested && Ticking(Run(h), ClampInterval(requested), n)
  }

  lemma {:induction false} MetronomeRuns(requested: int, n: nat) returns (h: History)
    ensures Metronome(h, requested, n)
  {
    if n == 0 {
      h := Then(Boot(requested, 0), Starts(0));
      MetronomeStarts(requested);
    } else {
      h := MetronomeRuns(requested, n - 1);
      MetronomeBeats(h, requested, n - 1);
      var d := ClampInterval(requested);
      h := Then(Then(h, Acks(0, Beats(d, n - 1))), FrameTimer(Beats(d, n)));
    }
  }

  lemma MetronomeStarts(requested: int)
    ensures Metronome(Then(Boot(requested, 0), Starts(0)), requested, 0)
  {
    var b := Boot(requested, 0);
    assert Run(b) == New(requested, 0) && Legal(b) && Base(b) == b;
  }

  lemma MetronomeBeats(h: History, requested: int, n: nat)
    requires Metronome(h, requested, n)
    ensures var d := ClampInterval(requested);
            Metronome(Then(Then(h, Acks(0, Beats(d, n))), FrameTimer(Beats(d, n + 1))), requested, n + 1)
  {
    var d := ClampInterval(requested);
    Beat(Run(h), d, n);
    var h1 := Then(h, Acks(0, Beats(d, n)));
    assert Run(h1) == Step(Run(h), Acks(0, Beats(d, n)));
  }

  /** At the fastest rate a legal run issues 61 frames within a second. */
  lemma SixtyOneInASecond(requested: int) returns (h: History)
    requires requested <= FASTEST_INTERVAL
    ensures Legal(h) && Base(h).requested == requested && |Run(h).issues| == 61 && InOneSecond(h, 0, 60)
  {
    h := MetronomeRuns(requested, 60);
    BeatsAre(ClampInterval(requested), 60);
  }

  /** At most 60 issues in any second, if and only if 60 intervals take longer than
      a second: for every interval but the fastest, whose whole microseconds add
      up to 999960. */
  lemma SixtyASecondExactly(requested: int)
    ensures AtMostSixty(requested) <==> requested > FASTEST_INTERVAL
  {
    assert FASTEST_INTERVAL == 16_666;
    if requested > FASTEST_INTERVAL {
      forall h, i: nat, j: nat | Legal(h) && Base(h).requested == requested && InOneSecond(h, i, j)
        ensures j - i + 1 <= 60
      {
        SlowEnough(h, i, j);
      }
    } else {
      var h := SixtyOneInASecond(requested);
    }
  }
}

/** Permanent-death detection in the diagnostic tick. */
module RendererDeath {
  import opened Options

  const ZERO_TICKS_BEFORE_DEATH := 6

  /** One diagnostic tick: the capturer's running total, if a capturer is wired,
      and whether the death callback is. */
  datatype Tick = Tick(received: Option<nat>, wired: bool)

  datatype Detector = Detector(lastReceived: nat, zeros: nat, signaled: bool, deaths: nat)

  const FRESH_DETECTOR := Detector(0, 0, false, 0)

  function Delta(last: nat, received: nat): nat {
    if received >= last then received - last else 0
  }

  /** EmitDiagnostic as far as the detector goes; `deaths` counts the runs of the
      callback. */
  function OnTick(d: Detector, t: Tick): Detector {
    var delta := if t.received.Some? then Delta(d.lastReceived, t.received.value) else 0;
    var last := if t.received.Some? then t.received.value else d.lastReceived;
    if t.received.Some? && t.wired
    then
      var zeros := if delta == 0 then d.zeros + 1 else 0;
      var fire := zeros >= ZERO_TICKS_BEFORE_DEATH && !d.signaled;
      Detector(last, zeros, d.signaled || fire, if fire then d.deaths + 1 else d.deaths)
    else Detector(last, 0, d.signaled, d.deaths)
  }

  function After(ts: seq<Tick>): Detector {
    if ts == [] then FRESH_DETECTOR else OnTick(After(ts[..|ts| - 1]), ts[|ts| - 1])
  }

  // ----- the same, read off the ticks -----

  /** The last total a capturer reported. */
  function Reported(ts: seq<Tick>): nat {
    if ts == [] then 0
    else if ts[|ts| - 1].received.Some? then ts[|ts| - 1].received.value
    else Reported(ts[..|ts| - 1])
  }

  /** Tick i was armed and saw no new frame. */
  predicate Barren(ts: seq<Tick>, i: nat)
    requires i < |ts|
  {
    ts[i].received.Some? && ts[i].wired && ts[i].received.value <= Reported(ts[..i])
  }

  /** The last n ticks were all barren. */
  ghost predicate BarrenTail(ts: seq<Tick>, n: nat) {
    n <= |ts| && forall i :: |ts| - n <= i < |ts| ==> Barren(ts, i)
  }

  /** The callback has a reason to run at tick i. */
  ghost predicate Dead(ts: seq<Tick>, i: nat) {
    i < |ts| && BarrenTail(ts[..i + 1], 6)
  }

  lemma BarrenPrefix(ts: seq<Tick>, m: nat, i: nat)
    requires i < m <= |ts|
    ensures Barren(ts[..m], i) == Barren(ts, i)
  {
    assert ts[..m][..i] == ts[..i];
  }

  /** The counter is the length of the longest barren suffix. */
  lemma {:induction false} CounterIsBarrenTail(ts: seq<Tick>)
    ensures After(ts).lastReceived == Reported(ts)
    ensures After(ts).zeros <= |ts| && BarrenTail(ts, After(ts).zeros)
    ensures forall n: nat :: BarrenTail(ts, n) ==> n <= After(ts).zeros
  {
    if ts != [] {
      var last := |ts| - 1;
      var init := ts[..last];
      CounterIsBarrenTail(init);
      forall i: nat | i < last ensures Barren(init, i) == Barren(ts, i) {
        BarrenPrefix(ts, last, i);
      }
      assert Barren(ts, last) <==> After(ts).zeros == After(init).zeros + 1;
      forall n: nat | BarrenTail(ts, n)
        ensures n <= After(ts).zeros
      {
        if n > 0 {
          assert Barren(ts, last);
          assert BarrenTail(init, n - 1);
        }
      }
    }
  }

  /** The callback has run once if six barren ticks in a row ever ended at a tick
      seen so far, and not at all otherwise. */
  lemma {:induction false} DiesOnceOrNever(ts: seq<Tick>)
    ensures After(ts).deaths <= 1 && (After(ts).signaled <==> After(ts).deaths == 1)
    ensures After(ts).deaths == 1 <==> exists i: nat :: Dead(ts, i)
  {
    if ts != [] {
      var last := |ts| - 1;
      var init := ts[..last];
      DiesOnceOrNever(init);
      CounterIsBarrenTail(ts);
      forall i: nat | i < last ensures Dead(init, i) == Dead(ts, i) {
        assert init[..i + 1] == ts[..i + 1];
      }
      assert ts[..last + 1] == ts;
      assert Dead(ts, last) <==> After(ts).zeros >= ZERO_TICKS_BEFORE_DEATH by {
        if After(ts).zeros >= ZERO_TICKS_BEFORE_DEATH {
          assert BarrenTail(ts, ZERO_TICKS_BEFORE_DEATH);
        }
      }
      assert Dead(ts, last) ==> exists i: nat :: Dead(ts, i);
      forall i: nat | Dead(init, i) ensures Dead(ts, i) {
        assert i < last;
      }
    }
  }

  /** It runs at the first tick that ends six barren ticks in a row. */
  lemma DeathIsFirstBarrenRun(ts: seq<Tick>, i: nat)
    requires i < |ts|
    ensures After(ts[..i + 1]).deaths > After(ts[..i]).deaths
       <==> Dead(ts, i) && (forall j: nat :: j < i ==> !Dead(ts, j))
  {
    var before, upto := ts[..i], ts[..i + 1];
    DiesOnceOrNever(upto);
    DiesOnceOrNever(before);
    forall j: nat | j < i ensures Dead(before, j) == Dead(ts, j) {
      assert before[..j + 1] == ts[..j + 1];
    }
    forall j: nat | j <= i ensures Dead(upto, j) == Dead(ts, j) {
      assert upto[..j + 1] == ts[..j + 1];
    }
    assert forall j: nat :: Dead(before, j) <==> j < i && Dead(ts, j);
    assert forall j: nat :: Dead(upto, j) <==> j <= i && Dead(ts, j);
  }
}
