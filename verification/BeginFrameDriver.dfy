/** The driver in the source's own form: fields updated in place by the entry
    points of the UI sequence, each proved to be its step in BeginFrame or
    RendererDeath. */
module BeginFrameDriver {
  import opened Options
  import opened BeginFrame
  import BeginFrameHistory
  import RendererDeath

  /** What the compositor and the clock have seen, and the run that led here. */
  datatype Seen = Seen(started: bool, issues: seq<Issue>, unacked: multiset<nat>, acks: nat, clock: int, trace: History)

  class CbBeginFrameDriver {
    const interval: int
    var running: bool
    var nextSequenceNumber: nat
    var issueEpoch: nat
    var firstAckReceived: bool
    var watchdogFires: nat
    var lastIssueTime: int
    var nextFrameTimer: Option<int>
    var stallWatchdogTimer: Option<int>
    var awaitingReconfigureAck: bool
    var reconfigureNudges: nat
    var reconfigureNudgeTimer: Option<int>

    ghost var seen: Seen

    constructor (requested: int, ghost now: int)
      ensures Valid() && View() == New(requested, now)
    {
      interval := ClampInterval(requested);
      running, nextSequenceNumber, issueEpoch, firstAckReceived := false, 1, 0, false;
      watchdogFires, lastIssueTime, nextFrameTimer, stallWatchdogTimer := 0, 0, None, None;
      awaitingReconfigureAck, reconfigureNudges, reconfigureNudgeTimer := false, 0, None;
      seen := Seen(false, [], multiset{}, 0, now, Boot(requested, now));
    }

    /** The object is at the end of a legal run of the machine in BeginFrame. */
    ghost predicate Valid()
      reads this
    {
      Legal(seen.trace) && View() == Run(seen.trace)
    }

    ghost function View(): Driver
      reads this
    {
      Driver(interval, running, seen.started, nextSequenceNumber, issueEpoch, firstAckReceived, watchdogFires, lastIssueTime,
             nextFrameTimer, stallWatchdogTimer, awaitingReconfigureAck, reconfigureNudges, reconfigureNudgeTimer,
             seen.issues, seen.unacked, seen.acks, seen.clock)
    }

    method IssueOneBeginFrame(now: int, ghost cause: Cause)
      modifies this
      ensures View() == IssueOne(old(View()), now, cause) && seen.trace == old(seen.trace)
    {
      if !running {
        return;
      }
      lastIssueTime := now;
      seen := seen.(issues := seen.issues + [Issue(nextSequenceNumber, issueEpoch, now, cause)],
                    unacked := seen.unacked + multiset{issueEpoch});
      nextSequenceNumber := nextSequenceNumber + 1;
      stallWatchdogTimer := Some(now + STALL_TIMEOUT);
    }

    method Start(now: int)
      modifies this
      ensures View() == Step(old(View()), Starts(now)) && seen.trace == Then(old(seen.trace), Starts(now))
      ensures old(Valid()) && Enabled(old(View()), Starts(now)) ==> Valid()
    {
      seen := seen.(clock := now, trace := Then(seen.trace, Starts(now)));
      if running {
        return;
      }
      running := true;
      seen := seen.(started := true);
      IssueOneBeginFrame(now, AtStart);
    }

    method Stop(ghost now: int)
      modifies this
      ensures View() == Step(old(View()), Stops(now)) && seen.trace == Then(old(seen.trace), Stops(now))
      ensures old(Valid()) && Enabled(old(View()), Stops(now)) ==> Valid()
    {
      seen := seen.(clock := now, trace := Then(seen.trace, Stops(now)));
      if !running {
        return;
      }
      running := false;
      nextFrameTimer, stallWatchdogTimer := None, None;
      awaitingReconfigureAck, reconfigureNudgeTimer := false, None;
    }

    method NotifyDisplayReconfigured(now: int)
      modifies this
      ensures View() == Step(old(View()), Resizes(now)) && seen.trace == Then(old(seen.trace), Resizes(now))
      ensures old(Valid()) && Enabled(old(View()), Resizes(now)) ==> Valid()
    {
      seen := seen.(clock := now, trace := Then(seen.trace, Resizes(now)));
      if !running || awaitingReconfigureAck {
        return;
      }
      awaitingReconfigureAck, reconfigureNudges := true, 0;
      stallWatchdogTimer, watchdogFires := None, 0;
      reconfigureNudgeTimer := Some(now + SECOND);
    }

    /** The compositor has run, and so dropped, one callback of this epoch. */
    method OnBeginFrameAck(epoch: nat, now: int)
      modifies this
      ensures View() == Step(old(View()), Acks(epoch, now)) && seen.trace == Then(old(seen.trace), Acks(epoch, now))
      ensures old(Valid()) && Enabled(old(View()), Acks(epoch, now)) ==> Valid()
    {
      seen := seen.(clock := now, trace := Then(seen.trace, Acks(epoch, now)), unacked := seen.unacked - multiset{epoch});
      if !running {
        return;
      }
      if epoch != issueEpoch {
        return;
      }
      Accept();
      HoldCadence(now);
    }

    method Accept()
      modifies this
      ensures View() == AcceptAck(old(View())) && seen.trace == old(seen.trace)
    {
      firstAckReceived := true;
      if awaitingReconfigureAck {
        awaitingReconfigureAck, reconfigureNudgeTimer := false, None;
      }
      watchdogFires := 0;
      seen := seen.(acks := seen.acks + 1);
      stallWatchdogTimer := None;
    }

    method HoldCadence(now: int)
      modifies this
      ensures View() == ReArm(old(View()), now) && seen.trace == old(seen.trace)
    {
      var elapsed := now - lastIssueTime;
      var residual := interval - elapsed;
      if residual > 0 {
        nextFrameTimer := Some(now + residual);
      } else {
        IssueOneBeginFrame(now, AfterAck);
      }
    }

    method OnNextFrameTimer(now: int)
      modifies this
      ensures View() == Step(old(View()), FrameTimer(now)) && seen.trace == Then(old(seen.trace), FrameTimer(now))
      ensures old(Valid()) && Enabled(old(View()), FrameTimer(now)) ==> Valid()
    {
      seen := seen.(clock := now, trace := Then(seen.trace, FrameTimer(now)));
      nextFrameTimer := None;
      IssueOneBeginFrame(now, ByTimer);
    }

    method OnReconfigureNudge(now: int)
      modifies this
      ensures View() == Step(old(View()), NudgeTimer(now)) && seen.trace == Then(old(seen.trace), NudgeTimer(now))
      ensures old(Valid()) && Enabled(old(View()), NudgeTimer(now)) ==> Valid()
    {
      seen := seen.(clock := now, trace := Then(seen.trace, NudgeTimer(now)));
      if !running || !awaitingReconfigureAck {
        reconfigureNudgeTimer := None;
        return;
      }
      reconfigureNudges := reconfigureNudges + 1;
      reconfigureNudgeTimer := Some(now + SECOND);
    }

    method OnStallWatchdog(now: int)
      modifies this
      ensures View() == Step(old(View()), WatchdogTimer(now)) && seen.trace == Then(old(seen.trace), WatchdogTimer(now))
      ensures old(Valid()) && Enabled(old(View()), WatchdogTimer(now)) ==> Valid()
    {
      seen := seen.(clock := now, trace := Then(seen.trace, WatchdogTimer(now)));
      stallWatchdogTimer := None;
      if !running {
        return;
      }
      var preFirstAck := !firstAckReceived;
      var withinWaitWindow := watchdogFires + 1 < FIRES_BEFORE_REISSUE;
      if awaitingReconfigureAck || preFirstAck || withinWaitWindow {
        watchdogFires := watchdogFires + 1;
        stallWatchdogTimer := Some(now + STALL_TIMEOUT);
        return;
      }
      Abandon(now);
    }

    method Abandon(now: int)
      modifies this
      ensures View() == Reissue(old(View()), now) && seen.trace == old(seen.trace)
    {
      issueEpoch := issueEpoch + 1;
      nextFrameTimer := None;
      watchdogFires := 0;
      IssueOneBeginFrame(now, ByWatchdog);
    }
  }

  /** The driver's diagnostic fields; they never touch the ones above. */
  class DeathDetector {
    var deathWired: bool
    var lastReportedFrames: nat
    var zeroProductionTicks: nat
    var deathSignaled: bool
    /** How often the death callback ran. */
    ghost var deaths: nat
    ghost var ticks: seq<RendererDeath.Tick>

    constructor ()
      ensures Valid() && ticks == [] && !deathWired
    {
      deathWired, lastReportedFrames, zeroProductionTicks, deathSignaled, deaths, ticks := false, 0, 0, false, 0, [];
    }

    ghost predicate Valid()
      reads this
    {
      Detection() == RendererDeath.After(ticks)
    }

    ghost function Detection(): RendererDeath.Detector
      reads this
    {
      RendererDeath.Detector(lastReportedFrames, zeroProductionTicks, deathSignaled, deaths)
    }

    method SetPermanentDeathCallback(wired: bool)
      modifies this`deathWired
      ensures deathWired == wired
    {
      deathWired := wired;
    }

    /** The detector's part of the diagnostic tick; `died` tells that the death
        callback ran. */
    method EmitDiagnostic(received: Option<nat>) returns (died: bool)
      modifies this
      ensures deathWired == old(deathWired)
      ensures Detection() == RendererDeath.OnTick(old(Detection()), RendererDeath.Tick(received, deathWired))
      ensures died <==> deaths == old(deaths) + 1
      ensures ticks == old(ticks) + [RendererDeath.Tick(received, deathWired)] && (old(Valid()) ==> Valid())
    {
      assert (ticks + [RendererDeath.Tick(received, deathWired)])[..|ticks|] == ticks;
      ticks := ticks + [RendererDeath.Tick(received, deathWired)];
      died := false;
      var capturedDelta := 0;
      if received.Some? {
        capturedDelta := if received.value >= lastReportedFrames then received.value - lastReportedFrames else 0;
        lastReportedFrames := received.value;
      }
      if received.Some? && deathWired {
        if capturedDelta == 0 {
          zeroProductionTicks := zeroProductionTicks + 1;
        } else {
          zeroProductionTicks := 0;
        }
        if zeroProductionTicks >= RendererDeath.ZERO_TICKS_BEFORE_DEATH && !deathSignaled {
          deathSignaled := true;
          deaths := deaths + 1;
          died := true;
        }
      } else {
        zeroProductionTicks := 0;
      }
    }
  }

  /** What the runs keep, every valid driver object has. */
  lemma ObjectKeepsChain(d: CbBeginFrameDriver)
    requires d.Valid()
    ensures Inv(d.View()) && BeginFrameHistory.Agrees(d.View(), BeginFrameHistory.ReadingsOf(d.seen.trace))
    ensures d.running ==> d.seen.unacked[d.issueEpoch] + (if d.nextFrameTimer.Some? then 1 else 0) == 1
  {
    RunKeeps(d.seen.trace);
    BeginFrameHistory.DriverIsHistory(d.seen.trace);
  }

  /** And a detector object calls back once at most: when six barren ticks in a
      row have ended. */
  lemma ObjectDiesOnce(d: DeathDetector)
    requires d.Valid()
    ensures d.deaths <= 1 && (d.deaths == 1 <==> exists i: nat :: RendererDeath.Dead(d.ticks, i))
  {
    RendererDeath.DiesOnceOrNever(d.ticks);
  }
}
