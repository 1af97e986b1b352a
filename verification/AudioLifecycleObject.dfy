/** The audio lifecycle as the object the embedder holds. */
module AudioLifecycleObject {
  import opened Options
  import opened AudioLifecycle
  import AudioHistory

  class CbAudioLifecycle {
    const observer: bool
    const downstream: bool
    var phase: Phase
    var source: Option<Handle>
    var track: Option<Handle>
    var transceiver: Option<Handle>
    var activatedEmitted: bool
    ghost var log: seq<Note>
    ghost var history: History

    /** The object is at the end of a run of the machine in AudioLifecycle. */
    ghost predicate Valid()
      reads this
    {
      View() == Run(history)
    }

    ghost function View(): State
      reads this
    {
      State(observer, downstream, phase, source, track, transceiver, activatedEmitted, log)
    }

    constructor (observer: bool, downstream: bool)
      ensures Valid() && View() == Start(observer, downstream)
    {
      history := Boot(observer, downstream);
      this.observer, this.downstream := observer, downstream;
      phase, source, track, transceiver, activatedEmitted, log := Idle, None, None, None, false, [];
    }

    method AdoptBindings(newSource: Option<Handle>, newTrack: Option<Handle>, newTransceiver: Option<Handle>)
      modifies this
      ensures View() == AudioLifecycle.AdoptBindings(old(View()), newSource, newTrack, newTransceiver)
      ensures history == Then(old(history), Adopt(newSource, newTrack, newTransceiver)) && (old(Valid()) ==> Valid())
    {
      history := Then(history, Adopt(newSource, newTrack, newTransceiver));
      if phase == Stopped {
        return;
      }
      if phase != Idle {
        return;
      }
      if newSource.None? || newTrack.None? || newTransceiver.None? {
        return;
      }
      source, track, transceiver := newSource, newTrack, newTransceiver;
      phase := Armed;
    }

    method PrepareForTeardown(reason: string)
      modifies this
      ensures View() == AudioLifecycle.PrepareForTeardown(old(View()), reason)
      ensures history == Then(old(history), AudioLifecycle.Teardown(reason)) && (old(Valid()) ==> Valid())
    {
      history := Then(history, AudioLifecycle.Teardown(reason));
      match phase {
        case Stopped =>
        case Idle =>
          phase := Stopped;
          Notify(StoppedNotice(true, reason));
        case _ => StopInternal(true, reason);
      }
    }

    method Rearm() returns (ok: bool)
      modifies this
      ensures View() == AudioLifecycle.Rearm(old(View()))
      ensures ok <==> old(phase) == Stopped
      ensures history == Then(old(history), TryRearm) && (old(Valid()) ==> Valid())
    {
      history := Then(history, TryRearm);
      if phase != Stopped {
        return false;
      }
      phase := Idle;
      activatedEmitted := false;
      log := log + [Rearmed];
      return true;
    }

    method OnIceConnectionStateChanged(ice: IceState)
      modifies this
      ensures View() == OnDriver(old(View()), IceChanged(ice))
      ensures history == Then(old(history), FromDriver(IceChanged(ice))) && (old(Valid()) ==> Valid())
    {
      history := Then(history, FromDriver(IceChanged(ice)));
      if ice == Connected && phase == Armed {
        phase := Active;
        if !activatedEmitted {
          activatedEmitted := true;
          Notify(Activated);
        }
      }
      PassOn(IceChanged(ice));
    }

    /** Renegotiations and new viewers are only relayed. */
    method Relay(e: DriverEvent)
      requires e.RenegotiationStarted? || e.RenegotiationCompleted? || e.NewViewerNeedsOffer?
      modifies this
      ensures View() == OnDriver(old(View()), e)
      ensures history == Then(old(history), FromDriver(e)) && (old(Valid()) ==> Valid())
    {
      history := Then(history, FromDriver(e));
      PassOn(e);
    }

    method OnClosed(reason: string)
      modifies this
      ensures View() == OnDriver(old(View()), Closed(reason))
      ensures history == Then(old(history), FromDriver(Closed(reason))) && (old(Valid()) ==> Valid())
    {
      history := Then(history, FromDriver(Closed(reason)));
      EndSession(reason);
      PassOn(Closed(reason));
    }

    method OnFailed(reason: string)
      modifies this
      ensures View() == OnDriver(old(View()), Failed(reason))
      ensures history == Then(old(history), FromDriver(Failed(reason))) && (old(Valid()) ==> Valid())
    {
      history := Then(history, FromDriver(Failed(reason)));
      EndSession(reason);
      PassOn(Failed(reason));
    }

    method EndSession(reason: string)
      modifies this
      ensures View() == OnEnd(old(View()), reason) && history == old(history)
    {
      if phase != Stopped && phase != Idle {
        StopInternal(false, reason);
      } else if phase == Idle {
        phase := Stopped;
      }
    }

    method StopInternal(graceful: bool, reason: string)
      modifies this
      ensures View() == AudioLifecycle.StopInternal(old(View()), graceful, reason) && history == old(history)
    {
      if phase == Stopped {
        return;
      }
      if transceiver.Some? {
        log := log + [StopStandard(transceiver.value)];
      }
      if transceiver.Some? {
        log := log + [Dropped(Transceiver(transceiver.value))];
        transceiver := None;
      }
      if track.Some? {
        log := log + [Dropped(Track(track.value))];
        track := None;
      }
      if source.Some? {
        log := log + [Dropped(Source(source.value))];
        source := None;
      }
      phase := Stopped;
      Notify(StoppedNotice(graceful, reason));
    }

    /** The destructor's part. */
    method Teardown()
      modifies this
      ensures View() == Destroy(old(View()))
    {
      if phase != Stopped && phase != Idle {
        StopInternal(false, "lifecycle destroyed");
      }
    }

    method Notify(note: Note)
      modifies this`log
      ensures View() == Say(old(View()), note)
    {
      if observer {
        log := log + [note];
      }
    }

    method PassOn(e: DriverEvent)
      modifies this`log
      ensures View() == Forward(old(View()), e)
    {
      if downstream {
        log := log + [Passed(e)];
      }
    }
  }

  /** What the runs keep, every valid lifecycle object has. */
  lemma ObjectIsDisciplined(c: CbAudioLifecycle)
    requires c.Valid()
    ensures c.log == AudioHistory.LogOf(c.history) && c.phase == AudioHistory.PhaseOf(c.history)
    ensures Disciplined(c.log) && DroppedOf(c.log) + Held(c.View()) == Adopted(c.history)
    ensures PassedOf(c.log) == if Base(c.history).downstream then DriverEvents(c.history) else []
  {
    AudioHistory.LogIsHistory(c.history);
    NoticesAreDisciplined(c.history);
    ReleasedInOrder(c.history);
    PassedExactlyOnce(c.history);
  }
}
