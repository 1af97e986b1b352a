/** The control channel read off its events: which requests wait and for which
    callback, whose deadlines run, what each callback was run with and in which
    order, and the frames on the stack. */
module ControlChannelHistory {
  import opened Options
  import opened ControlChannel

  predicate Happens(past: History, e: Event) { Enabled(Run(past), e) }

  /** A request goes out: the channel is open and the request serialises. */
  predicate GoesOut(e: Event) { e.Send? && e.open && e.serialised }

  /** The SendRequest calls so far. */
  function Sent(h: History): nat {
    if h.Boot? then 0 else Sent(h.past) + if h.event.Send? && Happens(h.past, h.event) then 1 else 0
  }

  /** The ids used up: one for each call on an open channel. */
  function IdsUsed(h: History): nat {
    if h.Boot? then 0 else IdsUsed(h.past) + if h.event.Send? && h.event.open && Happens(h.past, h.event) then 1 else 0
  }

  /** The call that went out with this id. */
  function TicketOf(h: History, id: Id): (t: Option<Ticket>)
    ensures t.Some? ==> 0 < id <= IdsUsed(h)
  {
    if h.Boot? then None
    else if Happens(h.past, h.event) && GoesOut(h.event) && id == IdsUsed(h.past) + 1 then Some(Sent(h.past))
    else TicketOf(h.past, id)
  }

  /** A response, a failed send or a deadline for id. */
  predicate Settles(e: Event, id: Id) { (e.Answered? || e.SendFailed? || e.Expired?) && e.id == id }

  /** Sent, and neither settled nor cancelled since. */
  predicate Waiting(h: History, id: Id)
    ensures Waiting(h, id) ==> TicketOf(h, id).Some?
  {
    if h.Boot? then false
    else if !Happens(h.past, h.event) then Waiting(h.past, id)
    else if GoesOut(h.event) && id == IdsUsed(h.past) + 1 then true
    else !h.event.Cancel? && !Settles(h.event, id) && Waiting(h.past, id)
  }

  /** Sent, and its deadline neither expired nor stopped: by an answer while it
      waited, or when it was drained. */
  predicate Timed(h: History, id: Id)
    ensures Timed(h, id) ==> TicketOf(h, id).Some?
  {
    if h.Boot? then false
    else if !Happens(h.past, h.event) then Timed(h.past, id)
    else
      var e := h.event;
      if GoesOut(e) && id == IdsUsed(h.past) + 1 then true
      else if Settles(e, id) && (e.Expired? || Waiting(h.past, id)) then false
      else Timed(h.past, id) && !(e.Drain? && e.id == id)
  }

  /** The callback e runs, and with what: the default at once for a call that does
      not go out, the answer for a request that waits, the default for one whose
      send failed, whose deadline expired or that is drained. */
  function Ran(past: History, e: Event): Option<(Ticket, Answer)> {
    if !Happens(past, e) then None
    else if e.Send? then if e.open && e.serialised then None else Some((Sent(past), Default))
    else if (e.Answered? || e.SendFailed? || e.Expired?) && Waiting(past, e.id)
    then Some((TicketOf(past, e.id).value, if e.Answered? then e.answer else Default))
    else if e.Drain? && TicketOf(past, e.id).Some? then Some((TicketOf(past, e.id).value, Default))
    else None
  }

  function RunsOf(h: History): seq<(Ticket, Answer)> {
    if h.Boot? then []
    else
      var r := Ran(h.past, h.event);
      if r.Some? then RunsOf(h.past) + [r.value] else RunsOf(h.past)
  }

  function WaitingMap(h: History): map<Id, Ticket> {
    map id: Id | id <= IdsUsed(h) && Waiting(h, id) :: TicketOf(h, id).value
  }

  function TimedSet(h: History): set<Id> {
    set id: Id | id <= IdsUsed(h) && Timed(h, id)
  }

  /** A callback's frame for each callback running, and for each CancelAllPending
      in progress one that holds what waited when it was called and has not been
      drained. */
  function FramesOf(h: History): seq<Frame> {
    if h.Boot? then []
    else if !Happens(h.past, h.event) then FramesOf(h.past)
    else
      var e, frames, r := h.event, FramesOf(h.past), Ran(h.past, h.event);
      if e.Cancel? then if WaitingMap(h.past) == map[] then frames else frames + [Draining(WaitingMap(h.past))]
      else if e.Return? then if frames == [] then frames else frames[..|frames| - 1]
      else
        var left := if e.Drain? then Without(frames, e.id) else frames;
        if r.Some? then left + [Callback(r.value.0)] else left
  }

  /** The drain on top is done with id. */
  function Without(frames: seq<Frame>, id: Id): seq<Frame> {
    var top := |frames| - 1;
    if frames == [] || frames[top].Callback? then frames else frames[top := Draining(frames[top].rest - {id})]
  }

  // ----- the channel is its readings -----

  /** What is being drained was sent under its own id. */
  ghost predicate DrainsOwn(h: History, stack: seq<Frame>) {
    forall k, id :: 0 <= k < |stack| && stack[k].Draining? && id in stack[k].rest ==> TicketOf(h, id) == Some(stack[k].rest[id])
  }

  ghost predicate Agrees(h: History) {
    && Run(h) == State(IdsUsed(h), Sent(h), WaitingMap(h), TimedSet(h), RunsOf(h), FramesOf(h))
    && DrainsOwn(h, Run(h).stack)
  }

  lemma TicketIsKept(h: History, e: Event, id: Id)
    requires id <= IdsUsed(h)
    ensures TicketOf(Then(h, e), id) == TicketOf(h, id)
  {
  }

  lemma WaitingIn(h: History, id: Id)
    ensures id in WaitingMap(h) <==> Waiting(h, id)
    ensures id in TimedSet(h) <==> Timed(h, id)
  {
  }

  lemma NextWaitingAt(h: History, e: Event, id: Id)
    requires Agrees(h)
    ensures var pending := Run(Then(h, e)).pending;
            && (id in pending <==> Waiting(Then(h, e), id))
            && (id in pending ==> pending[id] == TicketOf(Then(h, e), id).value)
  {
    WaitingIn(h, id);
  }

  lemma NextWaiting(h: History, e: Event)
    requires Agrees(h)
    ensures Run(Then(h, e)).pending == WaitingMap(Then(h, e))
  {
    forall id: Id
      ensures id in Run(Then(h, e)).pending <==> id in WaitingMap(Then(h, e))
      ensures id in Run(Then(h, e)).pending ==> Run(Then(h, e)).pending[id] == WaitingMap(Then(h, e))[id]
    {
      NextWaitingAt(h, e, id);
      WaitingIn(Then(h, e), id);
    }
  }

  lemma NextTimedAt(h: History, e: Event, id: Id)
    requires Agrees(h)
    ensures id in Run(Then(h, e)).timers <==> Timed(Then(h, e), id)
  {
    WaitingIn(h, id);
  }

  lemma NextTimed(h: History, e: Event)
    requires Agrees(h)
    ensures Run(Then(h, e)).timers == TimedSet(Then(h, e))
  {
    forall id: Id
      ensures id in Run(Then(h, e)).timers <==> id in TimedSet(Then(h, e))
    {
      NextTimedAt(h, e, id);
      WaitingIn(Then(h, e), id);
    }
  }

  lemma NextRun(h: History, e: Event)
    requires Agrees(h)
    ensures Run(Then(h, e)).runs == RunsOf(Then(h, e)) && Run(Then(h, e)).stack == FramesOf(Then(h, e))
    ensures Run(Then(h, e)).nextId == IdsUsed(Then(h, e)) && Run(Then(h, e)).issued == Sent(Then(h, e))
  {
    var s := Run(h);
    if e.Answered? || e.SendFailed? || e.Expired? {
      WaitingIn(h, e.id);
    }
  }

  lemma NextDrains(h: History, e: Event)
    requires Agrees(h)
    ensures DrainsOwn(Then(h, e), Run(Then(h, e)).stack)
  {
    var s, s' := Run(h), Step(Run(h), e);
    forall k, id | 0 <= k < |s'.stack| && s'.stack[k].Draining? && id in s'.stack[k].rest
      ensures TicketOf(Then(h, e), id) == Some(s'.stack[k].rest[id])
    {
      if k < |s.stack| && s.stack[k].Draining? && id in s.stack[k].rest {
        assert TicketOf(h, id) == Some(s.stack[k].rest[id]);
        TicketIsKept(h, e, id);
      } else {
        assert s'.stack[k].rest == s.pending;
        WaitingIn(h, id);
        TicketIsKept(h, e, id);
      }
    }
  }

  /** In every interleaving and at every depth of re-entry the channel's whole
      state is that of its history. */
  lemma {:induction false} ChannelIsHistory(h: History)
    ensures Run(h) == State(IdsUsed(h), Sent(h), WaitingMap(h), TimedSet(h), RunsOf(h), FramesOf(h))
    ensures DrainsOwn(h, Run(h).stack)
  {
    if h.Then? {
      ChannelIsHistory(h.past);
      NextWaiting(h.past, h.event);
      NextTimed(h.past, h.event);
      NextRun(h.past, h.event);
      NextDrains(h.past, h.event);
    }
  }

  /** A call that does not go out has its callback run with the default, at once
      and never again. */
  lemma ClosedCallRunsDefault(h: History, open: bool, serialised: bool)
    requires Enabled(Run(h), Send(open, serialised)) && !(open && serialised)
    ensures var s, s' := Run(h), Run(Then(h, Send(open, serialised)));
            s'.runs == s.runs + [(s.issued, Default)] && s'.pending == s.pending && s'.timers == s.timers
  {
    var h' := Then(h, Send(open, serialised));
    ChannelIsHistory(h);
    ChannelIsHistory(h');
    assert forall id: Id :: Waiting(h', id) == Waiting(h, id) && Timed(h', id) == Timed(h, id) && TicketOf(h', id) == TicketOf(h, id);
    assert WaitingMap(h') == WaitingMap(h) && TimedSet(h') == TimedSet(h);
  }
}
