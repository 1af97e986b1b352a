/** Requests on the control channel: each carries a callback that a response, a
    deadline, a failed send or a cancel may run, and callbacks may call back in.

    `runs` is the log of callbacks run.  A ticket is the number of a SendRequest
    call and names its callback.  The stack holds the C++ frames that matter:
    callbacks in progress and drained maps not yet worked off. */
module ControlChannel {

  type Id = nat
  type Ticket = nat

  datatype Answer = Default | Response(text: string)

  datatype Frame = Callback(ticket: Ticket) | Draining(rest: map<Id, Ticket>)

  datatype State = State(nextId: nat, issued: nat, pending: map<Id, Ticket>, timers: set<Id>, runs: seq<(Ticket, Answer)>,
                         stack: seq<Frame>)

  const START := State(0, 0, map[], {}, [], [])

  /** A callback starts running. */
  function RunCallback(s: State, t: Ticket, a: Answer): State {
    s.(runs := s.runs + [(t, a)], stack := s.stack + [Callback(t)])
  }

  /** The callback runs at once when the channel is closed, or when the request
      cannot be serialised, which still uses up an id. */
  function SendRequest(s: State, open: bool, serialised: bool): State {
    var t, id := s.issued, s.nextId + 1;
    var s1 := s.(issued := t + 1);
    if !open then RunCallback(s1, t, Default)
    else if !serialised then RunCallback(s1.(nextId := id), t, Default)
    else s1.(nextId := id, pending := s.pending[id := t], timers := s.timers + {id})
  }

  function ResolvePending(s: State, id: Id, a: Answer): State {
    if id !in s.pending then s
    else RunCallback(s.(pending := s.pending - {id}, timers := s.timers - {id}), s.pending[id], a)
  }

  function CancelAllPending(s: State): State {
    if s.pending == map[] then s
    else s.(pending := map[], stack := s.stack + [Draining(s.pending)])
  }

  /** The drain loop goes to its next entry. */
  function DrainNext(s: State, id: Id): State
    requires s.stack != [] && s.stack[|s.stack| - 1].Draining? && id in s.stack[|s.stack| - 1].rest
  {
    var top := |s.stack| - 1;
    var rest: map<Id, Ticket> := s.stack[top].rest;
    RunCallback(s.(stack := s.stack[top := Draining(rest - {id})], timers := s.timers - {id}), rest[id], Default)
  }

  /** A failed send and an expired deadline both resolve with the default. */
  datatype Event =
    | Send(open: bool, serialised: bool)
    | Answered(id: Id, answer: Answer)
    | SendFailed(id: Id)
    | Expired(id: Id)
    | Cancel
    | Drain(id: Id)
    | Return

  /** Calls come from the message loop or from a callback in progress. */
  predicate Enabled(s: State, e: Event) {
    var free := s.stack == [] || s.stack[|s.stack| - 1].Callback?;
    match e
    case Expired(id) => free && id in s.timers
    case Drain(id) => !free && id in s.stack[|s.stack| - 1].rest
    case Return => s.stack != [] && (s.stack[|s.stack| - 1].Draining? ==> s.stack[|s.stack| - 1].rest == map[])
    case _ => free
  }

  function Step(s: State, e: Event): State {
    if !Enabled(s, e) then s
    else
      match e
      case Send(open, serialised) => SendRequest(s, open, serialised)
      case Answered(id, answer) => ResolvePending(s, id, answer)
      case SendFailed(id) => ResolvePending(s, id, Default)
      case Expired(id) => ResolvePending(s.(timers := s.timers - {id}), id, Default)
      case Cancel => CancelAllPending(s)
      case Drain(id) => DrainNext(s, id)
      case Return => s.(stack := s.stack[..|s.stack| - 1])
  }

  datatype History = Boot | Then(past: History, event: Event)

  function Run(h: History): State {
    match h
    case Boot => START
    case Then(past, e) => Step(Run(past), e)
  }

  ghost predicate Extends(h': History, h: History) {
    h' == h || (h'.Then? && Extends(h'.past, h))
  }

  // ----- where a ticket is -----

  function Slots(m: map<Id, Ticket>, t: Ticket): set<Id> {
    set id | id in m && m[id] == t
  }

  function InRuns(runs: seq<(Ticket, Answer)>, t: Ticket): nat {
    if runs == [] then 0 else InRuns(runs[..|runs| - 1], t) + if runs[|runs| - 1].0 == t then 1 else 0
  }

  function InFrames(stack: seq<Frame>, t: Ticket): nat {
    if stack == [] then 0
    else InFrames(stack[..|stack| - 1], t)
         + if stack[|stack| - 1].Draining? then |Slots(stack[|stack| - 1].rest, t)| else 0
  }

  /** How often the callback of t has run or can still run. */
  function Chances(s: State, t: Ticket): nat {
    InRuns(s.runs, t) + |Slots(s.pending, t)| + InFrames(s.stack, t)
  }

  lemma SlotsRemove(m: map<Id, Ticket>, id: Id, t: Ticket)
    requires id in m
    ensures |Slots(m - {id}, t)| == |Slots(m, t)| - if m[id] == t then 1 else 0
  {
    assert Slots(m - {id}, t) == Slots(m, t) - {id};
  }

  lemma SlotsAdd(m: map<Id, Ticket>, id: Id, u: Ticket, t: Ticket)
    requires id !in m
    ensures |Slots(m[id := u], t)| == |Slots(m, t)| + if u == t then 1 else 0
  {
    assert Slots(m[id := u], t) == Slots(m, t) + if u == t then {id} else {};
  }

  lemma CallbackCounts(s: State, u: Ticket, a: Answer, t: Ticket)
    ensures Chances(RunCallback(s, u, a), t) == Chances(s, t) + if u == t then 1 else 0
  {
    assert (s.runs + [(u, a)])[..|s.runs|] == s.runs;
    assert (s.stack + [Callback(u)])[..|s.stack|] == s.stack;
  }

  /** Every id in use has been minted, so the next one is new. */
  ghost predicate Minted(s: State) {
    && (forall id :: id in s.pending ==> 0 < id <= s.nextId)
    && (forall k, id :: 0 <= k < |s.stack| && s.stack[k].Draining? && id in s.stack[k].rest ==> id <= s.nextId)
  }

  lemma StepKeepsMinted(s: State, e: Event)
    requires Minted(s)
    ensures Minted(Step(s, e)) && Step(s, e).nextId >= s.nextId
  {
  }

  lemma ResolveCounts(s: State, id: Id, a: Answer, t: Ticket)
    ensures Chances(ResolvePending(s, id, a), t) == Chances(s, t)
  {
    if id in s.pending {
      var s1 := s.(pending := s.pending - {id}, timers := s.timers - {id});
      SlotsRemove(s.pending, id, t);
      CallbackCounts(s1, s.pending[id], a, t);
    }
  }

  lemma DrainCounts(s: State, id: Id, t: Ticket)
    requires s.stack != [] && s.stack[|s.stack| - 1].Draining? && id in s.stack[|s.stack| - 1].rest
    ensures Chances(DrainNext(s, id), t) == Chances(s, t)
  {
    var top := |s.stack| - 1;
    var rest: map<Id, Ticket> := s.stack[top].rest;
    var s1 := s.(stack := s.stack[top := Draining(rest - {id})], timers := s.timers - {id});
    assert s1.stack[..top] == s.stack[..top];
    SlotsRemove(rest, id, t);
    CallbackCounts(s1, rest[id], Default, t);
  }

  lemma SendCounts(s: State, open: bool, serialised: bool, t: Ticket)
    requires Minted(s)
    ensures Chances(SendRequest(s, open, serialised), t) == Chances(s, t) + if t == s.issued then 1 else 0
  {
    var s1 := s.(issued := s.issued + 1);
    if !open {
      CallbackCounts(s1, s.issued, Default, t);
    } else if !serialised {
      CallbackCounts(s1.(nextId := s.nextId + 1), s.issued, Default, t);
    } else {
      SlotsAdd(s.pending, s.nextId + 1, s.issued, t);
    }
  }

  lemma CancelCounts(s: State, t: Ticket)
    ensures Chances(CancelAllPending(s), t) == Chances(s, t)
  {
    if s.pending != map[] {
      assert (s.stack + [Draining(s.pending)])[..|s.stack|] == s.stack;
      assert Slots(map[], t) == {};
    }
  }

  lemma ReturnCounts(s: State, t: Ticket)
    requires Enabled(s, Return)
    ensures Chances(Step(s, Return), t) == Chances(s, t)
  {
    assert Slots(map[], t) == {};
  }

  lemma StepCounts(s: State, e: Event, t: Ticket)
    requires Minted(s)
    ensures Chances(Step(s, e), t) - Chances(s, t) == if t < Step(s, e).issued && t >= s.issued then 1 else 0
  {
    if Enabled(s, e) {
      match e
      case Send(open, serialised) => SendCounts(s, open, serialised, t);
      case Answered(id, answer) => ResolveCounts(s, id, answer, t);
      case SendFailed(id) => ResolveCounts(s, id, Default, t);
      case Expired(id) => ResolveCounts(s.(timers := s.timers - {id}), id, Default, t);
      case Cancel => CancelCounts(s, t);
      case Drain(id) => DrainCounts(s, id, t);
      case Return => ReturnCounts(s, t);
    }
  }

  /** Exactly once: in every interleaving and at every depth of re-entry, each
      request issued has run once, or waits in exactly one place, never both. */
  lemma {:induction false} ExactlyOnce(h: History, t: Ticket)
    ensures Minted(Run(h))
    ensures Chances(Run(h), t) == if t < Run(h).issued then 1 else 0
  {
    if h.Then? {
      ExactlyOnce(h.past, t);
      StepKeepsMinted(Run(h.past), h.event);
      StepCounts(Run(h.past), h.event, t);
    } else {
      assert Slots(map[], t) == {};
    }
  }

  /** With nothing pending and no frame left, every callback has run once. */
  lemma AtRestAllHaveRun(h: History, t: Ticket)
    requires Run(h).stack == [] && Run(h).pending == map[] && t < Run(h).issued
    ensures InRuns(Run(h).runs, t) == 1
  {
    ExactlyOnce(h, t);
    assert Slots(map[], t) == {};
  }

  // ----- ids -----

  lemma StepNeverRebinds(s: State, e: Event, id: Id)
    requires Minted(s) && id <= s.nextId
    ensures id in Step(s, e).pending ==> id in s.pending && Step(s, e).pending[id] == s.pending[id]
  {
  }

  /** An id is never bound again: if it is pending later, it has been pending all
      along, for the same request. */
  lemma {:induction false} IdsAreNeverReused(h: History, h': History, id: Id)
    requires Extends(h', h) && id <= Run(h).nextId
    ensures id <= Run(h').nextId
    ensures id in Run(h').pending ==> id in Run(h).pending && Run(h').pending[id] == Run(h).pending[id]
  {
    if h' != h {
      IdsAreNeverReused(h, h'.past, id);
      ExactlyOnce(h'.past, 0);
      StepKeepsMinted(Run(h'.past), h'.event);
      StepNeverRebinds(Run(h'.past), h'.event, id);
    }
  }

  /** Once a request is no longer pending, a response, a deadline or a failed send
      for it changes nothing, for ever. */
  lemma LateAnswerIsIgnored(h: History, h': History, id: Id, a: Answer)
    requires Extends(h', h) && id <= Run(h).nextId && id !in Run(h).pending
    ensures Step(Run(h'), Answered(id, a)) == Run(h') && Step(Run(h'), SendFailed(id)) == Run(h')
    ensures Step(Run(h'), Expired(id)) == Run(h').(timers := Step(Run(h'), Expired(id)).timers)
  {
    IdsAreNeverReused(h, h', id);
  }

  /** Pending requests have their deadline running, and drained ones are pending
      no more. */
  ghost predicate Guarded(s: State) {
    && (forall id :: id in s.pending ==> id in s.timers)
    && (forall k, id :: 0 <= k < |s.stack| && s.stack[k].Draining? && id in s.stack[k].rest ==> id !in s.pending)
  }

  lemma DrainKeepsGuarded(s: State, id: Id)
    requires Enabled(s, Drain(id)) && Guarded(s)
    ensures Guarded(DrainNext(s, id))
  {
    var s' := DrainNext(s, id);
    assert s'.pending == s.pending && id !in s.pending;
    assert forall k :: 0 <= k < |s.stack| - 1 ==> s'.stack[k] == s.stack[k];
    assert s'.stack[|s.stack| - 1].rest == s.stack[|s.stack| - 1].rest - {id};
  }

  lemma StepKeepsGuarded(s: State, e: Event)
    requires Minted(s) && Guarded(s)
    ensures Guarded(Step(s, e))
  {
    if e.Drain? && Enabled(s, e) {
      DrainKeepsGuarded(s, e.id);
    }
  }

  /** A pending request always has a live deadline. */
  lemma {:induction false} PendingIsGuarded(h: History)
    ensures Guarded(Run(h))
  {
    if h.Then? {
      PendingIsGuarded(h.past);
      ExactlyOnce(h.past, 0);
      StepKeepsGuarded(Run(h.past), h.event);
    }
  }

  // ----- CancelAllPending resolves what it found -----

  /** Between the call and its return the stack stays above depth d. */
  ghost predicate Inside(h: History, h0: History, d: nat) {
    h == h0 || (h.Then? && Inside(h.past, h0, d) && |Run(h).stack| > d)
  }

  ghost predicate DefaultRun(runs: seq<(Ticket, Answer)>, t: Ticket) {
    exists i :: 0 <= i < |runs| && runs[i] == (t, Default)
  }

  /** The frame at depth d still holds the request, or its callback has run. */
  ghost predicate Handled(s: State, d: nat, id: Id, t: Ticket) {
    && d < |s.stack| && s.stack[d].Draining?
    && ((id in s.stack[d].rest && s.stack[d].rest[id] == t) || DefaultRun(s.runs, t))
  }

  lemma StepKeepsRuns(s: State, e: Event, t: Ticket)
    requires DefaultRun(s.runs, t)
    ensures DefaultRun(Step(s, e).runs, t)
  {
    var i :| 0 <= i < |s.runs| && s.runs[i] == (t, Default);
    assert Step(s, e).runs[i] == (t, Default);
  }

  lemma StepKeepsHandled(s: State, e: Event, d: nat, id: Id, t: Ticket)
    requires Handled(s, d, id, t)
    ensures |Step(s, e).stack| > d ==> Handled(Step(s, e), d, id, t)
    ensures |Step(s, e).stack| <= d ==> DefaultRun(Step(s, e).runs, t)
  {
    var s' := Step(s, e);
    if DefaultRun(s.runs, t) {
      StepKeepsRuns(s, e, t);
    } else if e.Drain? && Enabled(s, e) && |s.stack| == d + 1 && e.id == id {
      assert s'.runs[|s.runs|] == (t, Default);
    }
  }

  lemma {:induction false} CancelInProgress(h0: History, h: History, id: Id)
    requires Enabled(Run(h0), Cancel) && id in Run(h0).pending
    requires Inside(h, Then(h0, Cancel), |Run(h0).stack|)
    ensures Handled(Run(h), |Run(h0).stack|, id, Run(h0).pending[id])
  {
    var d, t := |Run(h0).stack|, Run(h0).pending[id];
    if h != Then(h0, Cancel) {
      CancelInProgress(h0, h.past, id);
      StepKeepsHandled(Run(h.past), h.event, d, id, t);
    } else {
      assert Run(h).stack[d] == Draining(Run(h0).pending);
    }
  }

  /** When CancelAllPending returns, everything that was pending when it was
      called has been run with the default, whatever its callbacks did. */
  lemma CancelResolvesAll(h0: History, h: History, e: Event, id: Id)
    requires Enabled(Run(h0), Cancel) && id in Run(h0).pending
    requires Inside(h, Then(h0, Cancel), |Run(h0).stack|) && |Run(Then(h, e)).stack| == |Run(h0).stack|
    ensures DefaultRun(Run(Then(h, e)).runs, Run(h0).pending[id])
  {
    CancelInProgress(h0, h, id);
    StepKeepsHandled(Run(h), e, |Run(h0).stack|, id, Run(h0).pending[id]);
  }
}
