/** The control channel as an object on the UI sequence.  What its callbacks do is
    not in its hands: `script` is the calls they will make, in order, each
    callback ending at the next Return.  `trace` records every step, so an object
    that is Valid is at the end of a run of the machine in ControlChannel. */
module ControlChannelObject {
  import opened ControlChannel
  import ControlChannelHistory

  lemma {:induction false} ExtendsTrans(h2: History, h1: History, h0: History)
    requires Extends(h2, h1) && Extends(h1, h0)
    ensures Extends(h2, h0)
  {
    if h2 != h1 {
      ExtendsTrans(h2.past, h1, h0);
    }
  }

  class CbControlChannel {
    var nextRequestId: nat
    var pending: map<Id, Ticket>
    var timers: set<Id>
    var script: seq<Event>
    var issued: nat
    ghost var runs: seq<(Ticket, Answer)>
    ghost var stack: seq<Frame>
    ghost var trace: History

    ghost function View(): State
      reads this
    {
      State(nextRequestId, issued, pending, timers, runs, stack)
    }

    ghost predicate Valid()
      reads this
    {
      View() == Run(trace)
    }

    /** Called from the message loop or from inside a callback. */
    ghost predicate Free()
      reads this
    {
      Valid() && (stack == [] || stack[|stack| - 1].Callback?)
    }

    /** A call has come and gone: the frames are those of before, and what was
        run stays run. */
    twostate predicate Done(e: Event)
      reads this
    {
      && Valid() && stack == old(stack) && old(runs) <= runs && |script| <= |old(script)|
      && Extends(trace, Then(old(trace), e))
    }

    constructor (script: seq<Event>)
      ensures Free() && View() == START && this.script == script
    {
      nextRequestId, issued, pending, timers := 0, 0, map[], {};
      this.script := script;
      runs, stack, trace := [], [], Boot;
    }

    method SendRequest(open: bool, serialised: bool)
      requires Free()
      modifies this
      ensures Done(Send(open, serialised))
      decreases |script|, 1
    {
      var t := issued;
      issued := issued + 1;
      if open {
        nextRequestId := nextRequestId + 1;
        if serialised {
          pending := pending[nextRequestId := t];
          timers := timers + {nextRequestId};
          trace := Then(trace, Send(open, serialised));
          return;
        }
      }
      Invoke(t, Default, Send(open, serialised));
    }

    /** Anything but the request's own first answer finds nothing here. */
    method ResolvePending(id: Id, answer: Answer)
      requires Free()
      modifies this
      ensures Done(Answered(id, answer))
      ensures id in old(pending) ==> old(runs) + [(old(pending)[id], answer)] <= runs
      ensures id !in old(pending) ==> View() == old(View())
      decreases |script|, 1
    {
      if id !in pending {
        trace := Then(trace, Answered(id, answer));
        return;
      }
      var t := pending[id];
      pending := pending - {id};
      timers := timers - {id};
      Invoke(t, answer, Answered(id, answer));
    }

    method DeadlineExpired(id: Id)
      requires Free() && id in timers
      modifies this
      ensures Done(Expired(id))
      ensures id in old(pending) ==> old(runs) + [(old(pending)[id], Default)] <= runs
      ensures id !in old(pending) ==> runs == old(runs) && pending == old(pending)
      decreases |script|, 1
    {
      timers := timers - {id};
      if id !in pending {
        trace := Then(trace, Expired(id));
        return;
      }
      var t := pending[id];
      pending := pending - {id};
      assert timers - {id} == timers;
      Invoke(t, Default, Expired(id));
    }

    /** Runs every callback pending at the call with the default, although each
        of them may send, resolve and cancel in turn. */
    method CancelAllPending()
      requires Free()
      modifies this
      ensures Done(Cancel)
      ensures forall id :: id in old(pending) ==> DefaultRun(runs, old(pending)[id])
      decreases |script|, 3
    {
      if pending == map[] {
        trace := Then(trace, Cancel);
        return;
      }
      var drained := MoveOut();
      ghost var called := trace;
      DrainAll(drained);
      assert stack[..|stack| - 1] == old(stack);
      PopFrame(called);
    }

    /** The map is moved out before any callback runs. */
    method MoveOut() returns (drained: map<Id, Ticket>)
      requires Free() && pending != map[]
      modifies this`pending, this`stack, this`trace
      ensures Valid() && drained == old(pending) && stack == old(stack) + [Draining(drained)] && trace == Then(old(trace), Cancel)
    {
      drained := pending;
      pending := map[];
      stack := stack + [Draining(drained)];
      trace := Then(trace, Cancel);
    }

    /** The innermost frame is done. */
    ghost method PopFrame(called: History)
      requires Valid() && Enabled(View(), Return) && Extends(trace, called)
      modifies this`stack, this`trace
      ensures Valid() && stack == old(stack)[..|old(stack)| - 1] && Extends(trace, called)
    {
      stack := stack[..|stack| - 1];
      trace := Then(trace, Return);
    }

    method DrainAll(all: map<Id, Ticket>)
      requires Valid() && stack != [] && stack[|stack| - 1] == Draining(all)
      modifies this
      ensures Valid() && stack == old(stack)[|old(stack)| - 1 := Draining(map[])] && |script| <= |old(script)|
      ensures old(runs) <= runs && Extends(trace, old(trace))
      ensures forall id :: id in all ==> DefaultRun(runs, all[id])
      decreases |script|, 2
    {
      var drained := all;
      while drained != map[]
        invariant Valid() && stack == old(stack)[|old(stack)| - 1 := Draining(drained)]
        invariant old(runs) <= runs && |script| <= |old(script)| && Extends(trace, old(trace))
        invariant Owed(all, runs, drained)
        decreases drained.Keys
      {
        var id :| id in drained;
        ghost var before, past := runs, trace;
        DrainEntry(drained, id);
        ExtendsTrans(trace, past, old(trace));
        OneLessOwed(all, before, runs, drained, id);
        drained := drained - {id};
      }
    }

    /** One turn of the drain loop. */
    method DrainEntry(drained: map<Id, Ticket>, id: Id)
      requires Valid() && stack != [] && stack[|stack| - 1] == Draining(drained) && id in drained
      modifies this
      ensures Valid() && stack == old(stack)[|old(stack)| - 1 := Draining(drained - {id})] && |script| <= |old(script)|
      ensures old(runs) + [(drained[id], Default)] <= runs && Extends(trace, old(trace))
      decreases |script|, 1
    {
      ghost var past := trace;
      timers := timers - {id};
      stack := stack[|stack| - 1 := Draining(drained - {id})];
      Invoke(drained[id], Default, Drain(id));
      ExtendsTrans(trace, Then(past, Drain(id)), past);
    }

    /** Runs one callback to its end.  `e` is the step that brought it up, all of
        whose other effects have been made. */
    method Invoke(t: Ticket, answer: Answer, ghost e: Event)
      requires RunCallback(View(), t, answer) == Step(Run(trace), e)
      modifies this
      ensures Valid() && stack == old(stack) && |script| <= |old(script)|
      ensures old(runs) + [(t, answer)] <= runs && Extends(trace, Then(old(trace), e))
      decreases |script|, 0
    {
      runs := runs + [(t, answer)];
      stack := stack + [Callback(t)];
      trace := Then(trace, e);
      ghost var called, ran, frames := trace, runs, stack;
      while script != [] && !script[0].Return?
        invariant Valid() && stack == frames && ran <= runs && Extends(trace, called) && |script| <= |old(script)|
        decreases |script|
      {
        var call := script[0];
        script := script[1..];
        ghost var past := trace;
        Reenter(call);
        ExtendsTrans(trace, past, called);
      }
      if script != [] {
        script := script[1..];
      }
      assert stack[..|stack| - 1] == old(stack);
      PopFrame(called);
    }

    /** A call made by a callback. */
    method Reenter(call: Event)
      requires Free()
      modifies this
      ensures Valid() && stack == old(stack) && old(runs) <= runs && |script| <= |old(script)| && Extends(trace, old(trace))
      decreases |script|, 4
    {
      ghost var past := trace;
      match call {
        case Send(open, serialised) => SendRequest(open, serialised);
          ExtendsTrans(trace, Then(past, call), past);
        case Answered(id, answer) => ResolvePending(id, answer);
          ExtendsTrans(trace, Then(past, call), past);
        case SendFailed(id) => ResolvePending(id, Default);
          ExtendsTrans(trace, Then(past, Answered(id, Default)), past);
        case Expired(id) =>
          if id in timers {
            DeadlineExpired(id);
            ExtendsTrans(trace, Then(past, call), past);
          }
        case Cancel => CancelAllPending();
          ExtendsTrans(trace, Then(past, call), past);
        case _ =>
      }
    }
  }

  /** What is left of a drained map, and what has been run of it. */
  ghost predicate Owed(all: map<Id, Ticket>, runs: seq<(Ticket, Answer)>, rest: map<Id, Ticket>) {
    forall id :: id in all ==> DefaultRun(runs, all[id]) || (id in rest && rest[id] == all[id])
  }

  lemma OneLessOwed(all: map<Id, Ticket>, before: seq<(Ticket, Answer)>, runs: seq<(Ticket, Answer)>, rest: map<Id, Ticket>, done: Id)
    requires Owed(all, before, rest) && done in rest && before + [(rest[done], Default)] <= runs
    ensures Owed(all, runs, rest - {done})
  {
    forall id | id in all
      ensures DefaultRun(runs, all[id]) || (id in rest - {done} && rest[id] == all[id])
    {
      if DefaultRun(before, all[id]) {
        var i :| 0 <= i < |before| && before[i] == (all[id], Default);
        assert runs[i] == (all[id], Default);
      } else if id == done {
        assert runs[|before|] == (all[id], Default);
      }
    }
  }

  /** Whatever its callbacks do, an object at rest has run every callback issued
      exactly once or still has it pending. */
  lemma ObjectRunsEachOnce(c: CbControlChannel, t: Ticket)
    requires c.Valid() && c.stack == [] && t < c.issued
    ensures InRuns(c.runs, t) + |Slots(c.pending, t)| == 1
    ensures c.runs == ControlChannelHistory.RunsOf(c.trace) && c.pending == ControlChannelHistory.WaitingMap(c.trace)
  {
    ControlChannelHistory.ChannelIsHistory(c.trace);
    ExactlyOnce(c.trace, t);
  }
}
