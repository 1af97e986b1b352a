/** Tenant labels and the active-session gauge.

    `labelTenant` takes its own lock twice, so its two sections interleave with
    every other goroutine's; the hub's lock is held across a whole
    getOrCreate or dropIfEmpty, map update and gauge update included. */
module TenantMetrics {

  const TENANT_LABEL_CAP := 100
  const ANONYMOUS := "_anonymous"
  const OVERFLOW := "_other"

  datatype Key = Key(tenant: string, id: string)

  /** The label a tenant has once it has been labelled. */
  function LabelOf(seen: set<string>, t: string): string {
    if t == ANONYMOUS || t in seen then t else OVERFLOW
  }

  /** The label of t can no longer change. */
  predicate Settled(seen: set<string>, t: string) {
    t == ANONYMOUS || t in seen || |seen| >= TENANT_LABEL_CAP
  }

  /** The write-locked section: insert while there is room. */
  function Insert(seen: set<string>, t: string): set<string> {
    if t == ANONYMOUS || t in seen || |seen| >= TENANT_LABEL_CAP then seen else seen + {t}
  }

  /** Where a call of labelTenant stands. */
  datatype Stage = Checking | Inserting

  /** What the goroutine holding the hub lock is doing: the session map is
      already changed by delta, the gauge not yet. */
  datatype Holder = Free | Recording(key: Key, delta: int, stage: Stage)

  datatype Call = Call(tenant: string, stage: Stage)

  /** `labels` lists every completed labelling, `calls` the labellings under way
      outside the hub lock. */
  datatype State = State(seen: set<string>, sessions: set<Key>, gauge: map<string, int>, holder: Holder,
                         calls: map<nat, Call>, labels: seq<(string, string)>)

  const BOOT := State({}, {}, map[], Free, map[], [])

  datatype Event =
    | Create(key: Key)
    | Drop(key: Key)
    | HubTick
    | Begin(call: nat, tenant: string)
    | CallTick(call: nat)

  function Gauge(s: State, l: string): int {
    if l in s.gauge then s.gauge[l] else 0
  }

  function Record(s: State, l: string, delta: int): State {
    s.(gauge := s.gauge[l := Gauge(s, l) + delta], holder := Free)
  }

  function Labelled(s: State, t: string): State {
    s.(labels := s.labels + [(t, LabelOf(s.seen, t))])
  }

  function Step(s: State, e: Event): State {
    match e
    case Create(k) =>
      if s.holder.Free? && k !in s.sessions
      then s.(sessions := s.sessions + {k}, holder := Recording(k, 1, Checking)) else s
    case Drop(k) =>
      if s.holder.Free? && k in s.sessions
      then s.(sessions := s.sessions - {k}, holder := Recording(k, -1, Checking)) else s
    case HubTick =>
      if s.holder.Free? then s
      else
        var t := s.holder.key.tenant;
        if s.holder.stage.Checking? && !(t == ANONYMOUS || t in s.seen)
        then s.(holder := s.holder.(stage := Inserting))
        else
          var s1 := if s.holder.stage.Checking? then s else s.(seen := Insert(s.seen, t));
          Record(Labelled(s1, t), LabelOf(s1.seen, t), s.holder.delta)
    case Begin(c, t) => if c in s.calls then s else s.(calls := s.calls[c := Call(t, Checking)])
    case CallTick(c) =>
      if c !in s.calls then s
      else
        var t := s.calls[c].tenant;
        if s.calls[c].stage.Checking? && !(t == ANONYMOUS || t in s.seen)
        then s.(calls := s.calls[c := Call(t, Inserting)])
        else
          var s1 := if s.calls[c].stage.Checking? then s else s.(seen := Insert(s.seen, t));
          Labelled(s1.(calls := s1.calls - {c}), t)
  }

  function Run(es: seq<Event>): State {
    if es == [] then BOOT else Step(Run(es[..|es| - 1]), es[|es| - 1])
  }

  // ----- labels are for ever, and few -----

  ghost predicate LabelsKept(s: State) {
    && |s.seen| <= TENANT_LABEL_CAP
    && (forall i :: 0 <= i < |s.labels| ==>
          Settled(s.seen, s.labels[i].0) && s.labels[i].1 == LabelOf(s.seen, s.labels[i].0))
  }

  /** A settled tenant keeps its label whatever is inserted later. */
  lemma InsertKeepsSettled(seen: set<string>, t: string, u: string)
    requires |seen| <= TENANT_LABEL_CAP
    ensures |Insert(seen, t)| <= TENANT_LABEL_CAP && Settled(Insert(seen, t), t)
    ensures Settled(seen, u) ==> Settled(Insert(seen, t), u) && LabelOf(Insert(seen, t), u) == LabelOf(seen, u)
  {
  }

  lemma StepKeepsLabels(s: State, e: Event)
    requires LabelsKept(s)
    ensures LabelsKept(Step(s, e))
  {
    match e
    case HubTick =>
      if !s.holder.Free? {
        var t := s.holder.key.tenant;
        forall u ensures Settled(s.seen, u) ==> Settled(Insert(s.seen, t), u) && LabelOf(Insert(s.seen, t), u) == LabelOf(s.seen, u) {
          InsertKeepsSettled(s.seen, t, u);
        }
        InsertKeepsSettled(s.seen, t, t);
      }
    case CallTick(c) =>
      if c in s.calls {
        var t := s.calls[c].tenant;
        forall u ensures Settled(s.seen, u) ==> Settled(Insert(s.seen, t), u) && LabelOf(Insert(s.seen, t), u) == LabelOf(s.seen, u) {
          InsertKeepsSettled(s.seen, t, u);
        }
        InsertKeepsSettled(s.seen, t, t);
      }
    case _ =>
  }

  lemma {:induction false} RunKeepsLabels(es: seq<Event>)
    ensures LabelsKept(Run(es))
  {
    if es != [] {
      RunKeepsLabels(es[..|es| - 1]);
      StepKeepsLabels(Run(es[..|es| - 1]), es[|es| - 1]);
    }
  }

  /** In every interleaving a tenant's first label is its label for ever. */
  lemma LabelIsForEver(es: seq<Event>, i: nat, j: nat)
    requires i < |Run(es).labels| && j < |Run(es).labels| && Run(es).labels[i].0 == Run(es).labels[j].0
    ensures Run(es).labels[i].1 == Run(es).labels[j].1
  {
    RunKeepsLabels(es);
  }

  function Emitted(s: State): set<string> {
    set i | 0 <= i < |s.labels| :: s.labels[i].1
  }

  lemma SubsetSize(a: set<string>, b: set<string>)
    requires a <= b
    ensures |a| <= |b|
  {
    assert b == a + (b - a);
  }

  /** At most 102 distinct labels are ever emitted. */
  lemma FewLabels(es: seq<Event>)
    ensures |Emitted(Run(es))| <= TENANT_LABEL_CAP + 2
  {
    RunKeepsLabels(es);
    var s := Run(es);
    SubsetSize(Emitted(s), s.seen + {ANONYMOUS, OVERFLOW});
  }

  // ----- the gauge counts the sessions -----

  /** The sessions the gauge accounts for. */
  function Counted(s: State): set<Key> {
    match s.holder
    case Free => s.sessions
    case Recording(k, delta, _) => if delta == 1 then s.sessions - {k} else s.sessions + {k}
  }

  function Under(ks: set<Key>, seen: set<string>, l: string): set<Key> {
    set k | k in ks && LabelOf(seen, k.tenant) == l
  }

  ghost predicate GaugeCounts(s: State) {
    && (s.holder.Recording? ==> (s.holder.delta == 1 && s.holder.key in s.sessions) || (s.holder.delta == -1 && s.holder.key !in s.sessions))
    && (forall k :: k in Counted(s) ==> Settled(s.seen, k.tenant))
    && (forall l: string :: Gauge(s, l) == |Under(Counted(s), s.seen, l)|)
  }

  /** Relabelling nobody: later insertions leave every count as it is. */
  lemma InsertKeepsCounts(ks: set<Key>, seen: set<string>, t: string, l: string)
    requires |seen| <= TENANT_LABEL_CAP && forall k :: k in ks ==> Settled(seen, k.tenant)
    ensures Under(ks, Insert(seen, t), l) == Under(ks, seen, l)
    ensures forall k :: k in ks ==> Settled(Insert(seen, t), k.tenant)
  {
    forall k | k in ks
      ensures Settled(Insert(seen, t), k.tenant) && LabelOf(Insert(seen, t), k.tenant) == LabelOf(seen, k.tenant)
    {
      InsertKeepsSettled(seen, t, k.tenant);
    }
  }

  lemma AddCounts(ks: set<Key>, seen: set<string>, k: Key, l: string)
    requires k !in ks
    ensures |Under(ks + {k}, seen, l)| == |Under(ks, seen, l)| + if LabelOf(seen, k.tenant) == l then 1 else 0
  {
    if LabelOf(seen, k.tenant) == l {
      assert Under(ks + {k}, seen, l) == Under(ks, seen, l) + {k};
    } else {
      assert Under(ks + {k}, seen, l) == Under(ks, seen, l);
    }
  }

  /** The holder's gauge update accounts for its own map update. */
  lemma RecordCounts(s: State, l: string)
    requires GaugeCounts(s) && s.holder.Recording? && Settled(s.seen, s.holder.key.tenant)
    ensures var s' := Record(s, LabelOf(s.seen, s.holder.key.tenant), s.holder.delta);
            Gauge(s', l) == |Under(s.sessions, s.seen, l)|
  {
    var k := s.holder.key;
    if s.holder.delta == 1 {
      AddCounts(s.sessions - {k}, s.seen, k, l);
      assert s.sessions - {k} + {k} == s.sessions;
    } else {
      AddCounts(s.sessions, s.seen, k, l);
    }
  }

  lemma InsertGauge(s: State, t: string)
    requires GaugeCounts(s) && |s.seen| <= TENANT_LABEL_CAP
    ensures GaugeCounts(s.(seen := Insert(s.seen, t)))
  {
    var s' := s.(seen := Insert(s.seen, t));
    forall l: string
      ensures Gauge(s', l) == |Under(Counted(s'), s'.seen, l)|
    {
      InsertKeepsCounts(Counted(s), s.seen, t, l);
    }
    InsertKeepsCounts(Counted(s), s.seen, t, "");
  }

  lemma HubTickGauge(s: State)
    requires GaugeCounts(s) && LabelsKept(s) && s.holder.Recording?
    ensures GaugeCounts(Step(s, HubTick))
  {
    var t := s.holder.key.tenant;
    if s.holder.stage.Inserting? || t == ANONYMOUS || t in s.seen {
      var s1 := if s.holder.stage.Checking? then s else s.(seen := Insert(s.seen, t));
      InsertGauge(s, t);
      InsertKeepsSettled(s.seen, t, t);
      forall l: string
        ensures Gauge(Step(s, HubTick), l) == |Under(s1.sessions, s1.seen, l)|
      {
        RecordCounts(s1, l);
      }
    }
  }

  lemma SameGauge(s: State, s': State)
    requires GaugeCounts(s)
    requires s'.seen == s.seen && s'.sessions == s.sessions && s'.gauge == s.gauge && s'.holder == s.holder
    ensures GaugeCounts(s')
  {
    assert Counted(s') == Counted(s);
    forall l: string
      ensures Gauge(s', l) == |Under(Counted(s'), s'.seen, l)|
    {
      assert Gauge(s, l) == |Under(Counted(s), s.seen, l)|;
    }
  }

  lemma StepKeepsGauge(s: State, e: Event)
    requires GaugeCounts(s) && LabelsKept(s)
    ensures GaugeCounts(Step(s, e))
  {
    match e
    case Create(k) => assert Counted(Step(s, e)) == Counted(s);
    case Drop(k) => assert Counted(Step(s, e)) == Counted(s);
    case HubTick => if s.holder.Recording? { HubTickGauge(s); }
    case Begin(c, t) => SameGauge(s, Step(s, e));
    case CallTick(c) =>
      if c in s.calls {
        InsertGauge(s, s.calls[c].tenant);
        SameGauge(s.(seen := Step(s, e).seen), Step(s, e));
      }
  }

  lemma {:induction false} RunKeepsGauge(es: seq<Event>)
    ensures GaugeCounts(Run(es))
  {
    if es != [] {
      RunKeepsGauge(es[..|es| - 1]);
      RunKeepsLabels(es[..|es| - 1]);
      StepKeepsGauge(Run(es[..|es| - 1]), es[|es| - 1]);
    }
  }

  /** In every interleaving, whenever nobody holds the hub lock, the gauge of a
      label is the number of sessions in the hub whose tenant has that
      label. */
  lemma GaugeIsSessionCount(es: seq<Event>, l: string)
    requires Run(es).holder.Free?
    ensures Gauge(Run(es), l) == |set k | k in Run(es).sessions && LabelOf(Run(es).seen, k.tenant) == l|
  {
    RunKeepsGauge(es);
    assert Under(Run(es).sessions, Run(es).seen, l) == set k | k in Run(es).sessions && LabelOf(Run(es).seen, k.tenant) == l;
  }

  // ----- the source's own form -----

  /** seenTenants and the gauge behind labelTenant and the record helpers. */
  class Metrics {
    var seen: set<string>
    var active: map<string, int>

    constructor ()
      ensures seen == {} && active == map[ANONYMOUS := 0]
    {
      seen, active := {}, map[ANONYMOUS := 0];
    }

    /** Both lookups and the insertion, nobody interfering. */
    method LabelTenant(t: string) returns (l: string)
      modifies this`seen
      ensures seen == Insert(old(seen), t)
      ensures l == LabelOf(seen, t) && Settled(seen, t)
    {
      if t == ANONYMOUS || t in seen {
        return t;
      }
      if |seen| >= TENANT_LABEL_CAP {
        return OVERFLOW;
      }
      seen := seen + {t};
      return t;
    }

    method RecordSession(t: string, delta: int)
      modifies this
      ensures seen == Insert(old(seen), t)
      ensures active == var l := LabelOf(seen, t); old(active)[l := (if l in old(active) then old(active)[l] else 0) + delta]
    {
      var l := LabelTenant(t);
      active := active[l := (if l in active then active[l] else 0) + delta];
    }
  }

  /** The hub: the keys of its live sessions. */
  class Hub {
    var sessions: set<Key>
    const metrics: Metrics

    constructor (metrics: Metrics)
      requires metrics.seen == {} && metrics.active == map[ANONYMOUS := 0]
      ensures this.metrics == metrics && sessions == {} && Balanced()
    {
      this.metrics := metrics;
      sessions := {};
      new;
      forall l: string ensures |Under({}, {}, l)| == 0 {
        assert Under({}, {}, l) == {};
      }
    }

    ghost function View(): State
      reads this, metrics
    {
      State(metrics.seen, sessions, metrics.active, Free, map[], [])
    }

    ghost predicate Balanced()
      reads this, metrics
    {
      |metrics.seen| <= TENANT_LABEL_CAP && GaugeCounts(View())
    }

    /** Returns the session for the key, creating and counting it if absent. */
    method GetOrCreate(k: Key)
      requires Balanced()
      modifies this`sessions, metrics
      ensures Balanced()
      ensures sessions == old(sessions) + {k}
    {
      if k !in sessions {
        ghost var s := View();
        sessions := sessions + {k};
        metrics.RecordSession(k.tenant, 1);
        Settles(s, k, 1, View());
      }
    }

    /** Removes the session for the key; `empty` says both its peers have left. */
    method DropIfEmpty(k: Key, empty: bool)
      requires Balanced()
      modifies this`sessions, metrics
      ensures Balanced()
      ensures sessions == if empty then old(sessions) - {k} else old(sessions)
    {
      if k in sessions && empty {
        ghost var s := View();
        sessions := sessions - {k};
        metrics.RecordSession(k.tenant, -1);
        Settles(s, k, -1, View());
      }
    }
  }

  /** A whole critical section of the hub keeps the gauge in balance. */
  lemma Settles(s: State, k: Key, delta: int, after: State)
    requires s.holder.Free? && |s.seen| <= TENANT_LABEL_CAP && GaugeCounts(s) && (delta == 1 || delta == -1)
    requires delta == 1 <==> k !in s.sessions
    requires var seen := Insert(s.seen, k.tenant);
             var l := LabelOf(seen, k.tenant);
             after == State(seen, if delta == 1 then s.sessions + {k} else s.sessions - {k},
                            s.gauge[l := Gauge(s, l) + delta], Free, map[], [])
    ensures |after.seen| <= TENANT_LABEL_CAP && GaugeCounts(after)
  {
    var s1 := s.(sessions := after.sessions, holder := Recording(k, delta, Inserting));
    assert Counted(s1) == s.sessions;
    var s2 := s1.(seen := after.seen);
    InsertGauge(s1, k.tenant);
    InsertKeepsSettled(s.seen, k.tenant, k.tenant);
    forall l: string
      ensures Gauge(after, l) == |Under(after.sessions, after.seen, l)|
    {
      RecordCounts(s2, l);
    }
  }
}
