/** Labels, sessions and critical sections read off the events: the first hundred
    tenants to be labelled keep their names, whoever labels them and however the
    labellings interleave. */
module TenantHistory {
  import opened Options
  import opened TenantMetrics

  // ----- the first hundred -----

  /** The named tenants among these labellings. */
  function Named(labels: seq<(string, string)>): set<string> {
    set i | 0 <= i < |labels| && labels[i].0 != "_anonymous" :: labels[i].0
  }

  /** t was labelled when fewer than a hundred tenants had been. */
  predicate Early(labels: seq<(string, string)>, t: string) {
    t != "_anonymous" && exists i :: 0 <= i < |labels| && labels[i].0 == t && |Named(labels[..i])| < 100
  }

  /** t has a label of its own. */
  predicate Known(labels: seq<(string, string)>, t: string) { t == "_anonymous" || Early(labels, t) }

  /** One labelling more: t keeps its name if it is one of the first hundred. */
  function Labelling(labels: seq<(string, string)>, t: string): seq<(string, string)> {
    labels + [(t, if Known(labels + [(t, t)], t) then t else "_other")]
  }

  // ----- readings -----

  /** `section` is the key of the hub section under way, what it adds to the gauge
      and whether it has found its tenant unknown; `calls` the same of each
      labelling outside the hub. */
  datatype Story = Story(sessions: set<Key>, section: Option<(Key, int, bool)>, calls: map<nat, (string, bool)>,
                         labels: seq<(string, string)>)

  /** A labelling ends at its first tick if the tenant is known, else at its
      second. */
  predicate Ends(labels: seq<(string, string)>, t: string, ticked: bool) { ticked || Known(labels, t) }

  function NextStory(s: Story, e: Event): Story {
    match e
    case Create(k) => if s.section.None? && k !in s.sessions then s.(sessions := s.sessions + {k}, section := Some((k, 1, false))) else s
    case Drop(k) => if s.section.None? && k in s.sessions then s.(sessions := s.sessions - {k}, section := Some((k, -1, false))) else s
    case HubTick =>
      if s.section.None? then s
      else
        var (k, delta, ticked) := s.section.value;
        if Ends(s.labels, k.tenant, ticked) then s.(section := None, labels := Labelling(s.labels, k.tenant))
        else s.(section := Some((k, delta, true)))
    case Begin(c, t) => if c in s.calls then s else s.(calls := s.calls[c := (t, false)])
    case CallTick(c) =>
      if c !in s.calls then s
      else
        var (t, ticked) := s.calls[c];
        if Ends(s.labels, t, ticked) then s.(calls := s.calls - {c}, labels := Labelling(s.labels, t))
        else s.(calls := s.calls[c := (t, true)])
  }

  function StoryOf(es: seq<Event>): Story {
    if es == [] then Story({}, None, map[], []) else NextStory(StoryOf(es[..|es| - 1]), es[|es| - 1])
  }

  // ----- the metrics are their story -----

  /** The tenants seen are the early ones; below the cap that is everyone. */
  ghost predicate SeenIsEarly(seen: set<string>, labels: seq<(string, string)>) {
    && (forall t :: t in seen <==> Early(labels, t))
    && |seen| <= 100 && seen <= Named(labels) && (|seen| < 100 ==> seen == Named(labels))
  }

  lemma NamedSnoc(labels: seq<(string, string)>, t: string, l: string)
    ensures Named(labels + [(t, l)]) == if t == "_anonymous" then Named(labels) else Named(labels) + {t}
  {
    var labels' := labels + [(t, l)];
    assert labels'[|labels|] == (t, l);
    forall u | u in Named(labels)
      ensures u in Named(labels')
    {
      var i :| 0 <= i < |labels| && labels[i].0 == u;
      assert labels'[i].0 == u;
    }
  }

  lemma EarlySnoc(labels: seq<(string, string)>, t: string, l: string, u: string)
    ensures Early(labels + [(t, l)], u) <==> Early(labels, u) || (u == t != "_anonymous" && |Named(labels)| < 100)
  {
    var labels' := labels + [(t, l)];
    assert labels'[|labels|] == (t, l) && labels'[..|labels|] == labels;
    assert forall i :: 0 <= i < |labels| ==> labels'[i] == labels[i] && labels'[..i] == labels[..i];
  }

  lemma LabellingKeeps(seen: set<string>, labels: seq<(string, string)>, t: string)
    requires SeenIsEarly(seen, labels)
    ensures SeenIsEarly(Insert(seen, t), Labelling(labels, t))
    ensures Labelling(labels, t) == labels + [(t, LabelOf(Insert(seen, t), t))]
  {
    var labels' := Labelling(labels, t);
    var l := labels'[|labels|].1;
    NamedSnoc(labels, t, l);
    EarlySnoc(labels, t, t, t);
    if |seen| >= 100 {
      SubsetSize(seen, Named(labels));
    }
    forall u
      ensures u in Insert(seen, t) <==> Early(labels', u)
    {
      EarlySnoc(labels, t, l, u);
    }
  }

  ghost predicate Tells(s: State, y: Story) {
    && s.sessions == y.sessions && s.labels == y.labels && SeenIsEarly(s.seen, y.labels)
    && (s.holder.Free? <==> y.section.None?)
    && (s.holder.Recording? ==> y.section.value == (s.holder.key, s.holder.delta, s.holder.stage.Inserting?))
    && s.calls.Keys == y.calls.Keys
    && (forall c :: c in s.calls ==> y.calls[c] == (s.calls[c].tenant, s.calls[c].stage.Inserting?))
  }

  lemma SeenIsKnown(seen: set<string>, labels: seq<(string, string)>, t: string)
    requires SeenIsEarly(seen, labels)
    ensures Known(labels, t) <==> t == ANONYMOUS || t in seen
    ensures Known(labels, t) ==> Insert(seen, t) == seen
  {
  }

  lemma HubTells(s: State, y: Story)
    requires Tells(s, y)
    ensures Tells(Step(s, HubTick), NextStory(y, HubTick))
  {
    if s.holder.Recording? {
      SeenIsKnown(s.seen, s.labels, s.holder.key.tenant);
      LabellingKeeps(s.seen, s.labels, s.holder.key.tenant);
    }
  }

  lemma CallTells(s: State, y: Story, c: nat)
    requires Tells(s, y)
    ensures Tells(Step(s, CallTick(c)), NextStory(y, CallTick(c)))
  {
    if c in s.calls {
      SeenIsKnown(s.seen, s.labels, s.calls[c].tenant);
      LabellingKeeps(s.seen, s.labels, s.calls[c].tenant);
    }
  }

  lemma StepTells(s: State, y: Story, e: Event)
    requires Tells(s, y)
    ensures Tells(Step(s, e), NextStory(y, e))
  {
    match e
    case HubTick => HubTells(s, y);
    case CallTick(c) => CallTells(s, y, c);
    case _ =>
  }

  /** In every interleaving the sessions, the section under way, the labellings
      under way, and every label given are those of the events. */
  lemma {:induction false} MetricsAreStory(es: seq<Event>)
    ensures Tells(Run(es), StoryOf(es))
  {
    if es != [] {
      MetricsAreStory(es[..|es| - 1]);
      StepTells(Run(es[..|es| - 1]), StoryOf(es[..|es| - 1]), es[|es| - 1]);
    }
  }

  /** A tenant's label is its own name if and only if it is anonymous or was among
      the first hundred to be labelled. */
  lemma FirstHundredKeepTheirNames(es: seq<Event>, i: nat)
    requires i < |Run(es).labels|
    ensures var labels := Run(es).labels;
            labels[i].1 == if Known(labels, labels[i].0) then labels[i].0 else "_other"
  {
    MetricsAreStory(es);
    RunKeepsLabels(es);
  }
}
