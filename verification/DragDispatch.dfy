/** The drag dispatcher: a phase machine that turns drag envelopes into calls on
    the drag target, of which `trace` is the log.

    `widget` says whether a render widget can be resolved when an envelope is
    handled.  Points are in widget space. */
module DragDispatch {
  import opened Options

  datatype Point = Point(x: real, y: real)

  /** An entry of `items` as it comes off the wire. */
  datatype RawItem = NotADict | Dict(kind: Option<string>, mime: Option<string>, data: Option<string>)
  datatype RawType = Text(text: string) | NotText

  datatype Item = Item(kind: string, mime: string, data: string)

  datatype DropData = DropData(text: Option<string>, html: Option<string>, urls: seq<string>, custom: map<string, string>,
                               files: nat)

  datatype Call = Enter(payload: DropData, at: Point) | Over(at: Point) | Leave(at: Point) | Drop(payload: DropData, at: Point)

  datatype Phase = Idle | Active | AwaitingEnd

  datatype State = State(phase: Phase, items: seq<Item>, types: seq<string>, last: Point, trace: seq<Call>)

  const START := State(Idle, [], [], Point(0.0, 0.0), [])
  const PLAIN := "text/plain"
  const HTML := "text/html"
  const URI_LIST := "text/uri-list"

  // ----- the payload -----

  /** An item needs a kind and a type; only strings carry data. */
  function ParsedItem(raw: RawItem): Option<Item> {
    if raw.NotADict? || raw.kind.None? || raw.mime.None? then None
    else Some(Item(raw.kind.value, raw.mime.value, if raw.kind.value == "string" && raw.data.Some? then raw.data.value else ""))
  }

  function ParsedItems(raws: seq<RawItem>): seq<Item> {
    if raws == [] then []
    else ParsedItems(raws[..|raws| - 1]) + match ParsedItem(raws[|raws| - 1]) case None => [] case Some(item) => [item]
  }

  function ParsedTypes(raws: seq<RawType>): seq<string> {
    if raws == [] then []
    else ParsedTypes(raws[..|raws| - 1]) + match raws[|raws| - 1] case Text(t) => [t] case NotText => []
  }

  function OrEmpty<T>(xs: Option<seq<T>>): seq<T> { if xs.None? then [] else xs.value }

  /** The data of the last item of a type, files aside. */
  function LastOf(items: seq<Item>, mime: string): Option<string> {
    if items == [] then None
    else
      var item := items[|items| - 1];
      if item.kind != "file" && item.mime == mime then Some(item.data) else LastOf(items[..|items| - 1], mime)
  }

  function UrlsOf(items: seq<Item>): seq<string> {
    if items == [] then []
    else
      var item := items[|items| - 1];
      UrlsOf(items[..|items| - 1]) + if item.kind != "file" && item.mime == URI_LIST then [item.data] else []
  }

  function FilesOf(items: seq<Item>): nat {
    if items == [] then 0 else FilesOf(items[..|items| - 1]) + if items[|items| - 1].kind == "file" then 1 else 0
  }

  /** The types that go to the custom data. */
  function CustomTypes(items: seq<Item>): set<string> {
    set i | 0 <= i < |items| && items[i].kind != "file" && items[i].mime != PLAIN && items[i].mime != HTML :: items[i].mime
  }

  /** Later items of a type win, every URL is kept in order, and files are only
      counted. */
  function Payload(items: seq<Item>): DropData {
    DropData(LastOf(items, PLAIN), LastOf(items, HTML), UrlsOf(items),
             map mime | mime in CustomTypes(items) :: LastOr(items, mime), FilesOf(items))
  }

  function LastOr(items: seq<Item>, mime: string): string {
    if LastOf(items, mime).Some? then LastOf(items, mime).value else ""
  }

  // ----- the dispatcher -----

  datatype Event =
    | DragStart(widget: bool, at: Option<Point>, items: Option<seq<RawItem>>, types: Option<seq<RawType>>)
    | DragOver(widget: bool, at: Option<Point>)
    | DropOn(widget: bool, at: Option<Point>, items: Option<seq<RawItem>>, types: Option<seq<RawType>>)
    | DragEnd(widget: bool, success: Option<bool>)

  function DispatchDragStart(s: State, widget: bool, at: Option<Point>, items: Option<seq<RawItem>>, types: Option<seq<RawType>>): State {
    if !widget || at.None? then s
    else
      var cleared := if s.phase == Idle then s.trace else s.trace + [Leave(s.last)];
      var parsed := ParsedItems(OrEmpty(items));
      State(Active, parsed, ParsedTypes(OrEmpty(types)), at.value, cleared + [Enter(Payload(parsed), at.value)])
  }

  function DispatchDragOver(s: State, widget: bool, at: Option<Point>): State {
    if s.phase != Active || !widget || at.None? then s
    else s.(last := at.value, trace := s.trace + [Over(at.value)])
  }

  /** The payload is parsed, and kept, before the coordinates are looked at. */
  function DispatchDrop(s: State, widget: bool, at: Option<Point>, items: Option<seq<RawItem>>, types: Option<seq<RawType>>): State {
    if !widget then s
    else
      var parsed := ParsedItems(OrEmpty(items));
      var s1 := s.(items := parsed, types := ParsedTypes(OrEmpty(types)));
      if at.None? then s1
      else s1.(phase := AwaitingEnd, last := at.value, trace := s.trace + [Drop(Payload(parsed), at.value)])
  }

  function DispatchDragEnd(s: State, widget: bool, success: Option<bool>): State {
    if s.phase == Idle then s
    else
      var leaves := widget && (s.phase == Active || success != Some(true));
      State(Idle, [], [], s.last, if leaves then s.trace + [Leave(s.last)] else s.trace)
  }

  function Step(s: State, e: Event): State {
    match e
    case DragStart(widget, at, items, types) => DispatchDragStart(s, widget, at, items, types)
    case DragOver(widget, at) => DispatchDragOver(s, widget, at)
    case DropOn(widget, at, items, types) => DispatchDrop(s, widget, at, items, types)
    case DragEnd(widget, success) => DispatchDragEnd(s, widget, success)
  }

  datatype History = Boot | Then(past: History, event: Event)

  function Run(h: History): State {
    match h
    case Boot => START
    case Then(past, e) => Step(Run(past), e)
  }

  // ----- the grammar of the trace -----

  /** An Enter has not been answered by a Leave or a Drop. */
  predicate Open(trace: seq<Call>) {
    if trace == [] then false
    else
      match trace[|trace| - 1]
      case Enter(_, _) => true
      case Over(_) => Open(trace[..|trace| - 1])
      case Leave(_) => false
      case Drop(_, _) => false
  }

  /** Over comes only inside a drag, and drags do not overlap. */
  predicate WellNested(trace: seq<Call>) {
    trace == []
    || (var before, call := trace[..|trace| - 1], trace[|trace| - 1];
        WellNested(before) && (call.Over? ==> Open(before)) && (call.Enter? ==> !Open(before)))
  }

  lemma TraceSnoc(trace: seq<Call>, call: Call)
    ensures Open(trace + [call]) == (call.Enter? || (call.Over? && Open(trace)))
    ensures WellNested(trace + [call]) == (WellNested(trace) && (call.Over? ==> Open(trace)) && (call.Enter? ==> !Open(trace)))
  {
    assert (trace + [call])[..|trace|] == trace;
  }

  predicate StartDispatched(e: Event) { e.DragStart? && e.widget && e.at.Some? }
  predicate DropDispatched(e: Event) { e.DropOn? && e.widget && e.at.Some? }

  /** The last drag was ended with no widget to send its Leave to, and neither a
      drag nor a drop has been dispatched since. */
  predicate Dangling(h: History) {
    h.Then?
    && !StartDispatched(h.event) && !DropDispatched(h.event)
    && (Dangling(h.past) || (h.event.DragEnd? && !h.event.widget && Run(h.past).phase == Active))
  }

  /** A drag was started over one left dangling. */
  predicate Collides(h: History) {
    h.Then? && (Collides(h.past) || (StartDispatched(h.event) && Dangling(h.past)))
  }

  lemma StartGrammar(s: State, e: Event)
    requires StartDispatched(e)
    ensures Open(Step(s, e).trace)
    ensures WellNested(Step(s, e).trace) <==> WellNested(s.trace) && (s.phase == Idle ==> !Open(s.trace))
  {
    var cleared := if s.phase == Idle then s.trace else s.trace + [Leave(s.last)];
    TraceSnoc(s.trace, Leave(s.last));
    TraceSnoc(cleared, Enter(Payload(ParsedItems(OrEmpty(e.items))), e.at.value));
  }

  lemma OtherGrammar(s: State, e: Event)
    requires !StartDispatched(e) && (s.phase == Active ==> Open(s.trace))
    ensures var s' := Step(s, e);
            && (WellNested(s'.trace) <==> WellNested(s.trace))
            && Open(s'.trace) == (Open(s.trace) && !DropDispatched(e) && !(e.DragEnd? && |s'.trace| > |s.trace|))
  {
    match e
    case DragOver(_, at) =>
      if at.Some? {
        TraceSnoc(s.trace, Over(at.value));
      }
    case DropOn(_, at, items, _) =>
      if at.Some? {
        TraceSnoc(s.trace, Drop(Payload(ParsedItems(OrEmpty(items))), at.value));
      }
    case DragEnd(_, _) => TraceSnoc(s.trace, Leave(s.last));
    case _ =>
  }

  /** The target is open while a drag is active or dangling, and the calls are
      well nested exactly when no drag was started over a dangling one. */
  lemma {:induction false} WellNestedExactly(h: History)
    ensures Open(Run(h).trace) <==> Run(h).phase == Active || Dangling(h)
    ensures Dangling(h) ==> Run(h).phase == Idle
    ensures WellNested(Run(h).trace) <==> !Collides(h)
  {
    if h.Then? {
      WellNestedExactly(h.past);
      if StartDispatched(h.event) {
        StartGrammar(Run(h.past), h.event);
      } else {
        OtherGrammar(Run(h.past), h.event);
      }
    }
  }

  ghost predicate AlwaysResolvable(h: History) {
    h.Then? ==> h.event.widget && AlwaysResolvable(h.past)
  }

  /** Against a widget that can always be resolved the calls are well nested. */
  lemma {:induction false} ResolvableIsWellNested(h: History)
    requires AlwaysResolvable(h)
    ensures WellNested(Run(h).trace) && !Dangling(h)
  {
    if h.Then? {
      ResolvableIsWellNested(h.past);
      WellNestedExactly(h.past);
    }
    WellNestedExactly(h);
  }

  /** A drag ended while the widget was gone makes the next Enter a second one. */
  lemma LostWidgetOverlaps(at: Point)
    ensures var start := DragStart(true, Some(at), None, None);
            var h := Then(Then(Then(Boot, start), DragEnd(false, Some(false))), start);
            && !WellNested(Run(h).trace)
            && |Run(h).trace| == 2 && Run(h).trace[0].Enter? && Run(h).trace[1].Enter?
  {
    var start := DragStart(true, Some(at), None, None);
    var h1 := Then(Boot, start);
    var h2 := Then(h1, DragEnd(false, Some(false)));
    assert Run(h1).phase == Active && |Run(h1).trace| == 1;
    assert Dangling(h2) && Run(h2).trace == Run(h1).trace;
    WellNestedExactly(Then(h2, start));
  }

  // ----- what the calls carry -----

  function DropPayloads(trace: seq<Call>): seq<DropData> {
    if trace == [] then []
    else DropPayloads(trace[..|trace| - 1]) + match trace[|trace| - 1] case Drop(p, _) => [p] case _ => []
  }

  function EnterPayloads(trace: seq<Call>): seq<DropData> {
    if trace == [] then []
    else EnterPayloads(trace[..|trace| - 1]) + match trace[|trace| - 1] case Enter(p, _) => [p] case _ => []
  }

  /** The payloads of the drop envelopes dispatched, read off the history. */
  function DropsAsked(h: History): seq<DropData> {
    match h
    case Boot => []
    case Then(past, e) =>
      DropsAsked(past) + if DropDispatched(e) then [Payload(ParsedItems(OrEmpty(e.items)))] else []
  }

  function EntersAsked(h: History): seq<DropData> {
    match h
    case Boot => []
    case Then(past, e) =>
      EntersAsked(past) + if StartDispatched(e) then [Payload(ParsedItems(OrEmpty(e.items)))] else []
  }

  lemma PayloadsSnoc(trace: seq<Call>, call: Call)
    ensures DropPayloads(trace + [call]) == DropPayloads(trace) + if call.Drop? then [call.payload] else []
    ensures EnterPayloads(trace + [call]) == EnterPayloads(trace) + if call.Enter? then [call.payload] else []
  {
    assert (trace + [call])[..|trace|] == trace;
  }

  lemma StepPayloads(s: State, e: Event)
    ensures DropPayloads(Step(s, e).trace) == DropPayloads(s.trace) + if DropDispatched(e) then [Payload(ParsedItems(OrEmpty(e.items)))] else []
    ensures EnterPayloads(Step(s, e).trace) == EnterPayloads(s.trace) + if StartDispatched(e) then [Payload(ParsedItems(OrEmpty(e.items)))] else []
  {
    match e
    case DragStart(_, at, items, _) =>
      if StartDispatched(e) {
        var cleared := if s.phase == Idle then s.trace else s.trace + [Leave(s.last)];
        PayloadsSnoc(s.trace, Leave(s.last));
        PayloadsSnoc(cleared, Enter(Payload(ParsedItems(OrEmpty(items))), at.value));
      }
    case DragOver(_, at) =>
      if at.Some? {
        PayloadsSnoc(s.trace, Over(at.value));
      }
    case DropOn(_, at, items, _) =>
      if at.Some? {
        PayloadsSnoc(s.trace, Drop(Payload(ParsedItems(OrEmpty(items))), at.value));
      }
    case DragEnd(_, _) => PayloadsSnoc(s.trace, Leave(s.last));
  }

  /** Every Drop carries its own envelope's items, and every Enter its own start's,
      in order, none lost and none repeated. */
  lemma {:induction false} PayloadsAreTheEnvelopes(h: History)
    ensures DropPayloads(Run(h).trace) == DropsAsked(h)
    ensures EnterPayloads(Run(h).trace) == EntersAsked(h)
  {
    if h.Then? {
      PayloadsAreTheEnvelopes(h.past);
      StepPayloads(Run(h.past), h.event);
    }
  }

  ghost predicate PointsOk(s: State) {
    && (s.phase != Idle ==> s.trace != [])
    && (s.trace != [] ==> s.last == s.trace[|s.trace| - 1].at)
    && LeavesFollow(s.trace)
  }

  ghost predicate LeavesFollow(trace: seq<Call>) {
    forall i :: 0 <= i < |trace| && trace[i].Leave? ==> i > 0 && trace[i].at == trace[i - 1].at
  }

  lemma FollowSnoc(trace: seq<Call>, call: Call)
    requires LeavesFollow(trace) && (call.Leave? ==> trace != [] && trace[|trace| - 1].at == call.at)
    ensures LeavesFollow(trace + [call])
  {
  }

  lemma StepKeepsPoints(s: State, e: Event)
    requires PointsOk(s)
    ensures PointsOk(Step(s, e))
  {
    if StartDispatched(e) {
      var cleared := if s.phase == Idle then s.trace else s.trace + [Leave(s.last)];
      if s.phase != Idle {
        FollowSnoc(s.trace, Leave(s.last));
      }
      FollowSnoc(cleared, Enter(Payload(ParsedItems(OrEmpty(e.items))), e.at.value));
    }
  }

  /** A Leave goes to the point of the call before it, which there always is. */
  lemma {:induction false} LeavesAtTheLastPoint(h: History)
    ensures PointsOk(Run(h))
  {
    if h.Then? {
      LeavesAtTheLastPoint(h.past);
      StepKeepsPoints(Run(h.past), h.event);
    }
  }
}
