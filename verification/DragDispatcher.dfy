/** The drag dispatcher as an object, with the loops that parse and marshal its
    payload. */
module DragDispatcher {
  import opened Options
  import opened DragDispatch
  import DragHistory

  method ParseItems(raws: Option<seq<RawItem>>) returns (out: seq<Item>)
    ensures out == ParsedItems(OrEmpty(raws))
  {
    out := [];
    if raws.None? {
      return;
    }
    for n := 0 to |raws.value|
      invariant out == ParsedItems(raws.value[..n])
    {
      assert raws.value[..n + 1][..n] == raws.value[..n];
      var raw := raws.value[n];
      if raw.NotADict? {
        continue;
      }
      if raw.kind.None? || raw.mime.None? {
        continue;
      }
      var data := "";
      if raw.kind.value == "string" && raw.data.Some? {
        data := raw.data.value;
      }
      out := out + [Item(raw.kind.value, raw.mime.value, data)];
    }
    assert raws.value[..|raws.value|] == raws.value;
  }

  method ParseTypes(raws: Option<seq<RawType>>) returns (out: seq<string>)
    ensures out == ParsedTypes(OrEmpty(raws))
  {
    out := [];
    if raws.None? {
      return;
    }
    for n := 0 to |raws.value|
      invariant out == ParsedTypes(raws.value[..n])
    {
      assert raws.value[..n + 1][..n] == raws.value[..n];
      if raws.value[n].Text? {
        out := out + [raws.value[n].text];
      }
    }
    assert raws.value[..|raws.value|] == raws.value;
  }

  /** One item more. */
  lemma PayloadSnoc(items: seq<Item>, item: Item)
    ensures var p, p' := Payload(items), Payload(items + [item]);
            p' == if item.kind == "file" then p.(files := p.files + 1)
                  else if item.mime == PLAIN then p.(text := Some(item.data))
                  else if item.mime == HTML then p.(html := Some(item.data))
                  else if item.mime == URI_LIST then p.(urls := p.urls + [item.data], custom := p.custom[item.mime := item.data])
                  else p.(custom := p.custom[item.mime := item.data])
  {
    var more := items + [item];
    assert more[..|items|] == items;
    CustomTypesSnoc(items, item);
  }

  lemma CustomTypesSnoc(items: seq<Item>, item: Item)
    ensures CustomTypes(items + [item])
            == CustomTypes(items) + if item.kind != "file" && item.mime != PLAIN && item.mime != HTML then {item.mime} else {}
  {
    var more := items + [item];
    assert more[|items|] == item;
    assert forall i :: 0 <= i < |items| ==> more[i] == items[i];
  }

  class CbInputDispatchDrag {
    var phase: Phase
    var cachedItems: seq<Item>
    var cachedTypes: seq<string>
    var lastWidgetPos: Point
    ghost var trace: seq<Call>
    ghost var history: History

    /** The object is at the end of a run of the machine in DragDispatch. */
    ghost predicate Valid()
      reads this
    {
      View() == Run(history)
    }

    ghost function View(): State
      reads this
    {
      State(phase, cachedItems, cachedTypes, lastWidgetPos, trace)
    }

    constructor ()
      ensures Valid() && View() == START
    {
      phase, cachedItems, cachedTypes, lastWidgetPos, trace := Idle, [], [], Point(0.0, 0.0), [];
      history := Boot;
    }

    method BuildDropData() returns (out: DropData)
      ensures out == Payload(cachedItems)
    {
      out := DropData(None, None, [], map[], 0);
      for n := 0 to |cachedItems|
        invariant out == Payload(cachedItems[..n])
      {
        var item := cachedItems[n];
        PayloadSnoc(cachedItems[..n], item);
        assert cachedItems[..n] + [item] == cachedItems[..n + 1];
        if item.kind == "file" {
          out := out.(files := out.files + 1);
          continue;
        }
        if item.mime == PLAIN {
          out := out.(text := Some(item.data));
        } else if item.mime == HTML {
          out := out.(html := Some(item.data));
        } else if item.mime == URI_LIST {
          out := out.(urls := out.urls + [item.data], custom := out.custom[item.mime := item.data]);
        } else {
          out := out.(custom := out.custom[item.mime := item.data]);
        }
      }
      assert cachedItems[..|cachedItems|] == cachedItems;
    }

    method DispatchDragStart(widget: bool, at: Option<Point>, items: Option<seq<RawItem>>, types: Option<seq<RawType>>)
      modifies this
      ensures View() == DragDispatch.DispatchDragStart(old(View()), widget, at, items, types)
      ensures history == Then(old(history), DragStart(widget, at, items, types)) && (old(Valid()) ==> Valid())
    {
      history := Then(history, DragStart(widget, at, items, types));
      if !widget {
        return;
      }
      if at.None? {
        return;
      }
      if phase != Idle {
        trace := trace + [Leave(lastWidgetPos)];
        phase := Idle;
        cachedItems, cachedTypes := [], [];
      }
      cachedItems := ParseItems(items);
      cachedTypes := ParseTypes(types);
      var payload := BuildDropData();
      lastWidgetPos := at.value;
      trace := trace + [Enter(payload, at.value)];
      phase := Active;
    }

    method DispatchDragOver(widget: bool, at: Option<Point>)
      modifies this
      ensures View() == DragDispatch.DispatchDragOver(old(View()), widget, at)
      ensures history == Then(old(history), DragOver(widget, at)) && (old(Valid()) ==> Valid())
    {
      history := Then(history, DragOver(widget, at));
      if phase != Active {
        return;
      }
      if !widget {
        return;
      }
      if at.None? {
        return;
      }
      lastWidgetPos := at.value;
      trace := trace + [Over(at.value)];
    }

    method DispatchDrop(widget: bool, at: Option<Point>, items: Option<seq<RawItem>>, types: Option<seq<RawType>>)
      modifies this
      ensures View() == DragDispatch.DispatchDrop(old(View()), widget, at, items, types)
      ensures history == Then(old(history), DropOn(widget, at, items, types)) && (old(Valid()) ==> Valid())
    {
      history := Then(history, DropOn(widget, at, items, types));
      if !widget {
        return;
      }
      cachedItems := ParseItems(items);
      cachedTypes := ParseTypes(types);
      if at.None? {
        return;
      }
      var payload := BuildDropData();
      lastWidgetPos := at.value;
      trace := trace + [Drop(payload, at.value)];
      phase := AwaitingEnd;
    }

    method DispatchDragEnd(widget: bool, success: Option<bool>)
      modifies this
      ensures View() == DragDispatch.DispatchDragEnd(old(View()), widget, success)
      ensures history == Then(old(history), DragEnd(widget, success)) && (old(Valid()) ==> Valid())
    {
      history := Then(history, DragEnd(widget, success));
      var ok := success.Some? && success.value;
      match phase {
        case Idle =>
          return;
        case Active =>
          if widget {
            trace := trace + [Leave(lastWidgetPos)];
          }
        case AwaitingEnd =>
          if !ok {
            if widget {
              trace := trace + [Leave(lastWidgetPos)];
            }
          }
      }
      phase := Idle;
      cachedItems, cachedTypes := [], [];
    }
  }

  /** What a valid dispatcher object has sent is well nested exactly when no drag
      was started over a dangling one, and carries the envelopes' own payloads. */
  lemma ObjectIsWellNested(d: CbInputDispatchDrag)
    requires d.Valid()
    ensures d.trace == DragHistory.CallsOf(d.history)
    ensures WellNested(d.trace) <==> !Collides(d.history)
    ensures DropPayloads(d.trace) == DropsAsked(d.history)
  {
    DragHistory.TraceIsHistory(d.history);
    WellNestedExactly(d.history);
    PayloadsAreTheEnvelopes(d.history);
  }
}
