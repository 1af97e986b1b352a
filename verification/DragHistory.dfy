/** The drag dispatcher read off its envelopes: every call it makes, and what the
    payloads hold, item by item. */
module DragHistory {
  import opened Options
  import opened DragDispatch

  // ----- the calls -----

  /** Active from a start on, awaiting its end from a drop on, idle from an end
      on. */
  function PhaseOf(h: History): Phase {
    if h.Boot? then Idle
    else if StartDispatched(h.event) then Active
    else if DropDispatched(h.event) then AwaitingEnd
    else if h.event.DragEnd? then Idle
    else PhaseOf(h.past)
  }

  predicate OverDispatched(past: History, e: Event) {
    e.DragOver? && e.widget && e.at.Some? && PhaseOf(past) == Active
  }

  /** The point of the last start, over or drop dispatched. */
  function LastPoint(h: History): Point {
    if h.Boot? then Point(0.0, 0.0)
    else if StartDispatched(h.event) || DropDispatched(h.event) || OverDispatched(h.past, h.event) then h.event.at.value
    else LastPoint(h.past)
  }

  /** An end leaves the target when no drop has come, or when the drop is said, or
      not said not, to have failed. */
  predicate EndLeaves(past: History, e: Event) {
    && e.DragEnd? && e.widget
    && (PhaseOf(past) == Active || (PhaseOf(past) == AwaitingEnd && (e.success.None? || !e.success.value)))
  }

  function CallsFor(past: History, e: Event): seq<Call> {
    if StartDispatched(e) then
      var enter := [Enter(Payload(ParsedItems(OrEmpty(e.items))), e.at.value)];
      if PhaseOf(past) == Idle then enter else [Leave(LastPoint(past))] + enter
    else if OverDispatched(past, e) then [Over(e.at.value)]
    else if DropDispatched(e) then [Drop(Payload(ParsedItems(OrEmpty(e.items))), e.at.value)]
    else if EndLeaves(past, e) then [Leave(LastPoint(past))]
    else []
  }

  function CallsOf(h: History): seq<Call> {
    if h.Boot? then [] else CallsOf(h.past) + CallsFor(h.past, h.event)
  }

  /** The items kept: of the last start dispatched, or the last drop that found a
      widget, with or without coordinates; none after an end. */
  function ItemsOf(h: History): seq<Item> {
    if h.Boot? then []
    else if StartDispatched(h.event) || (h.event.DropOn? && h.event.widget) then ParsedItems(OrEmpty(h.event.items))
    else if h.event.DragEnd? && PhaseOf(h.past) != Idle then []
    else ItemsOf(h.past)
  }

  /** The types kept, likewise. */
  function TypesOf(h: History): seq<string> {
    if h.Boot? then []
    else if StartDispatched(h.event) || (h.event.DropOn? && h.event.widget) then ParsedTypes(OrEmpty(h.event.types))
    else if h.event.DragEnd? && PhaseOf(h.past) != Idle then []
    else TypesOf(h.past)
  }

  /** Every call, with its point and payload, is the one its envelope asks for. */
  lemma {:induction false} TraceIsHistory(h: History)
    ensures Run(h).trace == CallsOf(h)
    ensures Run(h).phase == PhaseOf(h) && Run(h).last == LastPoint(h) && Run(h).items == ItemsOf(h) && Run(h).types == TypesOf(h)
  {
    if h.Then? {
      TraceIsHistory(h.past);
      StepCalls(h.past, h.event);
      StepReadings(h.past, h.event);
    }
  }

  lemma StepCalls(h: History, e: Event)
    requires Run(h).phase == PhaseOf(h) && Run(h).last == LastPoint(h)
    ensures Step(Run(h), e).trace == Run(h).trace + CallsFor(h, e)
  {
    if StartDispatched(e) {
      var enter := Enter(Payload(ParsedItems(OrEmpty(e.items))), e.at.value);
      assert Run(h).trace + [Leave(LastPoint(h))] + [enter] == Run(h).trace + ([Leave(LastPoint(h))] + [enter]);
    }
  }

  lemma StepReadings(h: History, e: Event)
    requires Run(h).phase == PhaseOf(h) && Run(h).last == LastPoint(h) && Run(h).items == ItemsOf(h) && Run(h).types == TypesOf(h)
    ensures var s, h' := Step(Run(h), e), Then(h, e);
            s.phase == PhaseOf(h') && s.last == LastPoint(h') && s.items == ItemsOf(h') && s.types == TypesOf(h')
  {
  }

  // ----- the payload -----

  /** An item as it should be kept. */
  predicate Keeps(raw: RawItem) { raw.Dict? && raw.kind.Some? && raw.mime.Some? }

  ghost predicate KeptAs(raw: RawItem, item: Item) {
    && Keeps(raw) && item.kind == raw.kind.value && item.mime == raw.mime.value
    && (item.kind == "string" && raw.data.Some? ==> item.data == raw.data.value)
    && (item.kind != "string" || raw.data.None? ==> item.data == "")
  }

  /** ix are the indices at which `kept` was kept, in order. */
  ghost predicate KeptAt(raws: seq<RawItem>, kept: seq<Item>, ix: seq<int>) {
    && |ix| == |kept|
    && (forall k :: 0 <= k < |ix| ==> 0 <= ix[k] < |raws| && KeptAs(raws[ix[k]], kept[k]))
    && (forall k, l :: 0 <= k < l < |ix| ==> ix[k] < ix[l])
    && (forall i :: 0 <= i < |raws| ==> (i in ix <==> Keeps(raws[i])))
  }

  lemma KeptMore(raws: seq<RawItem>, raw: RawItem, kept: seq<Item>, ix: seq<int>, item: Item)
    requires KeptAt(raws, kept, ix)
    ensures if Keeps(raw) then KeptAs(raw, item) ==> KeptAt(raws + [raw], kept + [item], ix + [|raws|])
            else KeptAt(raws + [raw], kept, ix)
  {
    var raws' := raws + [raw];
    assert forall i :: 0 <= i < |raws| ==> raws'[i] == raws[i];
  }

  lemma ParsedMore(raws: seq<RawItem>, raw: RawItem)
    ensures Keeps(raw) <==> ParsedItem(raw).Some?
    ensures Keeps(raw) ==> KeptAs(raw, ParsedItem(raw).value)
    ensures ParsedItems(raws + [raw]) == if Keeps(raw) then ParsedItems(raws) + [ParsedItem(raw).value] else ParsedItems(raws)
  {
    assert (raws + [raw])[..|raws|] == raws;
  }

  /** Exactly the items with a kind and a type are kept, in order; only strings keep
      data. */
  lemma {:induction false} ItemsKeptExactly(raws: seq<RawItem>) returns (ix: seq<int>)
    ensures KeptAt(raws, ParsedItems(raws), ix)
  {
    ix := [];
    if raws != [] {
      var init, raw := raws[..|raws| - 1], raws[|raws| - 1];
      ix := ItemsKeptExactly(init);
      assert init + [raw] == raws;
      ParsedMore(init, raw);
      if Keeps(raw) {
        KeptMore(init, raw, ParsedItems(init), ix, ParsedItem(raw).value);
        ix := ix + [|init|];
      } else {
        KeptMore(init, raw, ParsedItems(init), ix, Item("", "", ""));
      }
    }
  }

  /** Exactly the entries that are strings are kept, in order. */
  ghost predicate TypesAt(raws: seq<RawType>, kept: seq<string>, ix: seq<int>) {
    && |ix| == |kept|
    && (forall k :: 0 <= k < |ix| ==> 0 <= ix[k] < |raws| && raws[ix[k]] == Text(kept[k]))
    && (forall k, l :: 0 <= k < l < |ix| ==> ix[k] < ix[l])
    && (forall i :: 0 <= i < |raws| ==> (i in ix <==> raws[i].Text?))
  }

  lemma TypesMore(raws: seq<RawType>, raw: RawType, kept: seq<string>, ix: seq<int>)
    requires TypesAt(raws, kept, ix)
    ensures if raw.Text? then TypesAt(raws + [raw], kept + [raw.text], ix + [|raws|]) else TypesAt(raws + [raw], kept, ix)
  {
    var raws' := raws + [raw];
    assert forall i :: 0 <= i < |raws| ==> raws'[i] == raws[i];
  }

  lemma {:induction false} TypesKeptExactly(raws: seq<RawType>) returns (ix: seq<int>)
    ensures TypesAt(raws, ParsedTypes(raws), ix)
  {
    ix := [];
    if raws != [] {
      var init, raw := raws[..|raws| - 1], raws[|raws| - 1];
      ix := TypesKeptExactly(init);
      TypesMore(init, raw, ParsedTypes(init), ix);
      assert init + [raw] == raws;
      if raw.Text? {
        ix := ix + [|init|];
      }
    }
  }

  /** Item i is text of this type. */
  predicate IsText(items: seq<Item>, i: int, mime: string) {
    0 <= i < |items| && items[i].kind != "file" && items[i].mime == mime
  }

  /** `data` is the data of the last item of this type, if there is one. */
  ghost predicate IsLast(items: seq<Item>, mime: string, data: Option<string>) {
    if data.None? then forall i :: !IsText(items, i, mime)
    else exists i :: IsText(items, i, mime) && items[i].data == data.value && forall j :: i < j ==> !IsText(items, j, mime)
  }

  lemma {:induction false} LastOfIsLast(items: seq<Item>, mime: string)
    ensures IsLast(items, mime, LastOf(items, mime))
  {
    if items != [] {
      var last, init := |items| - 1, items[..|items| - 1];
      LastOfIsLast(init, mime);
      assert forall i :: i != last ==> IsText(items, i, mime) == IsText(init, i, mime);
      if IsText(items, last, mime) {
        assert items[last].data == LastOf(items, mime).value;
      } else if LastOf(init, mime).Some? {
        var i :| IsText(init, i, mime) && init[i].data == LastOf(init, mime).value && forall j :: i < j ==> !IsText(init, j, mime);
        assert IsText(items, i, mime) && items[i].data == LastOf(items, mime).value;
        forall j | i < j ensures !IsText(items, j, mime) {
          assert !IsText(init, j, mime);
        }
      }
    }
  }

  /** The URL items, in order. */
  ghost predicate UrlsAt(items: seq<Item>, urls: seq<string>, ix: seq<int>) {
    && |ix| == |urls|
    && (forall k :: 0 <= k < |ix| ==> 0 <= ix[k] < |items| && urls[k] == items[ix[k]].data)
    && (forall k, l :: 0 <= k < l < |ix| ==> ix[k] < ix[l])
    && (forall i :: 0 <= i < |items| ==> (i in ix <==> items[i].kind != "file" && items[i].mime == "text/uri-list"))
  }

  lemma UrlsMore(items: seq<Item>, item: Item, urls: seq<string>, ix: seq<int>)
    requires UrlsAt(items, urls, ix)
    ensures if item.kind != "file" && item.mime == "text/uri-list" then UrlsAt(items + [item], urls + [item.data], ix + [|items|])
            else UrlsAt(items + [item], urls, ix)
  {
    var items' := items + [item];
    assert forall i :: 0 <= i < |items| ==> items'[i] == items[i];
  }

  lemma {:induction false} UrlIndices(items: seq<Item>) returns (ix: seq<int>)
    ensures UrlsAt(items, UrlsOf(items), ix)
  {
    ix := [];
    if items != [] {
      var init, item := items[..|items| - 1], items[|items| - 1];
      ix := UrlIndices(init);
      UrlsMore(init, item, UrlsOf(init), ix);
      assert init + [item] == items;
      if item.kind != "file" && item.mime == "text/uri-list" {
        ix := ix + [|init|];
      }
    }
  }

  lemma {:induction false} FilesAre(items: seq<Item>)
    ensures FilesOf(items) == |set i | 0 <= i < |items| && items[i].kind == "file"|
  {
    var all := set i | 0 <= i < |items| && items[i].kind == "file";
    if items == [] {
      assert all == {};
    } else {
      var last, init := |items| - 1, items[..|items| - 1];
      FilesAre(init);
      var before := set i | 0 <= i < |init| && init[i].kind == "file";
      if items[last].kind == "file" {
        assert all == before + {last};
      } else {
        assert all == before;
      }
    }
  }

  /** The custom data: an entry for every other type of text, the last of its kind. */
  lemma CustomIsLast(items: seq<Item>, mime: string)
    ensures mime in Payload(items).custom <==> mime != "text/plain" && mime != "text/html" && exists i :: IsText(items, i, mime)
    ensures mime in Payload(items).custom ==> IsLast(items, mime, Some(Payload(items).custom[mime]))
  {
    LastOfIsLast(items, mime);
    if mime in Payload(items).custom {
      var i :| 0 <= i < |items| && items[i].kind != "file" && items[i].mime == mime;
      assert IsText(items, i, mime);
    }
    if mime != "text/plain" && mime != "text/html" && exists i :: IsText(items, i, mime) {
      var i :| IsText(items, i, mime);
      assert items[i].mime in CustomTypes(items);
    }
  }

  /** What a page is handed: the last text and HTML, every URL in order, one file
      for each file item, and the last data of every other type. */
  lemma PayloadExactly(items: seq<Item>) returns (ix: seq<int>)
    ensures var p := Payload(items);
            && IsLast(items, "text/plain", p.text) && IsLast(items, "text/html", p.html) && UrlsAt(items, p.urls, ix)
            && p.files == |set i | 0 <= i < |items| && items[i].kind == "file"|
            && (forall mime :: mime in p.custom <==>
                  mime != "text/plain" && mime != "text/html" && exists i :: IsText(items, i, mime))
            && (forall mime :: mime in p.custom ==> IsLast(items, mime, Some(p.custom[mime])))
  {
    LastOfIsLast(items, "text/plain");
    LastOfIsLast(items, "text/html");
    ix := UrlIndices(items);
    FilesAre(items);
    forall mime: string
      ensures mime in Payload(items).custom <==> mime != "text/plain" && mime != "text/html" && exists i :: IsText(items, i, mime)
      ensures mime in Payload(items).custom ==> IsLast(items, mime, Some(Payload(items).custom[mime]))
    {
      CustomIsLast(items, mime);
    }
  }
}
