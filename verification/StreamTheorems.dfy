/** The translated stream is well formed and loses nothing, for every chunk sequence and map order. */
module StreamTheorems {
  import opened Prelude
  import opened AnthropicStream

  // ---- what a well-formed Anthropic stream is ----

  datatype Kind = Text | Tool

  // A reader part-way through the blocks: open blocks by kind, stopped blocks, and whether any has stopped.
  datatype Reader = Reader(open: map<int, Kind>, stopped: set<int>, closing: bool)

  const START := Reader(map[], {}, false)

  // A block starts once, takes deltas of its own kind while open, and stops once; no start or delta
  // comes after the first stop. No other event belongs between message_start and message_delta.
  function Read(r: Reader, e: Event): Option<Reader> {
    match e
    case TextStart(i) => Begin(r, i, Text)
    case ToolStart(i, _, _) => Begin(r, i, Tool)
    case TextDelta(i, _) => if !r.closing && i in r.open && r.open[i] == Text then Some(r) else None
    case JsonDelta(i, _) => if !r.closing && i in r.open && r.open[i] == Tool then Some(r) else None
    case BlockStop(i) =>
      if i in r.open then Some(Reader(r.open - {i}, r.stopped + {i}, true)) else None
    case _ => None
  }

  function Begin(r: Reader, i: int, kind: Kind): Option<Reader> {
    if r.closing || i in r.open || i in r.stopped then None else Some(r.(open := r.open[i := kind]))
  }

  function ReadAll(r: Reader, events: seq<Event>): Option<Reader> {
    if events == [] then Some(r)
    else
      match ReadAll(r, events[..|events| - 1])
      case None => None
      case Some(q) => Read(q, events[|events| - 1])
  }

  /** One message_start, the blocks, every block stopped, then message_delta and message_stop. */
  ghost predicate WellFormed(model: string, events: seq<Event>) {
    && |events| >= 3
    && events[0] == MessageStart(model)
    && events[|events| - 2].MessageDelta? && events[|events| - 1] == MessageStop
    && var end := ReadAll(START, events[1..|events| - 2]);
       end.Some? && end.value.open == map[]
  }

  lemma ReadOneMore(r: Reader, events: seq<Event>, e: Event)
    ensures ReadAll(r, events + [e]) ==
      match ReadAll(r, events) { case None => None case Some(q) => Read(q, e) }
  {
    assert (events + [e])[..|events|] == events;
  }

  lemma {:induction false} ReadInTwo(r: Reader, first: seq<Event>, second: seq<Event>)
    ensures ReadAll(r, first + second) ==
      match ReadAll(r, first) { case None => None case Some(q) => ReadAll(q, second) }
  {
    if second == [] {
      assert first + second == first;
    } else {
      var n := |second| - 1;
      ReadInTwo(r, first, second[..n]);
      assert (first + second)[..|first + second| - 1] == first + second[..n];
    }
  }

  // ---- the state between chunks ----

  ghost predicate Distinct(s: State) {
    && -1 <= s.text < s.next && 0 <= s.next
    && (forall t :: t in s.tools ==> 0 <= s.tools[t].block < s.next && s.tools[t].block != s.text)
    && (forall t, u :: t in s.tools && u in s.tools && t != u ==> s.tools[t].block != s.tools[u].block)
  }

  // The blocks a reader has open: the started slots' blocks and the text block.
  ghost function ToolBlocks(tools: map<int, Slot>): map<int, Kind> {
    map t | t in tools && tools[t].started :: tools[t].block := Tool
  }

  ghost function Opened(s: State): map<int, Kind> {
    if s.text >= 0 then ToolBlocks(s.tools)[s.text := Text] else ToolBlocks(s.tools)
  }

  ghost predicate Readable(s: State) {
    Distinct(s) && ReadAll(START, s.out) == Some(Reader(Opened(s), {}, false))
  }

  lemma TextIsReadable(s: State, content: string)
    requires Readable(s)
    ensures Readable(OnText(s, content))
  {
    var t := OnText(s, content);
    if content != "" {
      if s.text < 0 {
        assert Opened(t) == Opened(s)[s.next := Text];
        ReadOneMore(START, s.out, TextStart(s.next));
        ReadOneMore(START, s.out + [TextStart(s.next)], TextDelta(s.next, content));
        assert t.out == s.out + [TextStart(s.next)] + [TextDelta(s.next, content)];
      } else {
        ReadOneMore(START, s.out, TextDelta(s.text, content));
      }
    }
  }

  lemma ToolIsDistinct(s: State, d: ToolDelta)
    requires Distinct(s)
    ensures Distinct(OnTool(s, d))
  {
  }

  // Updating a slot, without stopping it or moving it, opens its block if it is started.
  lemma UpdatedSlot(tools: map<int, Slot>, k: int, slot: Slot)
    requires k in tools && tools[k].started ==> slot.started && slot.block == tools[k].block
    ensures ToolBlocks(tools[k := slot]) ==
      if slot.started then ToolBlocks(tools)[slot.block := Tool] else ToolBlocks(tools)
  {
    var more := tools[k := slot];
    assert slot.started ==> k in more && more[k].started;
    forall t | t in tools && tools[t].started ensures tools[t].block in ToolBlocks(more) {
      assert t in more && more[t].started && more[t].block == tools[t].block;
    }
  }

  // A tool delta opens one more block if it starts its slot, and none otherwise.
  lemma ToolOpens(s: State, d: ToolDelta)
    requires Distinct(s)
    ensures var slot := SlotFor(s, d);
      Opened(OnTool(s, d)) == if StartsNow(slot, d) then Opened(s)[slot.block := Tool] else Opened(s)
    ensures StartsNow(SlotFor(s, d), d) ==> SlotFor(s, d).block !in Opened(s)
    ensures OnTool(s, d).tools[d.index].started ==> SlotFor(s, d).block in Opened(OnTool(s, d))
    ensures SlotFor(s, d).block != s.text
  {
    var slot := SlotFor(s, d);
    UpdatedSlot(s.tools, d.index, OnTool(s, d).tools[d.index]);
    assert slot.started ==> slot.block in ToolBlocks(s.tools);
  }

  // What a tool delta emits before its arguments.
  ghost function AfterStart(s: State, d: ToolDelta): seq<Event> {
    var slot := SlotFor(s, d);
    if StartsNow(slot, d)
    then s.out + [ToolStart(slot.block, FirstNonEmpty(slot.id, CallName(d.index)), slot.name)]
    else s.out
  }

  lemma StartIsReadable(s: State, d: ToolDelta)
    requires Readable(s)
    ensures ReadAll(START, AfterStart(s, d)) == Some(Reader(Opened(OnTool(s, d)), {}, false))
  {
    var slot := SlotFor(s, d);
    ToolOpens(s, d);
    ReadOneMore(START, s.out, ToolStart(slot.block, FirstNonEmpty(slot.id, CallName(d.index)), slot.name));
  }

  lemma ArgumentsAreReadable(s: State, d: ToolDelta, shown: map<int, Kind>)
    requires Distinct(s) && shown == Opened(OnTool(s, d)) && d.arguments != ""
    ensures Read(Reader(shown, {}, false), JsonDelta(SlotFor(s, d).block, d.arguments)) ==
      Some(Reader(shown, {}, false))
  {
    ToolOpens(s, d);
  }

  lemma ToolIsReadable(s: State, d: ToolDelta)
    requires Readable(s)
    ensures Readable(OnTool(s, d))
  {
    var t, mid := OnTool(s, d), AfterStart(s, d);
    ToolIsDistinct(s, d);
    StartIsReadable(s, d);
    if d.arguments != "" {
      ArgumentsAreReadable(s, d, Opened(t));
      ReadOneMore(START, mid, JsonDelta(SlotFor(s, d).block, d.arguments));
      assert t.out == mid + [JsonDelta(SlotFor(s, d).block, d.arguments)];
    } else {
      assert t.out == mid;
    }
  }

  lemma {:induction false} ToolsAreReadable(s: State, ds: seq<ToolDelta>)
    requires Readable(s)
    ensures Readable(OnTools(s, ds))
  {
    if ds != [] {
      ToolsAreReadable(s, ds[..|ds| - 1]);
      ToolIsReadable(OnTools(s, ds[..|ds| - 1]), ds[|ds| - 1]);
    }
  }

  lemma {:induction false} LinesAreReadable(lines: seq<Line>)
    ensures Readable(OnLines(lines))
  {
    if lines != [] {
      var s, line := OnLines(lines[..|lines| - 1]), lines[|lines| - 1];
      LinesAreReadable(lines[..|lines| - 1]);
      if line.Chunk? {
        TextIsReadable(s, line.content);
        ToolsAreReadable(OnText(s, line.content), line.toolCalls);
      }
    }
  }

  // ---- the stops ----

  ghost function StartedBlocks(tools: map<int, Slot>, order: seq<int>): set<int> {
    set t | t in order && t in tools && tools[t].started :: tools[t].block
  }

  lemma {:induction false} StopsAreReadable(r: Reader, tools: map<int, Slot>, order: seq<int>)
    requires forall i, j :: 0 <= i < j < |order| ==> order[i] != order[j]
    requires forall t, u :: t in tools && u in tools && t != u ==> tools[t].block != tools[u].block
    requires StartedBlocks(tools, order) <= r.open.Keys
    ensures var end := ReadAll(r, Stops(tools, order));
      end.Some? && end.value.open == r.open - StartedBlocks(tools, order)
  {
    if order != [] {
      var before, last := order[..|order| - 1], order[|order| - 1];
      assert order == before + [last];
      StopsAreReadable(r, tools, before);
      if last in tools && tools[last].started {
        var b := tools[last].block;
        assert StartedBlocks(tools, order) == StartedBlocks(tools, before) + {b};
        assert b !in StartedBlocks(tools, before);
        ReadOneMore(r, Stops(tools, before), BlockStop(b));
        assert r.open - StartedBlocks(tools, before) - {b} == r.open - StartedBlocks(tools, order);
      } else {
        assert StartedBlocks(tools, order) == StartedBlocks(tools, before);
        assert Stops(tools, order) == Stops(tools, before);
      }
    } else {
      assert r.open - StartedBlocks(tools, order) == r.open;
    }
  }

  lemma TextBlockIsStopped(s: State)
    requires Distinct(s)
    ensures var end := ReadAll(Reader(Opened(s), {}, false), TextStops(s));
      end.Some? && end.value.open == ToolBlocks(s.tools) - {s.text}
  {
    var r := Reader(Opened(s), {}, false);
    ReadOneMore(r, [], BlockStop(s.text));
    assert [] + [BlockStop(s.text)] == [BlockStop(s.text)];
    assert ReadAll(r, []) == Some(r);
    assert s.text < 0 ==> s.text !in ToolBlocks(s.tools);
    if s.text >= 0 {
      assert Opened(s) - {s.text} == ToolBlocks(s.tools) - {s.text};
    } else {
      assert Opened(s) == ToolBlocks(s.tools) - {s.text};
    }
  }

  lemma ToolBlocksAreVisited(s: State, order: seq<int>)
    requires Distinct(s) && Visits(order, s.tools.Keys)
    ensures (ToolBlocks(s.tools) - {s.text}).Keys == StartedBlocks(s.tools, order)
  {
    assert forall t :: t in s.tools <==> t in order;
  }

  lemma EveryBlockIsStopped(s: State, order: seq<int>)
    requires Readable(s) && Visits(order, s.tools.Keys)
    ensures var end := ReadAll(START, s.out + (TextStops(s) + Stops(s.tools, order)));
      end.Some? && end.value.open == map[]
  {
    var r := Reader(Opened(s), {}, false);
    ReadInTwo(START, s.out, TextStops(s) + Stops(s.tools, order));
    ReadInTwo(r, TextStops(s), Stops(s.tools, order));
    TextBlockIsStopped(s);
    ToolBlocksAreVisited(s, order);
    var q := ReadAll(r, TextStops(s)).value;
    StopsAreReadable(q, s.tools, order);
    assert q.open - StartedBlocks(s.tools, order) == map[];
  }

  lemma OutputInParts(model: string, s: State, order: seq<int>)
    ensures var events := Output(model, s, order);
      && |events| >= 3 && events[0] == MessageStart(model)
      && events[|events| - 2].MessageDelta? && events[|events| - 1] == MessageStop
      && events[1..|events| - 2] == s.out + (TextStops(s) + Stops(s.tools, order))
  {
  }

  /** Whatever the chunks and whatever order the map is visited in, the stream is well formed. */
  lemma StreamIsWellFormed(model: string, lines: seq<Line>, order: seq<int>)
    requires Visits(order, OnLines(UpToDone(lines)).tools.Keys)
    ensures WellFormed(model, Output(model, OnLines(UpToDone(lines)), order))
  {
    var s := OnLines(UpToDone(lines));
    LinesAreReadable(UpToDone(lines));
    EveryBlockIsStopped(s, order);
    OutputInParts(model, s, order);
  }
}
