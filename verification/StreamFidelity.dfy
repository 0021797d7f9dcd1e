/** The translated stream carries exactly what upstream sent, and says what the whole-response
    translation would have said. */
module StreamFidelity {
  import opened Prelude
  import opened Text
  import opened AnthropicStream
  import opened AnthropicResponse
  import opened StreamTheorems

  // ---- what an event stream carries ----

  ghost function TextOf(events: seq<Event>): string {
    if events == [] then ""
    else
      var e := events[|events| - 1];
      TextOf(events[..|events| - 1]) + if e.TextDelta? then e.text else ""
  }

  ghost function JsonOf(events: seq<Event>, block: int): string {
    if events == [] then ""
    else
      var e := events[|events| - 1];
      JsonOf(events[..|events| - 1], block) + if e.JsonDelta? && e.index == block then e.json else ""
  }

  // The tool blocks in the order they start.
  ghost function Starts(events: seq<Event>): (r: seq<Event>)
    ensures forall i :: 0 <= i < |r| ==> r[i].ToolStart?
  {
    if events == [] then []
    else
      var e := events[|events| - 1];
      Starts(events[..|events| - 1]) + if e.ToolStart? then [e] else []
  }

  // ---- what the chunks carry ----

  ghost function ContentOf(lines: seq<Line>): string {
    if lines == [] then ""
    else
      var line := lines[|lines| - 1];
      ContentOf(lines[..|lines| - 1]) + if line.Chunk? then line.content else ""
  }

  ghost function ArgumentsIn(ds: seq<ToolDelta>, tool: int): string {
    if ds == [] then ""
    else
      var d := ds[|ds| - 1];
      ArgumentsIn(ds[..|ds| - 1], tool) + if d.index == tool then d.arguments else ""
  }

  ghost function ArgumentsOf(lines: seq<Line>, tool: int): string {
    if lines == [] then ""
    else
      var line := lines[|lines| - 1];
      ArgumentsOf(lines[..|lines| - 1], tool) + if line.Chunk? then ArgumentsIn(line.toolCalls, tool) else ""
  }

  // ---- nothing is lost ----

  // events is before plus e, seen through each of the three readings.
  lemma OneMoreEvent(events: seq<Event>, e: Event, block: int)
    ensures TextOf(events + [e]) == TextOf(events) + if e.TextDelta? then e.text else ""
    ensures JsonOf(events + [e], block) ==
      JsonOf(events, block) + if e.JsonDelta? && e.index == block then e.json else ""
    ensures Starts(events + [e]) == Starts(events) + if e.ToolStart? then [e] else []
  {
    assert (events + [e])[..|events|] == events;
  }

  // What one tool delta adds to the three readings.
  lemma ToolAdds(s: State, d: ToolDelta, b: int)
    ensures var t, slot := OnTool(s, d), SlotFor(s, d);
      && TextOf(t.out) == TextOf(s.out)
      && JsonOf(t.out, b) == JsonOf(s.out, b) + (if b == slot.block then d.arguments else "")
      && Starts(t.out) == Starts(s.out) + if StartsNow(slot, d)
           then [ToolStart(slot.block, FirstNonEmpty(slot.id, CallName(d.index)), slot.name)] else []
  {
    var t, slot := OnTool(s, d), SlotFor(s, d);
    var start := ToolStart(slot.block, FirstNonEmpty(slot.id, CallName(d.index)), slot.name);
    var json := JsonDelta(slot.block, d.arguments);
    var mid := if StartsNow(slot, d) then s.out + [start] else s.out;
    OneMoreEvent(s.out, start, b);
    assert TextOf(mid) == TextOf(s.out) && JsonOf(mid, b) == JsonOf(s.out, b);
    assert Starts(mid) == Starts(s.out) + if StartsNow(slot, d) then [start] else [];
    OneMoreEvent(mid, json, b);
    if d.arguments != "" {
      assert t.out == mid + [json];
    } else {
      assert t.out == mid;
    }
  }

  lemma TextAdds(s: State, content: string, b: int)
    ensures var t := OnText(s, content);
      TextOf(t.out) == TextOf(s.out) + content && JsonOf(t.out, b) == JsonOf(s.out, b) && Starts(t.out) == Starts(s.out)
  {
    if content != "" {
      OneMoreEvent(s.out, TextDelta(s.text, content), b);
      OneMoreEvent(s.out, TextStart(s.next), b);
      OneMoreEvent(s.out + [TextStart(s.next)], TextDelta(s.next, content), b);
      assert s.text < 0 ==> OnText(s, content).out == s.out + [TextStart(s.next)] + [TextDelta(s.next, content)];
    }
  }

  ghost predicate NothingAhead(s: State) {
    forall b :: b >= s.next ==> JsonOf(s.out, b) == ""
  }

  /** The events so far carry this text, and in the tool's own block exactly these arguments; a tool
      that has arguments has started its block. */
  ghost predicate Carries(s: State, text: string, tool: int, arguments: string) {
    && Distinct(s) && NothingAhead(s)
    && TextOf(s.out) == text
    && (tool in s.tools ==> JsonOf(s.out, s.tools[tool].block) == arguments)
    && (arguments != "" ==> tool in s.tools && s.tools[tool].started)
  }

  lemma TextCarries(s: State, content: string, text: string, tool: int, arguments: string)
    requires Carries(s, text, tool, arguments)
    ensures Carries(OnText(s, content), text + content, tool, arguments)
  {
    var t := OnText(s, content);
    forall b | b >= t.next ensures JsonOf(t.out, b) == "" {
      TextAdds(s, content, b);
    }
    TextAdds(s, content, if tool in s.tools then s.tools[tool].block else 0);
  }

  lemma ToolCarries(s: State, d: ToolDelta, text: string, tool: int, arguments: string)
    requires Carries(s, text, tool, arguments)
    ensures Carries(OnTool(s, d), text, tool, arguments + if d.index == tool then d.arguments else "")
  {
    var t := OnTool(s, d);
    ToolIsDistinct(s, d);
    forall b | b >= t.next ensures JsonOf(t.out, b) == "" {
      ToolAdds(s, d, b);
    }
    ToolAdds(s, d, if tool in t.tools then t.tools[tool].block else 0);
  }

  lemma {:induction false} ToolsCarry(s: State, ds: seq<ToolDelta>, text: string, tool: int, arguments: string)
    requires Carries(s, text, tool, arguments)
    ensures Carries(OnTools(s, ds), text, tool, arguments + ArgumentsIn(ds, tool))
  {
    if ds == [] {
      assert arguments + ArgumentsIn(ds, tool) == arguments;
    } else {
      var before, d := ds[..|ds| - 1], ds[|ds| - 1];
      ToolsCarry(s, before, text, tool, arguments);
      ToolCarries(OnTools(s, before), d, text, tool, arguments + ArgumentsIn(before, tool));
      var more := if d.index == tool then d.arguments else "";
      Associative(arguments, ArgumentsIn(before, tool), more);
    }
  }

  lemma {:induction false} LinesCarry(lines: seq<Line>, tool: int)
    ensures Carries(OnLines(lines), ContentOf(lines), tool, ArgumentsOf(lines, tool))
  {
    if lines != [] {
      var before, line := lines[..|lines| - 1], lines[|lines| - 1];
      var s := OnLines(before);
      LinesCarry(before, tool);
      if line.Chunk? {
        TextCarries(s, line.content, ContentOf(before), tool, ArgumentsOf(before, tool));
        ToolsCarry(OnText(s, line.content), line.toolCalls, ContentOf(lines), tool, ArgumentsOf(before, tool));
      }
    }
  }

  // ---- the stops and the ending carry nothing ----

  lemma {:induction false} CarriedInTwo(first: seq<Event>, second: seq<Event>, block: int)
    ensures TextOf(first + second) == TextOf(first) + TextOf(second)
    ensures JsonOf(first + second, block) == JsonOf(first, block) + JsonOf(second, block)
    ensures Starts(first + second) == Starts(first) + Starts(second)
  {
    if second == [] {
      assert first + second == first;
    } else {
      var before, e := second[..|second| - 1], second[|second| - 1];
      CarriedInTwo(first, before, block);
      assert first + second == (first + before) + [e];
      OneMoreEvent(first + before, e, block);
      Associative(TextOf(first), TextOf(before), if e.TextDelta? then e.text else "");
      Associative(JsonOf(first, block), JsonOf(before, block), if e.JsonDelta? && e.index == block then e.json else "");
      Associative(Starts(first), Starts(before), if e.ToolStart? then [e] else []);
    }
  }

  ghost predicate Silent(events: seq<Event>) {
    TextOf(events) == "" && Starts(events) == [] && forall b :: JsonOf(events, b) == ""
  }

  lemma {:induction false} StopsAreSilent(tools: map<int, Slot>, order: seq<int>)
    ensures Silent(Stops(tools, order))
  {
    if order != [] {
      var before, last := Stops(tools, order[..|order| - 1]), order[|order| - 1];
      StopsAreSilent(tools, order[..|order| - 1]);
      if last in tools && tools[last].started {
        forall b { OneMoreEvent(before, BlockStop(tools[last].block), b); }
        OneMoreEvent(before, BlockStop(tools[last].block), 0);
      } else {
        assert Stops(tools, order) == before;
      }
    }
  }

  lemma OneIsSilent(e: Event)
    requires !e.TextDelta? && !e.JsonDelta? && !e.ToolStart?
    ensures Silent([e])
  {
    forall b { OneMoreEvent([], e, b); }
    OneMoreEvent([], e, 0);
    assert [] + [e] == [e];
  }

  lemma SilenceAround(before: seq<Event>, events: seq<Event>, after: seq<Event>, block: int)
    requires Silent(before) && Silent(after)
    ensures var all := before + events + after;
      TextOf(all) == TextOf(events) && JsonOf(all, block) == JsonOf(events, block) && Starts(all) == Starts(events)
  {
    CarriedInTwo(before, events, block);
    CarriedInTwo(before + events, after, block);
  }

  lemma SilentTogether(a: seq<Event>, b: seq<Event>)
    requires Silent(a) && Silent(b)
    ensures Silent(a + b)
  {
    CarriedInTwo(a, b, 0);
    forall block ensures JsonOf(a + b, block) == "" {
      CarriedInTwo(a, b, block);
    }
  }

  lemma OutputCarries(model: string, s: State, order: seq<int>, block: int)
    ensures var events := Output(model, s, order);
      && TextOf(events) == TextOf(s.out) && JsonOf(events, block) == JsonOf(s.out, block)
      && Starts(events) == Starts(s.out)
  {
    var opening, stops := [MessageStart(model)], TextStops(s) + Stops(s.tools, order);
    var delta, stop := [MessageDelta(StopReason(s.finish))], [MessageStop];
    OneIsSilent(MessageStart(model));
    OneIsSilent(BlockStop(s.text));
    OneIsSilent(MessageDelta(StopReason(s.finish)));
    OneIsSilent(MessageStop);
    StopsAreSilent(s.tools, order);
    SilentTogether(TextStops(s), Stops(s.tools, order));
    SilentTogether(delta, stop);
    SilentTogether(stops, delta + stop);
    SilenceAround(opening, s.out, stops + (delta + stop), block);
    assert Output(model, s, order) == opening + s.out + (stops + (delta + stop));
  }

  /** The text deltas concatenate to the upstream content, each tool's block to its arguments, up to
      the end marker; tools with arguments have a block, and no two tools share one. */
  lemma StreamLosesNothing(model: string, lines: seq<Line>, order: seq<int>, tool: int, other: int)
    ensures var read, s := UpToDone(lines), OnLines(UpToDone(lines)); var events := Output(model, s, order);
      && TextOf(events) == ContentOf(read)
      && (tool in s.tools ==> JsonOf(events, s.tools[tool].block) == ArgumentsOf(read, tool))
      && (ArgumentsOf(read, tool) != "" ==> tool in s.tools && s.tools[tool].started)
      && (tool in s.tools && other in s.tools && tool != other ==> s.tools[tool].block != s.tools[other].block)
  {
    var s := OnLines(UpToDone(lines));
    LinesCarry(UpToDone(lines), tool);
    OutputCarries(model, s, order, if tool in s.tools then s.tools[tool].block else 0);
  }

  // ---- agreement with the whole-response translation ----

  // The tool calls upstream has described so far, in the order they first appear, and the delta in which
  // each first appeared.
  datatype Calls = Calls(order: seq<int>, calls: map<int, Call>, first: map<int, ToolDelta>)

  ghost function Collect(a: Calls, d: ToolDelta): Calls {
    if d.index in a.calls then
      var c := a.calls[d.index];
      a.(calls := a.calls[d.index :=
        Call(FirstNonEmpty(d.id, c.id), FirstNonEmpty(d.name, c.name), c.arguments + d.arguments)])
    else
      Calls(a.order + [d.index], a.calls[d.index := Call(d.id, d.name, d.arguments)], a.first[d.index := d])
  }

  ghost function CollectIn(a: Calls, ds: seq<ToolDelta>): Calls {
    if ds == [] then a else Collect(CollectIn(a, ds[..|ds| - 1]), ds[|ds| - 1])
  }

  ghost function CollectAll(lines: seq<Line>): Calls {
    if lines == [] then Calls([], map[], map[])
    else
      var a, line := CollectAll(lines[..|lines| - 1]), lines[|lines| - 1];
      if line.Chunk? then CollectIn(a, line.toolCalls) else a
  }

  // A slot's first delta carries something, so that its block starts at once.
  ghost predicate PromptDelta(a: Calls, d: ToolDelta) {
    d.index in a.calls || d.id != "" || d.name != "" || d.arguments != ""
  }

  ghost predicate PromptIn(a: Calls, ds: seq<ToolDelta>) {
    ds == [] || (PromptIn(a, ds[..|ds| - 1]) && PromptDelta(CollectIn(a, ds[..|ds| - 1]), ds[|ds| - 1]))
  }

  ghost predicate Prompt(lines: seq<Line>) {
    lines == [] ||
    var line := lines[|lines| - 1];
    Prompt(lines[..|lines| - 1]) && (line.Chunk? ==> PromptIn(CollectAll(lines[..|lines| - 1]), line.toolCalls))
  }

  // A slot's first delta carries its id, and its name if it has one; later ones repeat them or leave them out.
  ghost predicate TidyDelta(a: Calls, d: ToolDelta) {
    if d.index in a.calls then d.id in {"", a.calls[d.index].id} && d.name in {"", a.calls[d.index].name}
    else d.id != ""
  }

  ghost predicate TidyIn(a: Calls, ds: seq<ToolDelta>) {
    ds == [] || (TidyIn(a, ds[..|ds| - 1]) && TidyDelta(CollectIn(a, ds[..|ds| - 1]), ds[|ds| - 1]))
  }

  ghost predicate Tidy(lines: seq<Line>) {
    lines == [] ||
    var line := lines[|lines| - 1];
    Tidy(lines[..|lines| - 1]) && (line.Chunk? ==> TidyIn(CollectAll(lines[..|lines| - 1]), line.toolCalls))
  }

  // What a slot is announced as when it starts with its first delta d.
  function AnnouncedId(t: int, d: ToolDelta): string { if d.id != "" then d.id else "call_" + Decimal(t) }

  // The start of slot t's block, as its first delta announces it.
  function StartOf(slot: Slot, t: int, first: ToolDelta): Event {
    ToolStart(slot.block, AnnouncedId(t, first), first.name)
  }

  // Each slot ends up with the id and the name it was announced with.
  ghost predicate KeepsNames(a: Calls) {
    forall i :: 0 <= i < |a.order| && a.order[i] in a.calls && a.order[i] in a.first ==>
      var t := a.order[i]; AnnouncedId(t, a.first[t]) == a.calls[t].id && a.first[t].name == a.calls[t].name
  }

  ghost function FinishOf(lines: seq<Line>): string {
    if lines == [] then ""
    else
      var line := lines[|lines| - 1];
      if line.Chunk? && line.finish.Some? then line.finish.value else FinishOf(lines[..|lines| - 1])
  }

  ghost predicate Collected(a: Calls) {
    && a.first.Keys == a.calls.Keys
    && (forall i :: 0 <= i < |a.order| ==> a.order[i] in a.calls)
    && forall t :: t in a.calls ==> t in a.order
  }

  // The events so far describe exactly the calls collected so far.
  ghost predicate Describes(s: State, a: Calls) {
    && Distinct(s) && NothingAhead(s) && Collected(a) && s.tools.Keys == a.calls.Keys
    && DescribesArguments(s, a) && DescribesStarts(s, a)
  }

  ghost predicate DescribesArguments(s: State, a: Calls)
    requires s.tools.Keys == a.calls.Keys
  {
    forall t :: t in s.tools ==> s.tools[t].started && JsonOf(s.out, s.tools[t].block) == a.calls[t].arguments
  }

  ghost predicate DescribesStarts(s: State, a: Calls)
    requires s.tools.Keys == a.calls.Keys && Collected(a)
  {
    && |Starts(s.out)| == |a.order|
    && forall i :: 0 <= i < |a.order| ==>
         var t := a.order[i];
         Starts(s.out)[i] == StartOf(s.tools[t], t, a.first[t])
  }

  lemma TextDescribes(s: State, content: string, a: Calls)
    requires Describes(s, a)
    ensures Describes(OnText(s, content), a)
  {
    var t := OnText(s, content);
    forall b ensures JsonOf(t.out, b) == JsonOf(s.out, b) {
      TextAdds(s, content, b);
    }
    TextAdds(s, content, 0);
  }

  lemma ToolDescribes(s: State, d: ToolDelta, a: Calls)
    requires Describes(s, a) && PromptDelta(a, d)
    ensures Describes(OnTool(s, d), Collect(a, d))
  {
    var t := OnTool(s, d);
    ToolIsDistinct(s, d);
    forall b | b >= t.next ensures JsonOf(t.out, b) == "" {
      ToolAdds(s, d, b);
    }
    ToolIsCollected(a, d);
    ToolDescribesArguments(s, d, a);
    ToolDescribesStarts(s, d, a);
  }

  lemma ToolIsCollected(a: Calls, d: ToolDelta)
    requires Collected(a)
    ensures Collected(Collect(a, d))
  {
    var c := Collect(a, d);
    assert forall t :: t in a.order ==> t in c.order;
  }

  lemma ToolDescribesArguments(s: State, d: ToolDelta, a: Calls)
    requires Describes(s, a) && PromptDelta(a, d)
    ensures OnTool(s, d).tools.Keys == Collect(a, d).calls.Keys && DescribesArguments(OnTool(s, d), Collect(a, d))
  {
    var t, c := OnTool(s, d), Collect(a, d);
    forall u | u in t.tools ensures t.tools[u].started && JsonOf(t.out, t.tools[u].block) == c.calls[u].arguments {
      ToolAdds(s, d, t.tools[u].block);
    }
  }

  lemma ToolDescribesStarts(s: State, d: ToolDelta, a: Calls)
    requires Describes(s, a) && PromptDelta(a, d) && Collected(Collect(a, d))
    requires OnTool(s, d).tools.Keys == Collect(a, d).calls.Keys
    ensures DescribesStarts(OnTool(s, d), Collect(a, d))
  {
    var t, c := OnTool(s, d), Collect(a, d);
    ToolAdds(s, d, 0);
    SlotsStay(s, d, a);
    forall i | 0 <= i < |c.order|
      ensures Starts(t.out)[i] == StartOf(t.tools[c.order[i]], c.order[i], c.first[c.order[i]])
    {
      if i < |a.order| {
        OldStart(s, d, a, i);
      } else {
        NewStart(s, d, a);
      }
    }
  }

  lemma OldStart(s: State, d: ToolDelta, a: Calls, i: nat)
    requires Describes(s, a) && PromptDelta(a, d) && i < |a.order|
    ensures var t, c, k := OnTool(s, d), Collect(a, d), a.order[i];
      && i < |c.order| && c.order[i] == k && k in t.tools && k in c.first
      && i < |Starts(t.out)| && Starts(t.out)[i] == StartOf(t.tools[k], k, c.first[k])
  {
    ToolAdds(s, d, 0);
    SlotsStay(s, d, a);
    assert a.order[i] in s.tools;
  }

  lemma NewStart(s: State, d: ToolDelta, a: Calls)
    requires Describes(s, a) && PromptDelta(a, d) && d.index !in a.calls
    ensures var t, c, n := OnTool(s, d), Collect(a, d), |a.order|;
      && |c.order| == n + 1 == |Starts(t.out)| && c.order[n] == d.index && d.index in t.tools && d.index in c.first
      && Starts(t.out)[n] == StartOf(t.tools[d.index], d.index, c.first[d.index])
  {
    ToolAdds(s, d, 0);
    SlotsStay(s, d, a);
  }

  // Slots known before keep their blocks and first deltas; a new one starts with this delta.
  lemma SlotsStay(s: State, d: ToolDelta, a: Calls)
    requires Describes(s, a) && PromptDelta(a, d)
    ensures forall t :: t in s.tools ==>
      && OnTool(s, d).tools[t].block == s.tools[t].block
      && Collect(a, d).first[t] == a.first[t]
    ensures StartsNow(SlotFor(s, d), d) <==> d.index !in a.calls
    ensures Collect(a, d).order == if d.index in a.calls then a.order else a.order + [d.index]
  {
  }

  lemma {:induction false} ToolsDescribe(s: State, ds: seq<ToolDelta>, a: Calls)
    requires Describes(s, a) && PromptIn(a, ds)
    ensures Describes(OnTools(s, ds), CollectIn(a, ds))
  {
    if ds != [] {
      var before := ds[..|ds| - 1];
      ToolsDescribe(s, before, a);
      ToolDescribes(OnTools(s, before), ds[|ds| - 1], CollectIn(a, before));
    }
  }

  lemma {:induction false} LinesDescribe(lines: seq<Line>)
    requires Prompt(lines)
    ensures Describes(OnLines(lines), CollectAll(lines))
  {
    if lines != [] {
      var before, line := lines[..|lines| - 1], lines[|lines| - 1];
      LinesDescribe(before);
      if line.Chunk? {
        TextDescribes(OnLines(before), line.content, CollectAll(before));
        ToolsDescribe(OnText(OnLines(before), line.content), line.toolCalls, CollectAll(before));
      }
    }
  }

  lemma {:induction false} LinesFinish(lines: seq<Line>)
    ensures OnLines(lines).finish == FinishOf(lines)
  {
    if lines != [] {
      var before, line := lines[..|lines| - 1], lines[|lines| - 1];
      LinesFinish(before);
      if line.Chunk? {
        ToolsKeepFinish(OnText(OnLines(before), line.content), line.toolCalls);
      }
    }
  }

  // ---- tidy streams are prompt and keep their names ----

  lemma TidyKeepsNames(a: Calls, d: ToolDelta)
    requires Collected(a) && KeepsNames(a) && TidyDelta(a, d)
    ensures Collected(Collect(a, d)) && KeepsNames(Collect(a, d)) && PromptDelta(a, d)
  {
    var c := Collect(a, d);
    forall i | 0 <= i < |c.order| && c.order[i] in c.calls && c.order[i] in c.first
      ensures AnnouncedId(c.order[i], c.first[c.order[i]]) == c.calls[c.order[i]].id
      ensures c.first[c.order[i]].name == c.calls[c.order[i]].name
    {
      if i < |a.order| {
        assert a.order[i] == c.order[i];
      }
    }
  }

  lemma {:induction false} TidyInKeepsNames(a: Calls, ds: seq<ToolDelta>)
    requires Collected(a) && KeepsNames(a) && TidyIn(a, ds)
    ensures Collected(CollectIn(a, ds)) && KeepsNames(CollectIn(a, ds)) && PromptIn(a, ds)
  {
    if ds != [] {
      TidyInKeepsNames(a, ds[..|ds| - 1]);
      TidyKeepsNames(CollectIn(a, ds[..|ds| - 1]), ds[|ds| - 1]);
    }
  }

  lemma {:induction false} TidyLinesKeepNames(lines: seq<Line>)
    requires Tidy(lines)
    ensures Collected(CollectAll(lines)) && KeepsNames(CollectAll(lines)) && Prompt(lines)
  {
    if lines != [] {
      var before, line := lines[..|lines| - 1], lines[|lines| - 1];
      TidyLinesKeepNames(before);
      if line.Chunk? {
        TidyInKeepsNames(CollectAll(before), line.toolCalls);
      }
    }
  }

  lemma {:induction false} ToolsKeepFinish(s: State, ds: seq<ToolDelta>)
    ensures OnTools(s, ds).finish == s.finish
  {
    if ds != [] {
      ToolsKeepFinish(s, ds[..|ds| - 1]);
    }
  }

  // The completion a non-streaming upstream would have returned.
  ghost function Accumulated(lines: seq<Line>): Choice {
    var a := CollectAll(lines);
    Choice(Plain(ContentOf(lines)),
      seq(|a.order|, i requires 0 <= i < |a.order| =>
        if a.order[i] in a.calls then a.calls[a.order[i]] else Call("", "", "")),
      FinishOf(lines))
  }

  // What a client rebuilds from the events: its text, then its tool calls in the order they started.
  ghost function Rebuilt<J>(events: seq<Event>, parse: string -> J): seq<Block<J>> {
    TextBlocks(TextOf(events)) + RebuiltTools(events, parse)
  }

  ghost function RebuiltTools<J>(events: seq<Event>, parse: string -> J): seq<Block<J>> {
    var starts := Starts(events);
    seq(|starts|, i requires 0 <= i < |starts| =>
      ToolUse(starts[i].id, starts[i].name, parse(JsonOf(events, starts[i].index))))
  }

  // What the client rebuilds of tool i differs from upstream's own account in its names only.
  lemma RebuiltTool<J>(model: string, lines: seq<Line>, order: seq<int>, parse: string -> J, i: nat)
    requires Prompt(lines) && i < |CollectAll(lines).order|
    ensures Collected(CollectAll(lines))
    ensures var events, a := Output(model, OnLines(lines), order), CollectAll(lines);
      && |Starts(events)| == |a.order|
      && var t := a.order[i];
         && Starts(events)[i].id == AnnouncedId(t, a.first[t]) && Starts(events)[i].name == a.first[t].name
         && JsonOf(events, Starts(events)[i].index) == a.calls[t].arguments
  {
    LinesDescribe(lines);
    var events := Output(model, OnLines(lines), order);
    OutputCarries(model, OnLines(lines), order, 0);
    OutputCarries(model, OnLines(lines), order, Starts(events)[i].index);
  }

  lemma RebuiltText(model: string, lines: seq<Line>, order: seq<int>)
    ensures TextOf(Output(model, OnLines(lines), order)) == ContentOf(lines)
  {
    LinesCarry(lines, 0);
    OutputCarries(model, OnLines(lines), order, 0);
  }

  // The content a client rebuilds, and the content of the whole-response translation.
  ghost predicate Agrees<J>(model: string, lines: seq<Line>, order: seq<int>, parse: string -> J) {
    var whole := Accumulated(lines);
    Rebuilt(Output(model, OnLines(lines), order), parse) ==
      TextBlocks(NullableText(whole.content)) + ToolUses(whole.toolCalls, parse)
  }

  /** When each slot's first delta carries something, what a client rebuilds from the events is what the
      whole-response translation gives for the accumulated completion if and only if each slot ends up with
      the id and the name it was announced with. */
  lemma StreamingAgreesIffNamesAreKept<J>(model: string, lines: seq<Line>, order: seq<int>, parse: string -> J)
    requires Prompt(UpToDone(lines))
    ensures Agrees(model, UpToDone(lines), order, parse) <==> KeepsNames(CollectAll(UpToDone(lines)))
  {
    var read := UpToDone(lines);
    var a, events := CollectAll(read), Output(model, OnLines(read), order);
    var rebuilt, whole := RebuiltTools(events, parse), ToolUses(Accumulated(read).toolCalls, parse);
    RebuiltText(model, read, order);
    LinesDescribe(read);
    OutputCarries(model, OnLines(read), order, 0);
    forall i | 0 <= i < |a.order|
      ensures a.order[i] in a.calls && a.order[i] in a.first
      ensures var t := a.order[i];
        rebuilt[i] == whole[i] <==>
        AnnouncedId(t, a.first[t]) == a.calls[t].id && a.first[t].name == a.calls[t].name
    {
      RebuiltTool(model, read, order, parse, i);
    }
    SameBehind(TextBlocks<J>(ContentOf(read)), rebuilt, whole);
  }

  lemma SameBehind<T>(front: seq<T>, a: seq<T>, b: seq<T>)
    ensures front + a == front + b <==> a == b
  {
    assert (front + a)[|front|..] == a && (front + b)[|front|..] == b;
  }

  /** Streaming and non-streaming agree on every tidy stream: from the events a client rebuilds the very
      content and stop reason that the whole-response translation gives for the accumulated completion. */
  lemma StreamingAgrees<J>(model: string, lines: seq<Line>, order: seq<int>, parse: string -> J)
    requires Tidy(UpToDone(lines))
    ensures var read := UpToDone(lines);
      var whole, events := Accumulated(read), Output(model, OnLines(read), order);
      && Rebuilt(events, parse) == TextBlocks(NullableText(whole.content)) + ToolUses(whole.toolCalls, parse)
      && events[|events| - 2] == MessageDelta(StopReason(whole.finish))
  {
    TidyLinesKeepNames(UpToDone(lines));
    StreamingAgreesIffNamesAreKept(model, lines, order, parse);
    LinesFinish(UpToDone(lines));
  }

  /** A slot that only ever sends empty deltas reserves a block index and never starts it. */
  lemma ReservedBlockMayNeverStart()
    ensures var s := OnLines([Chunk("", [ToolDelta(0, "", "", "")], None), Chunk("hi", [], None)]);
      s.out == [TextStart(1), TextDelta(1, "hi")] && s.tools == map[0 := Slot(0, false, "", "")]
  {
    var first, second := Chunk("", [ToolDelta(0, "", "", "")], None), Chunk("hi", [], None);
    assert OnLines([]) == INITIAL && [first, second][..1] == [first] && [first][..0] == [];
    assert OnTools(INITIAL, first.toolCalls[..0]) == INITIAL;
    assert OnLines([first]) == OnTool(INITIAL, first.toolCalls[0]);
  }
}
