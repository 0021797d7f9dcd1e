/** internal/gateway/anthropic_stream.go: an upstream chunk stream re-blocked into Anthropic events. */
module AnthropicStream {
  import opened Prelude
  import opened Text

  datatype ToolDelta = ToolDelta(index: int, id: string, name: string, arguments: string)

  // A scanned line: the end marker, one the translator skips, or a chunk's first choice.
  datatype Line = Done | Skipped | Chunk(content: string, toolCalls: seq<ToolDelta>, finish: Option<string>)

  datatype Event =
    | MessageStart(model: string)
    | TextStart(index: int)
    | ToolStart(index: int, id: string, name: string)
    | TextDelta(index: int, text: string)
    | JsonDelta(index: int, json: string)
    | BlockStop(index: int)
    | MessageDelta(stopReason: string)
    | MessageStop

  datatype Slot = Slot(block: int, started: bool, id: string, name: string)
  datatype State = State(tools: map<int, Slot>, next: int, text: int, finish: string, out: seq<Event>)

  const INITIAL := State(map[], 0, -1, "", [])

  function FirstNonEmpty(v: string, fallback: string): string { if v != "" then v else fallback }

  function CallName(index: int): string { "call_" + Decimal(index) }

  function OnText(s: State, content: string): State {
    if content == "" then s
    else if s.text < 0 then
      s.(text := s.next, next := s.next + 1, out := s.out + [TextStart(s.next), TextDelta(s.next, content)])
    else s.(out := s.out + [TextDelta(s.text, content)])
  }

  // The slot a tool delta belongs to, reserving the next block for a new one, with what the delta names.
  function SlotFor(s: State, d: ToolDelta): Slot {
    var slot := if d.index in s.tools then s.tools[d.index] else Slot(s.next, false, "", "");
    slot.(id := FirstNonEmpty(d.id, slot.id), name := FirstNonEmpty(d.name, slot.name))
  }

  function StartsNow(slot: Slot, d: ToolDelta): bool {
    !slot.started && (slot.id != "" || slot.name != "" || d.arguments != "")
  }

  function OnTool(s: State, d: ToolDelta): State {
    var slot := SlotFor(s, d);
    s.(tools := s.tools[d.index := slot.(started := slot.started || StartsNow(slot, d))],
       next := if d.index in s.tools then s.next else s.next + 1,
       out := s.out
         + (if StartsNow(slot, d)
            then [ToolStart(slot.block, FirstNonEmpty(slot.id, CallName(d.index)), slot.name)] else [])
         + (if d.arguments != "" then [JsonDelta(slot.block, d.arguments)] else []))
  }

  function OnTools(s: State, ds: seq<ToolDelta>): State {
    if ds == [] then s else OnTool(OnTools(s, ds[..|ds| - 1]), ds[|ds| - 1])
  }

  function OnLine(s: State, line: Line): State {
    if !line.Chunk? then s
    else
      var t := OnTools(OnText(s, line.content), line.toolCalls);
      if line.finish.Some? then t.(finish := line.finish.value) else t
  }

  function OnLines(lines: seq<Line>): State {
    if lines == [] then INITIAL else OnLine(OnLines(lines[..|lines| - 1]), lines[|lines| - 1])
  }

  // The lines before the end marker.
  function UpToDone(lines: seq<Line>): seq<Line> {
    if lines == [] || lines[0].Done? then [] else [lines[0]] + UpToDone(lines[1..])
  }

  // The stops of the started tool blocks, visited in this order.
  function Stops(tools: map<int, Slot>, order: seq<int>): seq<Event> {
    if order == [] then []
    else
      var last := order[|order| - 1];
      Stops(tools, order[..|order| - 1]) +
        if last in tools && tools[last].started then [BlockStop(tools[last].block)] else []
  }

  // Every key once, in some order: what ranging over the source's map visits.
  ghost predicate Visits(order: seq<int>, keys: set<int>) {
    && (forall i :: 0 <= i < |order| ==> order[i] in keys)
    && (forall k :: k in keys ==> k in order)
    && (forall i, j :: 0 <= i < j < |order| ==> order[i] != order[j])
  }

  function StopReason(finish: string): string {
    if finish == "length" then "max_tokens" else if finish == "tool_calls" then "tool_use" else "end_turn"
  }

  function TextStops(s: State): seq<Event> { if s.text >= 0 then [BlockStop(s.text)] else [] }

  function Output(model: string, s: State, order: seq<int>): seq<Event> {
    [MessageStart(model)] + s.out + (TextStops(s) + Stops(s.tools, order))
      + [MessageDelta(StopReason(s.finish)), MessageStop]
  }

  lemma {:induction false} UpToDoneIs(lines: seq<Line>, i: nat)
    requires i <= |lines| && (forall j :: 0 <= j < i ==> !lines[j].Done?)
    requires i == |lines| || lines[i].Done?
    ensures UpToDone(lines) == lines[..i]
  {
    if i > 0 {
      UpToDoneIs(lines[1..], i - 1);
      assert lines[..i] == [lines[0]] + lines[1..][..i - 1];
    }
  }

  predicate HasFinish(line: Line) { line.Chunk? && line.finish.Some? }

  // Line k, among the first n, is the last with a finish reason, and it is this one.
  ghost predicate FinishesAt(lines: seq<Line>, n: nat, finish: string, k: nat) {
    && k < n <= |lines| && HasFinish(lines[k]) && lines[k].finish.value == finish
    && forall j :: k < j < n ==> !HasFinish(lines[j])
  }

  // The last finish reason among the first n lines, or none.
  ghost predicate LastFinish(lines: seq<Line>, n: nat, finish: string)
    requires n <= |lines|
  {
    || (finish == "" && forall j :: 0 <= j < n ==> !HasFinish(lines[j]))
    || exists k :: FinishesAt(lines, n, finish, k)
  }

  /** What the client is told of a finish reason: it ran out of tokens, it wants a tool, or its turn is over. */
  ghost predicate Explains(reason: string, finish: string) {
    && (reason == "max_tokens" <==> finish == "length")
    && (reason == "tool_use" <==> finish == "tool_calls")
    && (reason == "end_turn" <==> finish != "length" && finish != "tool_calls")
  }

  // The stream's last word but one explains the last finish reason before the end marker.
  ghost predicate ExplainsEnd(lines: seq<Line>, events: seq<Event>, end: nat, finish: string) {
    && end <= |lines| && (forall j :: 0 <= j < end ==> !lines[j].Done?) && (end == |lines| || lines[end].Done?)
    && LastFinish(lines, end, finish)
    && |events| >= 2 && events[|events| - 2].MessageDelta? && Explains(events[|events| - 2].stopReason, finish)
  }

  /** The translator: one scan over the lines, then the stops in the map's own order. */
  method TranslateStream(model: string, lines: seq<Line>) returns (events: seq<Event>)
    ensures exists order ::
      Visits(order, OnLines(UpToDone(lines)).tools.Keys) && events == Output(model, OnLines(UpToDone(lines)), order)
    ensures exists end: nat, finish :: ExplainsEnd(lines, events, end, finish)
  {
    events := [MessageStart(model)];
    var tools: map<int, Slot>, next, text, finish := map[], 0, -1, "";
    ghost var s := INITIAL;
    var i := 0;
    while i < |lines| && !lines[i].Done?
      invariant 0 <= i <= |lines| && forall j :: 0 <= j < i ==> !lines[j].Done?
      invariant s == OnLines(lines[..i]) && s == State(tools, next, text, finish, s.out)
      invariant LastFinish(lines, i, finish)
      invariant events == [MessageStart(model)] + s.out
    {
      assert lines[..i + 1][..i] == lines[..i];
      OneMoreFinish(lines, i, finish);
      if lines[i].Chunk? {
        ghost var chunk := OnText(s, lines[i].content);
        var emitted;
        emitted, text, next := OnContent(text, next, lines[i].content, s);
        events := events + emitted;
        assert events == [MessageStart(model)] + chunk.out;
        events, tools, next := OnToolCalls(model, events, tools, next, lines[i].toolCalls, chunk);
        if lines[i].finish.Some? {
          finish := lines[i].finish.value;
        }
      }
      s := OnLine(s, lines[i]);
      i := i + 1;
    }
    UpToDoneIs(lines, i);
    var ending := Ending(s, text, tools, finish);
    ghost var order :|
      && Visits(order, tools.Keys)
      && ending == TextStops(s) + Stops(tools, order) + [MessageDelta(StopReason(finish)), MessageStop];
    events := events + ending;
    assert events == Output(model, s, order);
    assert ExplainsEnd(lines, events, i, finish);
  }

  lemma OneMoreFinish(lines: seq<Line>, i: nat, finish: string)
    requires i < |lines| && LastFinish(lines, i, finish)
    ensures LastFinish(lines, i + 1, if HasFinish(lines[i]) then lines[i].finish.value else finish)
  {
    if HasFinish(lines[i]) {
      assert FinishesAt(lines, i + 1, lines[i].finish.value, i);
    } else if k :| FinishesAt(lines, i, finish, k) {
      assert FinishesAt(lines, i + 1, finish, k);
    }
  }

  // What follows the scan: the stops, the stop reason, and the end.
  method Ending(ghost s: State, text: int, tools: map<int, Slot>, finish: string) returns (events: seq<Event>)
    requires text == s.text && tools == s.tools && finish == s.finish
    ensures exists order ::
      && Visits(order, s.tools.Keys)
      && events == TextStops(s) + Stops(s.tools, order) + [MessageDelta(StopReason(s.finish)), MessageStop]
  {
    events := [];
    if text >= 0 {
      events := events + [BlockStop(text)];
    }
    var stops := StopTools(tools);
    events := events + stops;
    var stopReason := "end_turn";
    match finish {
      case "length" => stopReason := "max_tokens";
      case "tool_calls" => stopReason := "tool_use";
      case _ =>
    }
    events := events + [MessageDelta(stopReason)];
    events := events + [MessageStop];
  }

  // A chunk's text.
  method OnContent(text0: int, next0: int, content: string, ghost s: State)
    returns (events: seq<Event>, text: int, next: int)
    requires text0 == s.text && next0 == s.next
    ensures OnText(s, content) == s.(text := text, next := next, out := s.out + events)
  {
    events, text, next := [], text0, next0;
    if content != "" {
      if text < 0 {
        text := next;
        next := next + 1;
        events := events + [TextStart(text)];
      }
      events := events + [TextDelta(text, content)];
    }
  }

  // The inner loop over one chunk's tool deltas.
  method OnToolCalls(model: string, before: seq<Event>, tools0: map<int, Slot>, next0: int, ds: seq<ToolDelta>,
                     ghost s: State)
    returns (events: seq<Event>, tools: map<int, Slot>, next: int)
    requires before == [MessageStart(model)] + s.out && tools0 == s.tools && next0 == s.next
    ensures Matches(model, OnTools(s, ds), s, events, tools, next)
  {
    events, tools, next := before, tools0, next0;
    for j := 0 to |ds|
      invariant Matches(model, OnTools(s, ds[..j]), s, events, tools, next)
    {
      ghost var t := OnTools(s, ds[..j]);
      var emitted;
      emitted, tools, next := OnToolCall(tools, next, ds[j], t);
      OneMoreMatches(model, s, ds, j, events, emitted, tools, next);
      events := events + emitted;
    }
    assert ds[..|ds|] == ds;
  }

  lemma OneMoreMatches(model: string, s: State, ds: seq<ToolDelta>, j: nat, events: seq<Event>, emitted: seq<Event>,
                       tools: map<int, Slot>, next: int)
    requires j < |ds| && events == [MessageStart(model)] + OnTools(s, ds[..j]).out
    requires OnTools(s, ds[..j]) == s.(tools := OnTools(s, ds[..j]).tools, next := OnTools(s, ds[..j]).next,
                                       out := OnTools(s, ds[..j]).out)
    requires var t := OnTools(s, ds[..j]); OnTool(t, ds[j]) == t.(tools := tools, next := next, out := t.out + emitted)
    ensures Matches(model, OnTools(s, ds[..j + 1]), s, events + emitted, tools, next)
  {
    assert ds[..j + 1][..j] == ds[..j];
    Associative([MessageStart(model)], OnTools(s, ds[..j]).out, emitted);
  }

  ghost predicate Matches(model: string, t: State, s: State, events: seq<Event>, tools: map<int, Slot>, next: int) {
    events == [MessageStart(model)] + t.out && t == s.(tools := tools, next := next, out := t.out)
  }

  method OnToolCall(tools0: map<int, Slot>, next0: int, d: ToolDelta, ghost t: State)
    returns (events: seq<Event>, tools: map<int, Slot>, next: int)
    requires tools0 == t.tools && next0 == t.next
    ensures OnTool(t, d) == t.(tools := tools, next := next, out := t.out + events)
  {
    events, tools, next := [], tools0, next0;
    var slot;
    if d.index in tools {
      slot := tools[d.index];
    } else {
      slot := Slot(next, false, "", "");
      next := next + 1;
    }
    if d.id != "" {
      slot := slot.(id := d.id);
    }
    if d.name != "" {
      slot := slot.(name := d.name);
    }
    if !slot.started && (slot.id != "" || slot.name != "") {
      events := events + [ToolStart(slot.block, FirstNonEmpty(slot.id, CallName(d.index)), slot.name)];
      slot := slot.(started := true);
    }
    if d.arguments != "" {
      if !slot.started {
        events := events + [ToolStart(slot.block, CallName(d.index), slot.name)];
        slot := slot.(started := true);
      }
      events := events + [JsonDelta(slot.block, d.arguments)];
    }
    tools := tools[d.index := slot];
  }

  method StopTools(tools: map<int, Slot>) returns (stops: seq<Event>)
    ensures exists order :: Visits(order, tools.Keys) && stops == Stops(tools, order)
  {
    var visit := Range(tools.Keys);
    stops := [];
    for i := 0 to |visit|
      invariant stops == Stops(tools, visit[..i])
    {
      assert visit[..i + 1][..i] == visit[..i];
      if tools[visit[i]].started {
        stops := stops + [BlockStop(tools[visit[i]].block)];
      }
    }
    assert visit[..|visit|] == visit;
  }

  // The source's map iteration: the keys in no particular order.
  method Range(keys: set<int>) returns (order: seq<int>)
    ensures Visits(order, keys)
  {
    order := [];
    var left := keys;
    while left != {}
      invariant left <= keys && Visits(order, keys - left)
      decreases |left|
    {
      var k := Any(left);
      left := left - {k};
      order := order + [k];
    }
  }
}
