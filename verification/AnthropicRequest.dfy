/** internal/gateway/anthropic_request.go: an Anthropic transcript translated into chat messages. */
module AnthropicRequest {
  import opened Prelude
  import opened Text
  import opened AnthropicResponse

  // J is the type of JSON values; writing one out is a parameter.
  datatype ResultContent<J> = Words(text: string) | Structured(value: J)

  datatype Block<J> =
    | TextBlock(text: Option<string>)
    | ToolUse(id: string, name: string, input: J)
    | ToolResult(id: string, content: ResultContent<J>)
    | Other

  datatype Content<J> = Plain(text: string) | Blocks(blocks: seq<Block<J>>) | Malformed
  datatype Message<J> = Message(role: string, content: Content<J>)

  // A chat message: a turn, possibly with tool calls, or a message of role "tool" answering one call.
  datatype ChatMessage =
    | Turn(role: string, content: string, toolCalls: seq<Call>)
    | Tool(callId: string, content: string)

  function Stringify<J>(c: ResultContent<J>, marshal: J -> string): string {
    match c
    case Words(text) => text
    case Structured(value) => marshal(value)
  }

  function Texts<J>(blocks: seq<Block<J>>): seq<string> {
    if blocks == [] then []
    else
      var b := blocks[|blocks| - 1];
      Texts(blocks[..|blocks| - 1]) + if b.TextBlock? && b.text.Some? then [b.text.value] else []
  }

  function CallsIn<J>(blocks: seq<Block<J>>, marshal: J -> string): seq<Call> {
    if blocks == [] then []
    else
      var b := blocks[|blocks| - 1];
      CallsIn(blocks[..|blocks| - 1], marshal) + if b.ToolUse? then [Call(b.id, b.name, marshal(b.input))] else []
  }

  function ResultsIn<J>(blocks: seq<Block<J>>, marshal: J -> string): (r: seq<ChatMessage>)
    ensures forall i :: 0 <= i < |r| ==> r[i].Tool?
  {
    if blocks == [] then []
    else
      var b := blocks[|blocks| - 1];
      ResultsIn(blocks[..|blocks| - 1], marshal) +
        if b.ToolResult? then [Tool(b.id, Stringify(b.content, marshal))] else []
  }

  function BlocksOf<J>(m: Message<J>): seq<Block<J>> {
    if m.content.Blocks? then m.content.blocks else []
  }

  // What one message becomes: its text and calls first, then its tool results.
  function Translated<J>(m: Message<J>, marshal: J -> string): seq<ChatMessage> {
    if m.content.Plain? then [Turn(m.role, m.content.text, [])]
    else if m.content.Malformed? then []
    else
      var texts, calls, results := Texts(BlocksOf(m)), CallsIn(BlocksOf(m), marshal), ResultsIn(BlocksOf(m), marshal);
      if texts != [] || calls != [] then [Turn(m.role, Join(texts, "\n"), calls)] + results
      else if results != [] then results
      else [Turn(m.role, "", [])]
  }

  method TranslateMessage<J>(m: Message<J>, marshal: J -> string) returns (r: Result<seq<ChatMessage>, string>)
    ensures r.Err? <==> m.content.Malformed?
    ensures r.Ok? ==> r.value == Translated(m, marshal)
    ensures r.Ok? ==> Tells(m, marshal, r.value)
  {
    MessageIsTold(m, marshal);
    if m.content.Plain? {
      return Ok([Turn(m.role, m.content.text, [])]);
    }
    if m.content.Malformed? {
      return Err("invalid message content");
    }
    var out := TranslateBlocks(m.role, m.content.blocks, marshal);
    return Ok(out);
  }

  method TranslateBlocks<J>(role: string, blocks: seq<Block<J>>, marshal: J -> string) returns (out: seq<ChatMessage>)
    ensures out == Translated(Message.Message(role, Blocks(blocks)), marshal)
  {
    var textParts: seq<string>, toolCalls: seq<Call> := [], [];
    out := [];
    for i := 0 to |blocks|
      invariant textParts == Texts(blocks[..i])
      invariant toolCalls == CallsIn(blocks[..i], marshal)
      invariant out == ResultsIn(blocks[..i], marshal)
    {
      assert blocks[..i + 1][..i] == blocks[..i];
      match blocks[i] {
        case TextBlock(text) =>
          if text.Some? {
            textParts := textParts + [text.value];
          }
        case ToolUse(id, name, input) =>
          toolCalls := toolCalls + [Call(id, name, marshal(input))];
        case ToolResult(id, content) =>
          out := out + [Tool(id, Stringify(content, marshal))];
        case Other =>
      }
    }
    assert blocks[..|blocks|] == blocks;
    if |textParts| > 0 || |toolCalls| > 0 {
      out := [Turn(role, Join(textParts, "\n"), toolCalls)] + out;
    }
    if |out| == 0 {
      out := out + [Turn(role, "", [])];
    }
  }

  ghost predicate Readable<J>(messages: seq<Message<J>>) {
    forall i :: 0 <= i < |messages| ==> !messages[i].content.Malformed?
  }

  function SystemTurn(system: string): seq<ChatMessage> {
    if system != "" then [Turn("system", system, [])] else []
  }

  /** The whole conversation: the system turn, then each message's translation. */
  function Conversation<J>(system: string, messages: seq<Message<J>>, marshal: J -> string): seq<ChatMessage> {
    if messages == [] then SystemTurn(system)
    else Conversation(system, messages[..|messages| - 1], marshal) + Translated(messages[|messages| - 1], marshal)
  }

  lemma OneMoreMessage<J>(system: string, messages: seq<Message<J>>, i: nat, marshal: J -> string)
    requires i < |messages|
    ensures Conversation(system, messages[..i + 1], marshal) ==
      Conversation(system, messages[..i], marshal) + Translated(messages[i], marshal)
  {
    assert messages[..i + 1][..i] == messages[..i];
  }

  lemma OneMoreIsReadable<J>(messages: seq<Message<J>>, i: nat)
    requires i < |messages| && Readable(messages[..i])
    ensures Readable(messages[..i + 1]) <==> !messages[i].content.Malformed?
    ensures Readable(messages) ==> !messages[i].content.Malformed?
  {
    assert messages[..i + 1] == messages[..i] + [messages[i]];
  }

  // A system prompt: words, or blocks whose texts go on a line each. Anything else counts as none.
  function SystemText<J>(system: Option<Content<J>>): string {
    match system
    case Some(Plain(text)) => text
    case Some(Blocks(blocks)) => Join(Texts(blocks), "\n")
    case _ => ""
  }

  method ExtractText<J>(system: Option<Content<J>>) returns (text: string)
    ensures text == SystemText(system)
    ensures match system
      case Some(Plain(words)) => text == words
      case Some(Blocks(blocks)) => TellsTexts(blocks, text)
      case _ => text == ""
  {
    match system {
      case Some(Plain(words)) => return words;
      case Some(Blocks(blocks)) =>
        var parts: seq<string> := [];
        for i := 0 to |blocks|
          invariant parts == Texts(blocks[..i])
        {
          assert blocks[..i + 1][..i] == blocks[..i];
          if blocks[i].TextBlock? && blocks[i].text.Some? {
            parts := parts + [blocks[i].text.value];
          }
        }
        assert blocks[..|blocks|] == blocks;
        ghost var idx := TextsAreTold(blocks);
        JoinedOnLines(parts);
        return Join(parts, "\n");
      case _ => return "";
    }
  }

  /** The message loop of the request translation: it fails exactly on a message it cannot read, and
      otherwise tells the system prompt and every message, whole and in order. */
  method TranslateMessages<J>(system: Option<Content<J>>, messages: seq<Message<J>>, marshal: J -> string)
    returns (r: Result<seq<ChatMessage>, string>)
    ensures r.Ok? <==> Readable(messages)
    ensures r.Ok? ==> r.value == Conversation(SystemText(system), messages, marshal)
    ensures r.Ok? ==> exists parts :: TellsAll(SystemText(system), messages, marshal, r.value, parts)
  {
    assert messages[..0] == [] && messages[..|messages|] == messages;
    var out: seq<ChatMessage> := [];
    var prompt := ExtractText(system);
    if prompt != "" {
      out := out + [Turn("system", prompt, [])];
    }
    for i := 0 to |messages|
      invariant Readable(messages[..i])
      invariant out == Conversation(prompt, messages[..i], marshal)
    {
      OneMoreMessage(prompt, messages, i, marshal);
      OneMoreIsReadable(messages, i);
      var converted := TranslateMessage(messages[i], marshal);
      if converted.Err? {
        return Err(converted.error);
      }
      out := out + converted.value;
    }
    ghost var parts := ConversationIsTold(prompt, messages, marshal);
    return Ok(out);
  }

  // ---- tools survive the translation ----

  function ToolCallsOf(out: seq<ChatMessage>): seq<Call> {
    if out == [] then []
    else ToolCallsOf(out[..|out| - 1]) + CallsOf(out[|out| - 1])
  }

  function ToolMessagesOf(out: seq<ChatMessage>): seq<ChatMessage> {
    if out == [] then []
    else ToolMessagesOf(out[..|out| - 1]) + ResultOf(out[|out| - 1])
  }

  function AllCalls<J>(messages: seq<Message<J>>, marshal: J -> string): seq<Call> {
    if messages == [] then []
    else AllCalls(messages[..|messages| - 1], marshal) + CallsIn(BlocksOf(messages[|messages| - 1]), marshal)
  }

  function AllResults<J>(messages: seq<Message<J>>, marshal: J -> string): seq<ChatMessage> {
    if messages == [] then []
    else AllResults(messages[..|messages| - 1], marshal) + ResultsIn(BlocksOf(messages[|messages| - 1]), marshal)
  }

  function CallsOf(m: ChatMessage): seq<Call> { if m.Turn? then m.toolCalls else [] }
  function ResultOf(m: ChatMessage): seq<ChatMessage> { if m.Tool? then [m] else [] }

  lemma OneMoreOut(out: seq<ChatMessage>, m: ChatMessage)
    ensures ToolCallsOf(out + [m]) == ToolCallsOf(out) + CallsOf(m)
    ensures ToolMessagesOf(out + [m]) == ToolMessagesOf(out) + ResultOf(m)
  {
    assert (out + [m])[..|out|] == out;
  }

  lemma {:induction false} ToolsInTwo(a: seq<ChatMessage>, b: seq<ChatMessage>)
    ensures ToolCallsOf(a + b) == ToolCallsOf(a) + ToolCallsOf(b)
    ensures ToolMessagesOf(a + b) == ToolMessagesOf(a) + ToolMessagesOf(b)
  {
    if b == [] {
      assert a + b == a;
    } else {
      var front, last := b[..|b| - 1], b[|b| - 1];
      ToolsInTwo(a, front);
      assert a + b == (a + front) + [last];
      OneMoreOut(a + front, last);
      Associative(ToolCallsOf(a), ToolCallsOf(front), CallsOf(last));
      Associative(ToolMessagesOf(a), ToolMessagesOf(front), ResultOf(last));
    }
  }

  lemma {:induction false} OnlyToolMessages(out: seq<ChatMessage>)
    requires forall i :: 0 <= i < |out| ==> out[i].Tool?
    ensures ToolCallsOf(out) == [] && ToolMessagesOf(out) == out
  {
    if out != [] {
      var front := out[..|out| - 1];
      OnlyToolMessages(front);
      assert out == front + [out[|out| - 1]];
    }
  }

  lemma OneTurn(role: string, content: string, calls: seq<Call>)
    ensures ToolCallsOf([Turn(role, content, calls)]) == calls
    ensures ToolMessagesOf([Turn(role, content, calls)]) == []
  {
    var out := [Turn(role, content, calls)];
    assert out[..0] == [];
    assert [] + calls == calls;
  }

  // A message's output is at most one turn, carrying all its calls, then all its results.
  lemma TranslatedShape<J>(m: Message<J>, marshal: J -> string) returns (lead: seq<ChatMessage>)
    ensures Translated(m, marshal) == lead + ResultsIn(BlocksOf(m), marshal)
    ensures ToolCallsOf(lead) == CallsIn(BlocksOf(m), marshal) && ToolMessagesOf(lead) == []
    ensures forall i :: 0 <= i < |lead| ==> lead[i].Turn?
  {
    var texts, calls, results := Texts(BlocksOf(m)), CallsIn(BlocksOf(m), marshal), ResultsIn(BlocksOf(m), marshal);
    if m.content.Plain? {
      lead := [Turn(m.role, m.content.text, [])];
      OneTurn(m.role, m.content.text, []);
    } else if m.content.Malformed? {
      lead := [];
    } else if texts != [] || calls != [] {
      lead := [Turn(m.role, Join(texts, "\n"), calls)];
      OneTurn(m.role, Join(texts, "\n"), calls);
    } else if results != [] {
      lead := [];
    } else {
      lead := [Turn(m.role, "", [])];
      OneTurn(m.role, "", []);
    }
  }

  /** Every tool_use and every tool_result appears in the output exactly once, each kind in order. */
  lemma {:induction false} ToolsSurvive<J>(system: string, messages: seq<Message<J>>, marshal: J -> string)
    ensures ToolCallsOf(Conversation(system, messages, marshal)) == AllCalls(messages, marshal)
    ensures ToolMessagesOf(Conversation(system, messages, marshal)) == AllResults(messages, marshal)
  {
    if messages == [] {
      OneTurn("system", system, []);
    } else {
      var front, last := messages[..|messages| - 1], messages[|messages| - 1];
      ToolsSurvive(system, front, marshal);
      var lead := TranslatedShape(last, marshal);
      var results := ResultsIn(BlocksOf(last), marshal);
      OnlyToolMessages(results);
      ToolsInTwo(lead, results);
      ToolsInTwo(Conversation(system, front, marshal), lead + results);
      assert ToolCallsOf(lead + results) == ToolCallsOf(lead);
      assert ToolMessagesOf(lead + results) == results;
    }
  }

  // ---- pairing ----

  function Ids(calls: seq<Call>): set<string> { set c | c in calls :: c.id }

  // Every tool_result answers a tool_use of its own or an earlier message.
  ghost predicate PairedIn<J>(messages: seq<Message<J>>, marshal: J -> string) {
    forall i :: 0 <= i < |messages| ==> PairedAt(messages, i, marshal)
  }

  ghost predicate PairedAt<J>(messages: seq<Message<J>>, i: nat, marshal: J -> string)
    requires i < |messages|
  {
    forall r :: r in ResultsIn(BlocksOf(messages[i]), marshal) ==> r.callId in Ids(AllCalls(messages[..i + 1], marshal))
  }

  // Every tool message comes after a turn that carries its call.
  ghost predicate PairedOut(out: seq<ChatMessage>) {
    forall i :: 0 <= i < |out| && out[i].Tool? ==> out[i].callId in Ids(ToolCallsOf(out[..i]))
  }

  // Tool messages behind a paired prefix are paired exactly when their calls are in the prefix.
  lemma PairedBehind(out: seq<ChatMessage>, results: seq<ChatMessage>)
    requires forall i :: 0 <= i < |results| ==> results[i].Tool?
    ensures PairedOut(out + results) <==>
      PairedOut(out) && forall r :: r in results ==> r.callId in Ids(ToolCallsOf(out))
  {
    var both := out + results;
    forall i | 0 <= i < |out| ensures both[i] == out[i] && both[..i] == out[..i] {
    }
    forall i | 0 <= i < |results|
      ensures both[|out| + i] == results[i] && ToolCallsOf(both[..|out| + i]) == ToolCallsOf(out)
    {
      assert both[..|out| + i] == out + results[..i];
      ToolsInTwo(out, results[..i]);
      OnlyToolMessages(results[..i]);
      assert ToolCallsOf(out) + [] == ToolCallsOf(out);
    }
    if PairedOut(both) {
      forall i | 0 <= i < |out| && out[i].Tool? ensures out[i].callId in Ids(ToolCallsOf(out[..i])) {
        assert both[i].Tool?;
      }
      forall r | r in results ensures r.callId in Ids(ToolCallsOf(out)) {
        var i :| 0 <= i < |results| && results[i] == r;
        assert both[|out| + i].Tool?;
      }
    }
  }

  lemma TurnsArePaired(out: seq<ChatMessage>, lead: seq<ChatMessage>)
    requires forall i :: 0 <= i < |lead| ==> lead[i].Turn?
    ensures PairedOut(out + lead) <==> PairedOut(out)
  {
    var both := out + lead;
    forall i | 0 <= i < |out| ensures both[i] == out[i] && both[..i] == out[..i] {
    }
    if PairedOut(both) {
      forall i | 0 <= i < |out| && out[i].Tool? ensures out[i].callId in Ids(ToolCallsOf(out[..i])) {
        assert both[i].Tool?;
      }
    }
  }

  lemma PairedAtPrefix<J>(messages: seq<Message<J>>, n: nat, i: nat, marshal: J -> string)
    requires i < n <= |messages|
    ensures PairedAt(messages[..n], i, marshal) <==> PairedAt(messages, i, marshal)
  {
    assert messages[..n][..i + 1] == messages[..i + 1] && messages[..n][i] == messages[i];
  }

  lemma PairedPrefix<J>(messages: seq<Message<J>>, n: nat, marshal: J -> string)
    requires n <= |messages|
    ensures PairedIn(messages[..n], marshal) <==> forall i :: 0 <= i < n ==> PairedAt(messages, i, marshal)
  {
    forall i | 0 <= i < n ensures PairedAt(messages[..n], i, marshal) <==> PairedAt(messages, i, marshal) {
      PairedAtPrefix(messages, n, i, marshal);
    }
  }

  lemma PairedInOneMore<J>(messages: seq<Message<J>>, marshal: J -> string)
    requires messages != []
    ensures PairedIn(messages, marshal) <==>
      PairedIn(messages[..|messages| - 1], marshal) && PairedAt(messages, |messages| - 1, marshal)
  {
    PairedPrefix(messages, |messages| - 1, marshal);
  }

  lemma MessageIsPaired<J>(out: seq<ChatMessage>, m: Message<J>, marshal: J -> string)
    ensures PairedOut(out + Translated(m, marshal)) <==>
      && PairedOut(out)
      && forall r :: r in ResultsIn(BlocksOf(m), marshal) ==>
           r.callId in Ids(ToolCallsOf(out) + CallsIn(BlocksOf(m), marshal))
  {
    var lead := TranslatedShape(m, marshal);
    var results := ResultsIn(BlocksOf(m), marshal);
    assert out + Translated(m, marshal) == out + lead + results;
    ToolsInTwo(out, lead);
    TurnsArePaired(out, lead);
    PairedBehind(out + lead, results);
  }

  /** The output pairs every tool message with an earlier call exactly when the input did. */
  lemma {:induction false} PairingIsKept<J>(system: string, messages: seq<Message<J>>, marshal: J -> string)
    ensures PairedOut(Conversation(system, messages, marshal)) <==> PairedIn(messages, marshal)
  {
    if messages != [] {
      var front := messages[..|messages| - 1];
      PairingIsKept(system, front, marshal);
      ToolsSurvive(system, front, marshal);
      MessageIsPaired(Conversation(system, front, marshal), messages[|messages| - 1], marshal);
      PairedInOneMore(messages, marshal);
      assert messages[..|messages|] == messages;
    }
  }

  // ---- what the output tells, read back from its messages: texts on lines ----

  // content is the texts in order, with one newline between neighbours: text k starts at off[k].
  ghost predicate LinesAt(content: string, texts: seq<string>, off: seq<nat>) {
    && |off| == |texts|
    && (texts == [] ==> content == "")
    && (texts != [] ==> off[0] == 0 && off[|texts| - 1] + |texts[|texts| - 1]| == |content|)
    && (forall k :: 0 <= k < |texts| ==>
          off[k] + |texts[k]| <= |content| && content[off[k]..off[k] + |texts[k]|] == texts[k])
    && (forall k :: 0 <= k < |texts| - 1 ==> NewlineBehind(content, off[k] + |texts[k]|, off[k + 1]))
  }

  ghost predicate NewlineBehind(content: string, end: nat, next: nat) {
    end < |content| && content[end] == '\n' && next == end + 1
  }

  ghost predicate OnLines(content: string, texts: seq<string>) {
    exists off :: LinesAt(content, texts, off)
  }

  lemma OneMoreLine(content: string, texts: seq<string>, off: seq<nat>, text: string)
    requires texts != [] && LinesAt(content, texts, off)
    ensures LinesAt(content + "\n" + text, texts + [text], off + [|content| + 1])
  {
    var more, all, at := content + "\n" + text, texts + [text], off + [|content| + 1];
    forall k | 0 <= k < |all|
      ensures at[k] + |all[k]| <= |more| && more[at[k]..at[k] + |all[k]|] == all[k]
    {
      if k < |texts| {
        assert more[at[k]..at[k] + |all[k]|] == content[off[k]..off[k] + |texts[k]|];
      }
    }
    forall k | 0 <= k < |all| - 1 ensures NewlineBehind(more, at[k] + |all[k]|, at[k + 1]) {
      if k < |texts| - 1 {
        assert NewlineBehind(content, off[k] + |texts[k]|, off[k + 1]);
      }
    }
  }

  lemma {:induction false} JoinedOnLines(texts: seq<string>)
    ensures OnLines(Join(texts, "\n"), texts)
  {
    if texts == [] {
      assert LinesAt("", texts, []);
    } else if |texts| == 1 {
      assert LinesAt(texts[0], texts, [0]);
    } else {
      var front, last := texts[..|texts| - 1], texts[|texts| - 1];
      assert texts == front + [last];
      JoinedOnLines(front);
      OneMoreOnLines(Join(front, "\n"), front, last);
    }
  }

  lemma OneMoreOnLines(content: string, texts: seq<string>, text: string)
    requires texts != [] && OnLines(content, texts)
    ensures OnLines(content + "\n" + text, texts + [text])
  {
    var off :| LinesAt(content, texts, off);
    OneMoreLine(content, texts, off, text);
  }

  // ---- one message ----

  // Where the texts, the tool uses and the tool results stand.
  ghost function TextPlaces<J>(blocks: seq<Block<J>>): set<nat> {
    set i: nat | i < |blocks| && HasText(blocks[i]) :: i
  }

  ghost function UsePlaces<J>(blocks: seq<Block<J>>): set<nat> {
    set i: nat | i < |blocks| && blocks[i].ToolUse? :: i
  }

  ghost function ResultPlaces<J>(blocks: seq<Block<J>>): set<nat> {
    set i: nat | i < |blocks| && blocks[i].ToolResult? :: i
  }

  lemma OneMoreBlock<J>(front: seq<Block<J>>, b: Block<J>)
    ensures var all, n := front + [b], |front|;
      && TextPlaces(all) == TextPlaces(front) + (if HasText(b) then {n} else {})
      && UsePlaces(all) == UsePlaces(front) + (if b.ToolUse? then {n} else {})
      && ResultPlaces(all) == ResultPlaces(front) + (if b.ToolResult? then {n} else {})
  {
    var all, n := front + [b], |front|;
    forall i: nat
      ensures i in TextPlaces(all) <==> i in TextPlaces(front) || (i == n && HasText(b))
      ensures i in UsePlaces(all) <==> i in UsePlaces(front) || (i == n && b.ToolUse?)
      ensures i in ResultPlaces(all) <==> i in ResultPlaces(front) || (i == n && b.ToolResult?)
    {
      assert i < n ==> all[i] == front[i];
      assert all[n] == b;
    }
  }

  // The content of a turn is the blocks' texts, in order, on a line each.
  ghost predicate TellsTexts<J>(blocks: seq<Block<J>>, content: string) {
    exists idx, texts: seq<string> ::
      && Places(idx, TextPlaces(blocks))
      && TextsAt(blocks, idx, texts) && OnLines(content, texts)
  }

  ghost predicate TextsAt<J>(blocks: seq<Block<J>>, idx: seq<nat>, texts: seq<string>) {
    && |texts| == |idx|
    && forall k :: 0 <= k < |idx| ==>
         idx[k] < |blocks| && blocks[idx[k]].TextBlock? && blocks[idx[k]].text == Some(texts[k])
  }

  // The calls of a turn are the blocks' tool uses, in order, each with its id, name and arguments.
  ghost predicate TellsCalls<J>(blocks: seq<Block<J>>, marshal: J -> string, calls: seq<Call>) {
    exists idx ::
      && Places(idx, UsePlaces(blocks))
      && CallsAt(blocks, marshal, idx, calls)
  }

  ghost predicate CallsAt<J>(blocks: seq<Block<J>>, marshal: J -> string, idx: seq<nat>, calls: seq<Call>) {
    && |calls| == |idx|
    && forall k :: 0 <= k < |idx| ==>
         && idx[k] < |blocks| && blocks[idx[k]].ToolUse?
         && calls[k].id == blocks[idx[k]].id && calls[k].name == blocks[idx[k]].name
         && calls[k].arguments == marshal(blocks[idx[k]].input)
  }

  // The tool messages are the blocks' tool results, in order, each under its id, with the words it holds or
  // the value it holds written out.
  ghost predicate TellsResults<J>(blocks: seq<Block<J>>, marshal: J -> string, results: seq<ChatMessage>) {
    exists idx ::
      && Places(idx, ResultPlaces(blocks))
      && ResultsAt(blocks, marshal, idx, results)
  }

  ghost predicate ResultsAt<J>(blocks: seq<Block<J>>, marshal: J -> string, idx: seq<nat>, results: seq<ChatMessage>) {
    && |results| == |idx|
    && forall k :: 0 <= k < |idx| ==>
         && idx[k] < |blocks| && blocks[idx[k]].ToolResult?
         && results[k].Tool? && results[k].callId == blocks[idx[k]].id
         && (blocks[idx[k]].content.Words? ==> results[k].content == blocks[idx[k]].content.text)
         && (blocks[idx[k]].content.Structured? ==> results[k].content == marshal(blocks[idx[k]].content.value))
  }

  ghost predicate HasText<J>(b: Block<J>) { b.TextBlock? && b.text.Some? }

  // Only results, and some: these are told without a turn.
  ghost predicate ResultsOnly<J>(blocks: seq<Block<J>>) {
    && (forall i :: 0 <= i < |blocks| ==> !HasText(blocks[i]) && !blocks[i].ToolUse?)
    && exists i :: 0 <= i < |blocks| && blocks[i].ToolResult?
  }

  /** What one message is told as: a plain one as one turn in its own words; one in blocks as a turn with its
      texts and calls, unless it has nothing but results, and then its results. */
  ghost predicate Tells<J>(m: Message<J>, marshal: J -> string, part: seq<ChatMessage>) {
    match m.content
    case Plain(text) =>
      |part| == 1 && part[0].Turn? && part[0].role == m.role && part[0].content == text && part[0].toolCalls == []
    case Malformed => part == []
    case Blocks(blocks) =>
      if ResultsOnly(blocks) then TellsResults(blocks, marshal, part)
      else
        && part != [] && part[0].Turn? && part[0].role == m.role
        && TellsTexts(blocks, part[0].content) && TellsCalls(blocks, marshal, part[0].toolCalls)
        && TellsResults(blocks, marshal, part[1..])
  }

  lemma {:induction false} TextsAreTold<J>(blocks: seq<Block<J>>) returns (idx: seq<nat>)
    ensures Places(idx, TextPlaces(blocks)) && TextsAt(blocks, idx, Texts(blocks))
  {
    if blocks == [] {
      idx := [];
    } else {
      var front, b := blocks[..|blocks| - 1], blocks[|blocks| - 1];
      assert blocks == front + [b];
      idx := TextsAreTold(front);
      OneMoreBlock(front, b);
      if HasText(b) {
        OneMorePlace(idx, TextPlaces(front), |front|);
        idx := idx + [|front|];
      }
    }
  }

  lemma {:induction false} CallsAreTold<J>(blocks: seq<Block<J>>, marshal: J -> string) returns (idx: seq<nat>)
    ensures Places(idx, UsePlaces(blocks)) && CallsAt(blocks, marshal, idx, CallsIn(blocks, marshal))
  {
    if blocks == [] {
      idx := [];
    } else {
      var front, b := blocks[..|blocks| - 1], blocks[|blocks| - 1];
      assert blocks == front + [b];
      idx := CallsAreTold(front, marshal);
      OneMoreBlock(front, b);
      if b.ToolUse? {
        OneMorePlace(idx, UsePlaces(front), |front|);
        idx := idx + [|front|];
      }
    }
  }

  lemma {:induction false} ResultsAreTold<J>(blocks: seq<Block<J>>, marshal: J -> string) returns (idx: seq<nat>)
    ensures Places(idx, ResultPlaces(blocks)) && ResultsAt(blocks, marshal, idx, ResultsIn(blocks, marshal))
  {
    if blocks == [] {
      idx := [];
    } else {
      var front, b := blocks[..|blocks| - 1], blocks[|blocks| - 1];
      assert blocks == front + [b];
      idx := ResultsAreTold(front, marshal);
      OneMoreBlock(front, b);
      if b.ToolResult? {
        OneMorePlace(idx, ResultPlaces(front), |front|);
        idx := idx + [|front|];
      }
    }
  }

  lemma TextsTold<J>(blocks: seq<Block<J>>)
    ensures TellsTexts(blocks, Join(Texts(blocks), "\n"))
    ensures Texts(blocks) == [] <==> forall i :: 0 <= i < |blocks| ==> !HasText(blocks[i])
  {
    var idx := TextsAreTold(blocks);
    JoinedOnLines(Texts(blocks));
    assert forall i: nat :: i < |blocks| && HasText(blocks[i]) ==> i in idx;
    if idx != [] {
      assert idx[0] in idx;
    }
  }

  lemma CallsTold<J>(blocks: seq<Block<J>>, marshal: J -> string)
    ensures TellsCalls(blocks, marshal, CallsIn(blocks, marshal))
    ensures CallsIn(blocks, marshal) == [] <==> forall i :: 0 <= i < |blocks| ==> !blocks[i].ToolUse?
  {
    var idx := CallsAreTold(blocks, marshal);
    assert forall i: nat :: i < |blocks| && blocks[i].ToolUse? ==> i in idx;
    if idx != [] {
      assert idx[0] in idx;
    }
  }

  lemma ResultsTold<J>(blocks: seq<Block<J>>, marshal: J -> string)
    ensures TellsResults(blocks, marshal, ResultsIn(blocks, marshal))
    ensures ResultsIn(blocks, marshal) == [] <==> forall i :: 0 <= i < |blocks| ==> !blocks[i].ToolResult?
  {
    var idx := ResultsAreTold(blocks, marshal);
    assert forall i: nat :: i < |blocks| && blocks[i].ToolResult? ==> i in idx;
    if idx != [] {
      assert idx[0] in idx;
    }
  }

  lemma MessageIsTold<J>(m: Message<J>, marshal: J -> string)
    ensures Tells(m, marshal, Translated(m, marshal))
  {
    if m.content.Blocks? {
      BlocksAreTold(m, m.content.blocks, marshal);
    }
  }

  lemma BlocksAreTold<J>(m: Message<J>, blocks: seq<Block<J>>, marshal: J -> string)
    requires m.content == Blocks(blocks)
    ensures Tells(m, marshal, Translated(m, marshal))
  {
    TextsTold(blocks);
    CallsTold(blocks, marshal);
    ResultsTold(blocks, marshal);
    var texts, calls, results := Texts(blocks), CallsIn(blocks, marshal), ResultsIn(blocks, marshal);
    var part := Translated(m, marshal);
    if texts == [] && calls == [] && results != [] {
      assert part == results && ResultsOnly(blocks);
    } else {
      assert !ResultsOnly(blocks) && part == [Turn(m.role, Join(texts, "\n"), calls)] + results;
      assert part[1..] == results;
    }
  }

  // ---- the whole conversation ----

  // The parts the output falls into, one behind the other.
  ghost function InOrder(parts: seq<seq<ChatMessage>>): seq<ChatMessage> {
    if parts == [] then [] else InOrder(parts[..|parts| - 1]) + parts[|parts| - 1]
  }

  /** The system prompt leads, if there is one; then every message is told, in order and with nothing
      between. */
  ghost predicate TellsAll<J>(system: string, messages: seq<Message<J>>, marshal: J -> string, out: seq<ChatMessage>,
                              parts: seq<seq<ChatMessage>>) {
    && |parts| == |messages| + 1 && out == InOrder(parts)
    && (if system == "" then parts[0] == []
        else
          && |parts[0]| == 1 && parts[0][0].Turn? && parts[0][0].role == "system"
          && parts[0][0].content == system && parts[0][0].toolCalls == [])
    && forall i :: 0 <= i < |messages| ==> Tells(messages[i], marshal, parts[i + 1])
  }

  /** Over any conversation the translation tells everything: each message's words, calls and results, in
      order, under its own role. */
  lemma {:induction false} ConversationIsTold<J>(system: string, messages: seq<Message<J>>, marshal: J -> string)
    returns (parts: seq<seq<ChatMessage>>)
    ensures TellsAll(system, messages, marshal, Conversation(system, messages, marshal), parts)
  {
    if messages == [] {
      parts := [SystemTurn(system)];
      assert parts[..0] == [] && InOrder(parts[..0]) == [];
      assert [] + SystemTurn(system) == SystemTurn(system);
    } else {
      var n := |messages| - 1;
      var before := ConversationIsTold(system, messages[..n], marshal);
      parts := before + [Translated(messages[n], marshal)];
      MessageIsTold(messages[n], marshal);
      assert parts[..|parts| - 1] == before;
      forall i | 0 <= i < |messages| ensures Tells(messages[i], marshal, parts[i + 1]) {
        if i < n {
          assert messages[..n][i] == messages[i] && before[i + 1] == parts[i + 1];
        }
      }
    }
  }
}
