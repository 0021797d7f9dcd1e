/** Upstream bodies in internal/gateway/server.go: reading, probing and snapshotting them, and what
    counts as a useful completion. */
module Completions {
  import opened Prelude
  import opened Text

  // ---- JSON, with parsing left as parameters ----

  // The text of a JSON value inside a larger document.
  type Raw = string
  type Fields = map<string, Raw>

  // A content block: its text and type members when they are strings.
  datatype ContentBlock = ContentBlock(text: Option<string>, kind: Option<string>)
  datatype Choice = Choice(content: Raw, refusal: Raw, toolCalls: nat, functionCall: Raw, finish: string)

  datatype Codec = Codec(
    fields: Bytes -> Option<Fields>,                 // a document that is an object, its members as decoded
    marshal: Fields -> Bytes,
    quote: string -> Raw,
    asString: Raw -> Option<string>,
    isObject: Raw -> bool,                           // an object with at least one member
    asBlocks: Raw -> Option<seq<ContentBlock>>,
    choices: Bytes -> Option<seq<Choice>>,
    asText: Bytes -> string,
    digest: Bytes -> string,
    bytesOf: string -> Bytes)

  predicate Meaningful(c: Codec, raw: Raw) {
    var trimmed := TrimSpace(raw);
    trimmed !in ["", "null", "\"\"", "[]", "{}"] &&
    match c.asString(trimmed)
    case Some(text) => TrimSpace(text) != ""
    case None => true
  }

  predicate MeaningfulBlock(b: ContentBlock) {
    || (b.text.Some? && TrimSpace(b.text.value) != "")
    || (b.kind.Some? && b.kind.value != "" && b.kind.value != "text")
  }

  predicate MeaningfulContent(c: Codec, raw: Raw) {
    Meaningful(c, raw) &&
    match c.asString(raw)
    case Some(text) => TrimSpace(text) != ""
    case None =>
      match c.asBlocks(raw)
      case None => true
      case Some(blocks) => exists i :: 0 <= i < |blocks| && MeaningfulBlock(blocks[i])
  }

  predicate RequiresToolCall(c: Codec, body: Bytes) {
    match c.fields(body)
    case None => false
    case Some(request) =>
      if "tool_choice" in request && c.asString(request["tool_choice"]).Some? then
        c.asString(request["tool_choice"]).value == "required"
      else if "tool_choice" in request && c.isObject(request["tool_choice"]) then true
      else if "function_call" in request then
        match c.asString(request["function_call"])
        case Some(choice) => choice != "" && choice != "auto" && choice != "none"
        case None => c.isObject(request["function_call"])
      else false
  }

  const TOOL_FIELDS := ["tools", "tool_choice", "functions", "function_call"]

  predicate AllowsCache(c: Codec, body: Bytes) {
    match c.fields(body)
    case None => false
    case Some(request) =>
      forall i :: 0 <= i < |TOOL_FIELDS| ==> !(TOOL_FIELDS[i] in request && Meaningful(c, request[TOOL_FIELDS[i]]))
  }

  // What the client asked for under the upstream model name, and the model's defaults for what it left out.
  function Merged(c: Codec, asked: Fields, model: string, defaults: Fields): Fields {
    var named := asked["model" := c.quote(model)];
    (map k | k in defaults && k !in named :: defaults[k]) + named
  }

  function Patched(c: Codec, body: Bytes, model: string, defaults: Fields): Option<Bytes> {
    match c.fields(body)
    case None => None
    case Some(asked) => Some(c.marshal(Merged(c, asked, model, defaults)))
  }

  /** What upstream reads back, if it reads back what was written: its own model name, everything else the
      client asked for as it was decoded, and the defaults for the rest and nothing more. */
  lemma ClientFieldsWin(c: Codec, body: Bytes, model: string, defaults: Fields)
    requires c.fields(body).Some?
    requires var sent := Merged(c, c.fields(body).value, model, defaults); c.fields(c.marshal(sent)) == Some(sent)
    ensures Patched(c, body, model, defaults).Some?
    ensures var asked, sent := c.fields(body), c.fields(Patched(c, body, model, defaults).value);
      && sent.Some?
      && sent.value.Keys == asked.value.Keys + defaults.Keys + {"model"}
      && sent.value["model"] == c.quote(model)
      && (forall k :: k in asked.value && k != "model" ==> sent.value[k] == asked.value[k])
      && (forall k :: k in defaults && k !in asked.value && k != "model" ==> sent.value[k] == defaults[k])
  {
  }

  datatype Usefulness = Useful | Useless(reason: string)

  function Judged(c: Codec, data: Bytes, request: Bytes): Usefulness {
    match c.choices(data)
    case None => Useless("invalid_success_response")
    case Some(choices) =>
      if choices == [] then Useless("invalid_success_response")
      else
        var m := choices[0];
        var calls := m.toolCalls > 0 || Meaningful(c, m.functionCall);
        if m.finish == "content_filter" then Useful
        else if RequiresToolCall(c, request) then
          if calls then Useful else Useless("required_tool_call_missing")
        else if MeaningfulContent(c, m.content) || Meaningful(c, m.refusal) || calls then Useful
        else Useless("empty_success_response")
  }

  // ---- what makes a success useful, said apart ----

  // Some character of the text shows.
  ghost predicate Shows(text: string) { exists i :: 0 <= i < |text| && !IsSpace(text[i]) }

  // A JSON value with something in it: not missing, null or empty, and if it is a string, with a character
  // that shows.
  ghost predicate Something(c: Codec, raw: Raw) {
    var value := TrimSpace(raw);
    && value != "" && value != "null" && value != "\"\"" && value != "[]" && value != "{}"
    && (c.asString(value).Some? ==> Shows(c.asString(value).value))
  }

  // A block that says something: its text shows, or it is of another type than text.
  ghost predicate SaysSomething(b: ContentBlock) {
    || (b.text.Some? && Shows(b.text.value))
    || (b.kind.Some? && b.kind.value != "" && b.kind.value != "text")
  }

  // Content with text: something, and if it is a string, one that shows; if it is blocks, one that says something.
  ghost predicate SomeText(c: Codec, raw: Raw) {
    && Something(c, raw)
    && (c.asString(raw).Some? ==> Shows(c.asString(raw).value))
    && (c.asString(raw).None? && c.asBlocks(raw).Some? ==>
          exists i :: 0 <= i < |c.asBlocks(raw).value| && SaysSomething(c.asBlocks(raw).value[i]))
  }

  // The request insists on a call. A tool_choice that is a string or a nonempty object settles it; otherwise
  // a function_call does, if there is one.
  ghost predicate CallWanted(c: Codec, request: Bytes) {
    && c.fields(request).Some?
    && var q := c.fields(request).value;
       var choice := if "tool_choice" in q then c.asString(q["tool_choice"]) else None;
       var named := "tool_choice" in q && choice.None? && c.isObject(q["tool_choice"]);
       || choice == Some("required")
       || named
       || (choice.None? && !named && "function_call" in q
           && match c.asString(q["function_call"])
              case Some(call) => call !in {"", "auto", "none"}
              case None => c.isObject(q["function_call"]))
  }

  // The first choice holds a call of either kind.
  ghost predicate CallMade(c: Codec, m: Choice) { m.toolCalls > 0 || Something(c, m.functionCall) }

  // The first choice is worth passing on: it was filtered, or it makes the call it has to make, or none is
  // wanted and it has text, a refusal or a call.
  ghost predicate WorthIt(c: Codec, m: Choice, request: Bytes) {
    || m.finish == "content_filter"
    || (CallWanted(c, request) && CallMade(c, m))
    || (!CallWanted(c, request) && (SomeText(c, m.content) || Something(c, m.refusal) || CallMade(c, m)))
  }

  ghost predicate HasChoice(c: Codec, data: Bytes) { c.choices(data).Some? && c.choices(data).value != [] }

  ghost predicate Worthwhile(c: Codec, data: Bytes, request: Bytes) {
    HasChoice(c, data) && WorthIt(c, c.choices(data).value[0], request)
  }

  /** The judgement on a whole success body, and the three reasons for finding it useless. */
  ghost predicate JudgedRightly(c: Codec, data: Bytes, request: Bytes, u: Usefulness) {
    && (u == Useful <==> Worthwhile(c, data, request))
    && (u == Useless("invalid_success_response") <==> !HasChoice(c, data))
    && (u == Useless("required_tool_call_missing") <==>
          HasChoice(c, data) && !Worthwhile(c, data, request) && CallWanted(c, request))
    && (u == Useless("empty_success_response") <==>
          HasChoice(c, data) && !Worthwhile(c, data, request) && !CallWanted(c, request))
  }

  lemma ShowsUnlessBlank(text: string)
    ensures TrimSpace(text) != "" <==> Shows(text)
  {
    BlankIsAllSpaces(text);
  }

  lemma MeaningfulIsSomething(c: Codec, raw: Raw)
    ensures Meaningful(c, raw) <==> Something(c, raw)
  {
    var value := TrimSpace(raw);
    if c.asString(value).Some? {
      ShowsUnlessBlank(c.asString(value).value);
    }
  }

  lemma MeaningfulBlockSays(b: ContentBlock)
    ensures MeaningfulBlock(b) <==> SaysSomething(b)
  {
    if b.text.Some? {
      ShowsUnlessBlank(b.text.value);
    }
  }

  lemma MeaningfulContentIsText(c: Codec, raw: Raw)
    ensures MeaningfulContent(c, raw) <==> SomeText(c, raw)
  {
    MeaningfulIsSomething(c, raw);
    if c.asString(raw).Some? {
      ShowsUnlessBlank(c.asString(raw).value);
    } else if c.asBlocks(raw).Some? {
      forall i | 0 <= i < |c.asBlocks(raw).value|
        ensures MeaningfulBlock(c.asBlocks(raw).value[i]) <==> SaysSomething(c.asBlocks(raw).value[i])
      {
        MeaningfulBlockSays(c.asBlocks(raw).value[i]);
      }
    }
  }

  lemma RequiredIsWanted(c: Codec, request: Bytes)
    ensures RequiresToolCall(c, request) <==> CallWanted(c, request)
  {
  }

  lemma JudgementIsRight(c: Codec, data: Bytes, request: Bytes)
    ensures JudgedRightly(c, data, request, Judged(c, data, request))
  {
    RequiredIsWanted(c, request);
    if c.choices(data).Some? && c.choices(data).value != [] {
      var m := c.choices(data).value[0];
      MeaningfulContentIsText(c, m.content);
      MeaningfulIsSomething(c, m.refusal);
      MeaningfulIsSomething(c, m.functionCall);
    }
  }

  /** A request without tools: an object none of whose four tool fields has anything in it. */
  ghost predicate WithoutTools(c: Codec, body: Bytes) {
    && c.fields(body).Some?
    && var q := c.fields(body).value;
       && ("tools" in q ==> !Something(c, q["tools"]))
       && ("tool_choice" in q ==> !Something(c, q["tool_choice"]))
       && ("functions" in q ==> !Something(c, q["functions"]))
       && ("function_call" in q ==> !Something(c, q["function_call"]))
  }

  lemma CacheIsForRequestsWithoutTools(c: Codec, body: Bytes)
    ensures AllowsCache(c, body) <==> WithoutTools(c, body)
  {
    if c.fields(body).Some? {
      var q := c.fields(body).value;
      forall field | field in q ensures Meaningful(c, q[field]) <==> Something(c, q[field]) {
        MeaningfulIsSomething(c, q[field]);
      }
      assert TOOL_FIELDS[0] == "tools" && TOOL_FIELDS[1] == "tool_choice" && TOOL_FIELDS[2] == "functions"
        && TOOL_FIELDS[3] == "function_call";
    }
  }

  // ---- readers ----

  // A response body: bytes in memory, what is left of an upstream connection (which may end in an
  // error), or bytes already taken followed by a reader.
  datatype Reader =
    | Buffer(data: Bytes)
    | Wire(data: Bytes, broken: bool)
    | Replay(head: Bytes, tail: Reader)

  // Everything a caller gets from a reader, and whether it ends in an error.
  function Drained(r: Reader): Bytes {
    match r
    case Buffer(data) => data
    case Wire(data, _) => data
    case Replay(head, tail) => head + Drained(tail)
  }

  function Fails(r: Reader): bool {
    match r
    case Buffer(_) => false
    case Wire(_, broken) => broken
    case Replay(_, tail) => Fails(tail)
  }

  // What is left after taking the first n bytes.
  function Rest(r: Reader, n: nat): Reader {
    match r
    case Buffer(data) => Buffer(data[Min(n, |data|)..])
    case Wire(data, broken) => Wire(data[Min(n, |data|)..], broken)
    case Replay(head, tail) =>
      if n <= |head| then Replay(head[n..], tail) else Rest(tail, n - |head|)
  }

  lemma {:induction false} RestDrains(r: Reader, n: nat)
    ensures Drained(Rest(r, n)) == Drained(r)[Min(n, |Drained(r)|)..] && Fails(Rest(r, n)) == Fails(r)
    decreases r
  {
    if r.Replay? && n > |r.head| {
      RestDrains(r.tail, n - |r.head|);
    }
  }

  /** Reading at most n bytes: an error is met only if the reader fails before the limit does its work. */
  method ReadLimited(r: Reader, n: nat) returns (data: Bytes, failed: bool, rest: Reader)
    ensures data == Drained(r)[..Min(n, |Drained(r)|)]
    ensures failed <==> Fails(r) && |Drained(r)| < n
    ensures Drained(Replay(data, rest)) == Drained(r) && Fails(rest) == Fails(r)
    ensures |data| < n ==> data == Drained(r)
  {
    data, failed, rest := Drained(r)[..Min(n, |Drained(r)|)], Fails(r) && |Drained(r)| < n, Rest(r, n);
    RestDrains(r, n);
  }

  const PROBE_LIMIT: nat := 8 * 1024 * 1024

  /** An upstream response. Closing its body, or any reader made over it, closes the upstream body. */
  class Response {
    const status: int
    const header: map<string, seq<string>>
    const upstream: Bytes        // every byte the upstream body yields
    var body: Reader
    var closed: bool             // whether the upstream body has been closed

    // What the caller would read is still exactly what upstream sends.
    ghost predicate Transparent()
      reads this
    {
      Drained(body) == upstream
    }

    constructor (status: int, header: map<string, seq<string>>, data: Bytes, broken: bool)
      ensures this.status == status && this.header == header && upstream == data
      ensures Transparent() && !closed && Fails(body) == broken
    {
      this.status, this.header, upstream := status, header, data;
      body, closed := Wire(data, broken), false;
    }

    method Close()
      modifies this`closed
      ensures closed
    {
      closed := true;
    }

    /** The probe. A body it can read to the end is buffered and its connection closed; a longer one is
        accepted unread; either way the caller will read exactly the upstream bytes. */
    method Probe(c: Codec, request: Bytes) returns (r: Result<Usefulness, string>)
      requires Transparent()
      modifies this`body, this`closed
      ensures r.Err? <==> old(Fails(body)) && |upstream| <= PROBE_LIMIT
      ensures r.Err? ==> closed
      ensures r.Ok? ==> Transparent() && Fails(body) == old(Fails(body))
      ensures r.Ok? && |upstream| > PROBE_LIMIT ==> r.value == Useful && closed == old(closed)
      ensures r.Ok? && |upstream| <= PROBE_LIMIT ==>
        r.value == Judged(c, upstream, request) && closed && body == Buffer(upstream)
      ensures r.Ok? && |upstream| <= 8 * 1024 * 1024 ==> JudgedRightly(c, upstream, request, r.value)
    {
      var data, failed, rest := ReadLimited(body, PROBE_LIMIT + 1);
      if failed {
        Close();
        return Err("read_success_response");
      }
      if |data| > PROBE_LIMIT {
        body := Replay(data, rest);
        return Ok(Useful);
      }
      Close();
      body := Buffer(data);
      JudgementIsRight(c, data, request);
      return Ok(Judged(c, data, request));
    }

    /** The snapshot for the cache: taken only of a whole body within the limit, in which case the
        connection is closed; the caller reads the upstream bytes whatever happens. */
    method Snapshot(maxBytes: nat) returns (whole: Option<Bytes>)
      requires Transparent()
      modifies this`body, this`closed
      ensures Transparent() && Fails(body) == old(Fails(body))
      ensures whole.Some? <==> !old(Fails(body)) && |upstream| <= maxBytes
      ensures whole.Some? ==> whole.value == upstream && closed
      ensures whole.None? ==> closed == old(closed)
    {
      var data, failed, rest := ReadLimited(body, maxBytes + 1);
      if failed || |data| > maxBytes {
        body := Replay(data, rest);
        return None;
      }
      Close();
      body := Buffer(data);
      return Some(data);
    }
  }
}
