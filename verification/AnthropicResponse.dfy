/** internal/gateway/anthropic_response.go: a whole completion translated into an Anthropic message. */
module AnthropicResponse {
  import opened Prelude
  import opened AnthropicStream

  // Content as the source finds it: absent, a string, or something else it writes out as JSON.
  datatype Content = Null | Plain(text: string) | Encoded(json: string)
  datatype Call = Call(id: string, name: string, arguments: string)
  datatype Choice = Choice(content: Content, toolCalls: seq<Call>, finish: string)
  datatype Completion = Completion(
    id: string, model: string, choices: seq<Choice>, promptTokens: int, completionTokens: int)

  // J is the type of parsed JSON values; parsing itself is a parameter.
  datatype Block<J> = TextBlock(text: string) | ToolUse(id: string, name: string, input: J)
  datatype Message<J> = Message(
    id: string, model: string, content: seq<Block<J>>, stopReason: string, inputTokens: int, outputTokens: int)

  function NullableText(c: Content): string {
    match c
    case Null => ""
    case Plain(text) => text
    case Encoded(json) => json
  }

  function ToolUses<J>(calls: seq<Call>, parse: string -> J): (r: seq<Block<J>>)
    ensures |r| == |calls|
  {
    seq(|calls|, i requires 0 <= i < |calls| => ToolUse(calls[i].id, calls[i].name, parse(calls[i].arguments)))
  }

  function TextBlocks<J>(text: string): seq<Block<J>> {
    if text != "" then [TextBlock(text)] else []
  }

  /** The content conveys the choice: its text first, if it has any, then each of its tool calls in order. */
  ghost predicate Conveys<J>(choice: Choice, parse: string -> J, content: seq<Block<J>>) {
    var silent := choice.content.Null? || choice.content == Plain("") || choice.content == Encoded("");
    var lead := if silent then 0 else 1;
    && |content| == lead + |choice.toolCalls|
    && (!silent ==>
          && content[0].TextBlock?
          && (choice.content.Plain? ==> content[0].text == choice.content.text)
          && (choice.content.Encoded? ==> content[0].text == choice.content.json))
    && forall i :: 0 <= i < |choice.toolCalls| ==>
         && content[lead + i].ToolUse?
         && content[lead + i].id == choice.toolCalls[i].id && content[lead + i].name == choice.toolCalls[i].name
         && content[lead + i].input == parse(choice.toolCalls[i].arguments)
  }

  method TranslateResponse<J>(c: Completion, requestedModel: string, parse: string -> J)
    returns (r: Result<Message<J>, string>)
    ensures r.Err? <==> c.choices == []
    ensures r.Ok? ==>
      && r.value.content == TextBlocks(NullableText(c.choices[0].content)) + ToolUses(c.choices[0].toolCalls, parse)
      && r.value.stopReason == StopReason(c.choices[0].finish)
    ensures r.Ok? ==> Conveys(c.choices[0], parse, r.value.content)
    ensures r.Ok? ==>
      && Explains(r.value.stopReason, c.choices[0].finish)
      && r.value.model == (if c.model != "" then c.model else requestedModel)
      && r.value.id == (if c.id != "" then c.id else "msg_alvus")
      && r.value.inputTokens == c.promptTokens && r.value.outputTokens == c.completionTokens
  {
    if |c.choices| == 0 {
      return Err("invalid OpenAI response");
    }
    var choice := c.choices[0];
    var content: seq<Block<J>> := [];
    var text := NullableText(choice.content);
    if text != "" {
      content := content + [TextBlock(text)];
    }
    for i := 0 to |choice.toolCalls|
      invariant content == TextBlocks(text) + ToolUses(choice.toolCalls[..i], parse)
    {
      var tc := choice.toolCalls[i];
      content := content + [ToolUse(tc.id, tc.name, parse(tc.arguments))];
      assert ToolUses(choice.toolCalls[..i + 1], parse) ==
        ToolUses(choice.toolCalls[..i], parse) + [ToolUse(tc.id, tc.name, parse(tc.arguments))];
    }
    assert choice.toolCalls[..|choice.toolCalls|] == choice.toolCalls;
    var stopReason := "end_turn";
    if choice.finish == "tool_calls" {
      stopReason := "tool_use";
    } else if choice.finish == "length" {
      stopReason := "max_tokens";
    }
    var model := requestedModel;
    if c.model != "" {
      model := c.model;
    }
    var id := FirstNonEmpty(c.id, "msg_alvus");
    return Ok(Message(id, model, content, stopReason, c.promptTokens, c.completionTokens));
  }
}
