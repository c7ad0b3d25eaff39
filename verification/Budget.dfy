/** The provider-neutral size estimate of a request, and the fixed pressure trigger. */
module Budget {
  import opened Messages
  import opened Sequences

  const MESSAGE_FRAME := 24
  const BLOCK_FRAME := 12
  const REQUEST_FRAME := 32
  const TOOL_FRAME := 32

  function BlockBytes(block: Content): nat {
    match block
    case Text(text, signature) => |text| + |signature|
    case Thinking(thinking, signature, _) => |thinking| + |signature|
    case Image(mediaType, url) => |mediaType| + |url|
    case File(filename, mediaType, url) => |filename| + |mediaType| + |url|
    case Call(call) => |call.id| + |call.name| + |call.arguments|
  }

  function ContentBytes(content: seq<Content>): nat {
    if content == [] then 0
    else ContentBytes(content[..|content| - 1]) + BLOCK_FRAME + BlockBytes(content[|content| - 1])
  }

  function MessageBytes(m: Message): nat {
    MESSAGE_FRAME +
    match m
    case User(content) => ContentBytes(content)
    case Reply(a) => |a.provider| + |a.model| + |a.responseModel| + |a.responseId| + ContentBytes(a.content)
    case ToolResult(callId, name, content, _) => |callId| + |name| + ContentBytes(content)
    case Foreign => 0
  }

  function MessagesBytes(ms: seq<Message>): nat {
    if ms == [] then 0 else MessagesBytes(ms[..|ms| - 1]) + MessageBytes(ms[|ms| - 1])
  }

  function ToolBytes(tools: seq<ToolSchema>): nat {
    if tools == [] then 0
    else
      var tool := tools[|tools| - 1];
      ToolBytes(tools[..|tools| - 1]) + TOOL_FRAME + |tool.name| + |tool.description|
      + (if tool.parameters.Some? then |tool.parameters.value| else 0)
  }

  // Two bytes a token, rounded up.
  function Tokens(bytes: nat): nat {
    (bytes + 1) / 2
  }

  function RequestTokens(systemPrompt: string, tools: seq<ToolSchema>, ms: seq<Message>): nat {
    Tokens(|systemPrompt| + REQUEST_FRAME + MessagesBytes(ms) + ToolBytes(tools))
  }

  method EstimateContentBytes(content: seq<Content>) returns (bytes: nat)
    ensures bytes == ContentBytes(content)
  {
    bytes := 0;
    for i := 0 to |content|
      invariant bytes == ContentBytes(content[..i])
    {
      bytes := bytes + BLOCK_FRAME;
      match content[i] {
        case Text(text, signature) => bytes := bytes + |text| + |signature|;
        case Thinking(thinking, signature, _) => bytes := bytes + |thinking| + |signature|;
        case Image(mediaType, url) => bytes := bytes + |mediaType| + |url|;
        case File(filename, mediaType, url) => bytes := bytes + |filename| + |mediaType| + |url|;
        case Call(call) => bytes := bytes + |call.id| + |call.name| + |call.arguments|;
      }
      assert content[..i + 1][..i] == content[..i];
    }
    assert content[..|content|] == content;
  }

  method EstimateMessagesBytes(messages: seq<Message>) returns (bytes: nat)
    ensures bytes == MessagesBytes(messages)
  {
    bytes := 0;
    for i := 0 to |messages|
      invariant bytes == MessagesBytes(messages[..i])
    {
      bytes := bytes + MESSAGE_FRAME;
      match messages[i] {
        case User(content) =>
          var n := EstimateContentBytes(content);
          bytes := bytes + n;
        case Reply(a) =>
          bytes := bytes + |a.provider| + |a.model| + |a.responseModel| + |a.responseId|;
          var n := EstimateContentBytes(a.content);
          bytes := bytes + n;
        case ToolResult(callId, name, content, _) =>
          bytes := bytes + |callId| + |name|;
          var n := EstimateContentBytes(content);
          bytes := bytes + n;
        case Foreign =>
      }
      assert messages[..i + 1][..i] == messages[..i];
    }
    assert messages[..|messages|] == messages;
  }

  method EstimateRequestTokens(systemPrompt: string, tools: seq<ToolSchema>, messages: seq<Message>) returns (tokens: nat)
    ensures tokens == RequestTokens(systemPrompt, tools, messages)
  {
    var messageBytes := EstimateMessagesBytes(messages);
    var bytes := |systemPrompt| + REQUEST_FRAME + messageBytes;
    for i := 0 to |tools|
      invariant bytes == |systemPrompt| + REQUEST_FRAME + MessagesBytes(messages) + ToolBytes(tools[..i])
    {
      var tool := tools[i];
      bytes := bytes + TOOL_FRAME + |tool.name| + |tool.description|;
      if tool.parameters.Some? {
        bytes := bytes + |tool.parameters.value|;
      }
      assert tools[..i + 1][..i] == tools[..i];
    }
    assert tools[..|tools|] == tools;
    tokens := (bytes + 1) / 2;
  }

  // ----- what the estimate promises -----

  lemma {:induction false} BytesAdd(a: seq<Message>, b: seq<Message>)
    ensures MessagesBytes(a + b) == MessagesBytes(a) + MessagesBytes(b)
    decreases |b|
  {
    if b == [] {
      assert a + b == a;
    } else {
      var n := |b| - 1;
      BytesAdd(a, b[..n]);
      assert (a + b)[..|a + b| - 1] == a + b[..n];
    }
  }

  lemma {:induction false} BytesAtLeastFrames(ms: seq<Message>)
    ensures MessagesBytes(ms) >= MESSAGE_FRAME * |ms|
  {
    if ms != [] {
      BytesAtLeastFrames(ms[..|ms| - 1]);
    }
  }

  // Estimating in chunks is off by at most one token a seam, and never too low.
  lemma ChunkedEstimate(a: seq<Message>, b: seq<Message>)
    ensures
      var whole, parts := Tokens(MessagesBytes(a + b)), Tokens(MessagesBytes(a)) + Tokens(MessagesBytes(b));
      whole <= parts <= whole + 1
  {
    BytesAdd(a, b);
  }

  // Leaving messages out always lowers the estimate, by at least twelve tokens for each.
  lemma DroppingLowersEstimate(
    systemPrompt: string, tools: seq<ToolSchema>,
    before: seq<Message>, dropped: seq<Message>, after: seq<Message>)
    ensures RequestTokens(systemPrompt, tools, before + after) + 12 * |dropped|
         <= RequestTokens(systemPrompt, tools, before + dropped + after)
  {
    BytesAdd(before, after);
    BytesAdd(before, dropped);
    BytesAdd(before + dropped, after);
    BytesAtLeastFrames(dropped);
  }

  // ----- what the estimate counts -----

  function BlockStrings(block: Content): seq<string> {
    match block
    case Text(text, signature) => [text, signature]
    case Thinking(thinking, signature, _) => [thinking, signature]
    case Image(mediaType, url) => [mediaType, url]
    case File(filename, mediaType, url) => [filename, mediaType, url]
    case Call(call) => [call.id, call.name, call.arguments]
  }

  function BlocksOf(m: Message): seq<Content> {
    match m
    case User(content) => content
    case Reply(a) => a.content
    case ToolResult(_, _, content, _) => content
    case Foreign => []
  }

  function HeadStrings(m: Message): seq<string> {
    match m
    case Reply(a) => [a.provider, a.model, a.responseModel, a.responseId]
    case ToolResult(callId, name, _, _) => [callId, name]
    case _ => []
  }

  function ToolStrings(tool: ToolSchema): seq<string> {
    [tool.name, tool.description] + if tool.parameters.Some? then [tool.parameters.value] else []
  }

  function Length(strings: seq<string>): nat {
    if strings == [] then 0 else |strings[0]| + Length(strings[1..])
  }

  lemma {:induction false} LengthAdds(a: seq<string>, b: seq<string>)
    ensures Length(a + b) == Length(a) + Length(b)
  {
    if a == [] {
      assert a + b == b;
    } else {
      LengthAdds(a[1..], b);
      assert (a + b)[1..] == a[1..] + b;
    }
  }

  lemma BlockCounts(block: Content)
    ensures BlockBytes(block) == Length(BlockStrings(block))
  {
    var strings := BlockStrings(block);
    assert Length(strings) == |strings[0]| + Length(strings[1..]);
    assert Length(strings[1..]) == |strings[1]| + Length(strings[2..]) by {
      assert strings[1..][1..] == strings[2..];
    }
    if |strings| == 3 {
      assert Length(strings[2..]) == |strings[2]| + Length(strings[2..][1..]);
    }
  }

  lemma {:induction false} ContentCounts(content: seq<Content>)
    ensures ContentBytes(content) == 12 * |content| + Length(FlatMap(BlockStrings, content))
    decreases |content|
  {
    if content != [] {
      var init, last := content[..|content| - 1], content[|content| - 1];
      ContentCounts(init);
      BlockCounts(last);
      hide BlockBytes, BlockStrings;
      assert content == init + [last];
      FlatMapOneMore(BlockStrings, init, last);
      LengthAdds(FlatMap(BlockStrings, init), BlockStrings(last));
    }
  }

  lemma HeadCounts(m: Message)
    ensures MessageBytes(m) == 24 + Length(HeadStrings(m)) + ContentBytes(BlocksOf(m))
  {
    match m
    case Reply(a) =>
      var strings := HeadStrings(m);
      assert strings == [a.provider] + [a.model] + [a.responseModel] + [a.responseId];
      LengthAdds([a.provider] + [a.model] + [a.responseModel], [a.responseId]);
      LengthAdds([a.provider] + [a.model], [a.responseModel]);
      LengthAdds([a.provider], [a.model]);
    case ToolResult(callId, name, _, _) =>
      LengthAdds([callId], [name]);
      assert HeadStrings(m) == [callId] + [name];
    case _ =>
  }

  lemma OneMoreMessage(init: seq<Message>, last: Message)
    ensures MessagesBytes(init + [last]) == MessagesBytes(init) + MessageBytes(last)
  {
    assert (init + [last])[..|init|] == init;
  }

  // Every string of a transcript, outside and inside its content blocks.
  function Strings(ms: seq<Message>): nat {
    Length(FlatMap(HeadStrings, ms)) + Length(FlatMap(BlockStrings, FlatMap(BlocksOf, ms)))
  }

  lemma StringsAppend(init: seq<Message>, last: Message)
    ensures Strings(init + [last]) == Strings(init) + Length(HeadStrings(last)) + Length(FlatMap(BlockStrings, BlocksOf(last)))
    ensures |FlatMap(BlocksOf, init + [last])| == |FlatMap(BlocksOf, init)| + |BlocksOf(last)|
  {
    hide FlatMap, Length;
    FlatMapOneMore(BlocksOf, init, last);
    FlatMapOneMore(HeadStrings, init, last);
    FlatMapAppend(BlockStrings, FlatMap(BlocksOf, init), BlocksOf(last));
    LengthAdds(FlatMap(HeadStrings, init), HeadStrings(last));
    LengthAdds(FlatMap(BlockStrings, FlatMap(BlocksOf, init)), FlatMap(BlockStrings, BlocksOf(last)));
  }

  // A transcript counts a frame for each message and each block, and every byte of every string.
  lemma {:induction false} MessagesCount(ms: seq<Message>)
    ensures MessagesBytes(ms) == 24 * |ms| + 12 * |FlatMap(BlocksOf, ms)| + Strings(ms)
    decreases |ms|
  {
    if ms != [] {
      hide *;
      var init, last := ms[..|ms| - 1], ms[|ms| - 1];
      assert ms == init + [last];
      MessagesCount(init);
      OneMoreMessage(init, last);
      HeadCounts(last);
      ContentCounts(BlocksOf(last));
      StringsAppend(init, last);
    }
  }

  lemma {:induction false} ToolsCount(tools: seq<ToolSchema>)
    ensures ToolBytes(tools) == 32 * |tools| + Length(FlatMap(ToolStrings, tools))
    decreases |tools|
  {
    if tools != [] {
      var init, last := tools[..|tools| - 1], tools[|tools| - 1];
      ToolsCount(init);
      assert tools == init + [last];
      FlatMapOneMore(ToolStrings, init, last);
      LengthAdds(FlatMap(ToolStrings, init), ToolStrings(last));
      LengthAdds([last.name, last.description], if last.parameters.Some? then [last.parameters.value] else []);
      LengthAdds([last.name], [last.description]);
      assert [last.name, last.description] == [last.name] + [last.description];
    }
  }

  // A request is estimated at half a token a byte, rounded up: of the system prompt, of all strings
  // of messages and tools, and of the frames 32 for the request, 24, 12 and 32 for each message,
  // block and tool.
  lemma EstimateCounts(systemPrompt: string, tools: seq<ToolSchema>, ms: seq<Message>)
    ensures
      var bytes := |systemPrompt| + 32 + 24 * |ms| + 12 * |FlatMap(BlocksOf, ms)| + 32 * |tools|
                   + Strings(ms) + Length(FlatMap(ToolStrings, tools));
      bytes <= 2 * RequestTokens(systemPrompt, tools, ms) <= bytes + 1
  {
    MessagesCount(ms);
    ToolsCount(tools);
  }

  // ----- budget and trigger -----

  datatype ContextUsage = ContextUsage(
    estimatedInput: int,
    reservedOutput: int,
    contextWindow: int,
    maxInputTokens: int,
    remaining: int
  )

  function UsageFor(model: Model, reserve: int, input: int): ContextUsage {
    var byWindow := if model.contextWindow > 0 then model.contextWindow - input - reserve else 0;
    var byInput := model.maxInputTokens - input;
    var remaining :=
      if model.maxInputTokens > 0 && (model.contextWindow <= 0 || byInput < byWindow) then byInput else byWindow;
    ContextUsage(input, reserve, model.contextWindow, model.maxInputTokens, remaining)
  }

  predicate OverTrigger(u: ContextUsage) {
    || (u.contextWindow > 0 && u.estimatedInput + u.reservedOutput >= 4 * u.contextWindow / 5)
    || (u.maxInputTokens > 0 && u.estimatedInput >= 4 * u.maxInputTokens / 5)
  }

  // Below the trigger, more than a fifth of every known limit is left; so `remaining`, the least
  // of what the limits leave, is positive and the trigger fires before any budget runs out.
  lemma HeadroomBelowTrigger(model: Model, reserve: int, input: int)
    requires model.contextWindow > 0 || model.maxInputTokens > 0
    requires !OverTrigger(UsageFor(model, reserve, input))
    ensures
      var remaining := UsageFor(model, reserve, input).remaining;
      && remaining > 0
      && (|| (model.contextWindow > 0 && remaining == model.contextWindow - input - reserve && 5 * remaining > model.contextWindow)
          || (model.maxInputTokens > 0 && remaining == model.maxInputTokens - input && 5 * remaining > model.maxInputTokens))
      && (model.contextWindow > 0 ==> input + reserve + remaining <= model.contextWindow)
      && (model.maxInputTokens > 0 ==> input + remaining <= model.maxInputTokens)
  {
  }

  // What remains is the least that a known limit leaves, a window after the reserve is taken off; it
  // is nothing when no limit is known.
  lemma RemainingExactly(model: Model, reserve: int, input: int)
    ensures
      var u := UsageFor(model, reserve, input);
      var byWindow, byInput := model.contextWindow - input - reserve, model.maxInputTokens - input;
      && u.estimatedInput == input && u.reservedOutput == reserve
      && u.contextWindow == model.contextWindow && u.maxInputTokens == model.maxInputTokens
      && (model.contextWindow <= 0 && model.maxInputTokens <= 0 ==> u.remaining == 0)
      && (model.contextWindow > 0 ==> u.remaining <= byWindow) && (model.maxInputTokens > 0 ==> u.remaining <= byInput)
      && (model.contextWindow > 0 || model.maxInputTokens > 0 ==>
            (model.contextWindow > 0 && u.remaining == byWindow) || (model.maxInputTokens > 0 && u.remaining == byInput))
  {
  }

  // The trigger fires exactly when some known limit w leaves fewer than w / 5 + 1 tokens.
  lemma TriggerExactly(model: Model, reserve: int, input: int)
    ensures OverTrigger(UsageFor(model, reserve, input)) <==>
      || (model.contextWindow > 0 && 5 * (model.contextWindow - input - reserve) < model.contextWindow + 5)
      || (model.maxInputTokens > 0 && 5 * (model.maxInputTokens - input) < model.maxInputTokens + 5)
  {
  }
}
