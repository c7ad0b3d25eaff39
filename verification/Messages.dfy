/** The neutral conversation vocabulary. A Go string or byte slice is a sequence of bytes; here
    it is a `string` with one `char` per byte, so that lengths agree. */
module Messages {

  datatype Option<+T> = None | Some(value: T)

  datatype ToolCall = ToolCall(id: string, name: string, arguments: string)

  datatype Content =
    | Text(text: string, signature: string)
    | Thinking(thinking: string, signature: string, redacted: bool)
    | Image(mediaType: string, url: string)
    | File(filename: string, mediaType: string, url: string)
    | Call(call: ToolCall)

  // StopReason is a Go string; OtherReason covers the values the source has no name for.
  datatype StopReason = Stop | Length | ToolUse | ContextWindow | Error | Aborted | OtherReason(reason: string)

  datatype Assistant = Assistant(
    content: seq<Content>,
    provider: string,
    model: string,
    responseModel: string,
    responseId: string,
    stopReason: StopReason,
    errorMessage: string
  ) {
    function ToolCalls(): seq<ToolCall> {
      CallsIn(content)
    }
  }

  // Foreign stands for a Message value outside the three kinds: a nil interface, or a pointer.
  datatype Message =
    | User(content: seq<Content>)
    | Reply(assistant: Assistant)
    | ToolResult(callId: string, name: string, content: seq<Content>, isError: bool)
    | Foreign

  // What a tool or a hook hands back, and the result of one call after both hooks.
  datatype ToolOutput = ToolOutput(content: seq<Content>, isError: bool)

  datatype Outcome = Outcome(output: ToolOutput, isError: bool)

  // The part of a model's metadata that the loop and the registry look at. A limit that is not
  // positive is unknown.
  datatype Model = Model(id: string, provider: string, contextWindow: int, maxInputTokens: int)

  // parameters is None when the schema does not encode as JSON.
  datatype ToolSchema = ToolSchema(name: string, description: string, parameters: Option<string>)

  // The tool calls among the content blocks, in order.
  function CallsIn(content: seq<Content>): seq<ToolCall> {
    if content == [] then []
    else if content[0].Call? then [content[0].call] + CallsIn(content[1..])
    else CallsIn(content[1..])
  }

  predicate AllUser(ms: seq<Message>) {
    forall m | m in ms :: m.User?
  }
}
