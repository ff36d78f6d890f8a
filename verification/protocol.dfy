/** The values the chat server exchanges with the model service, the client and the store. */
module Protocol {

  datatype Option<+T> = None | Some(value: T)

  datatype Result<+R, +E> = Success(value: R) | Failure(error: E)

  /** A JSON value: parsed tool arguments and tool results (numbers restricted to integers). */
  datatype Json =
    | Null
    | Bool(b: bool)
    | Number(n: int)
    | Str(s: string)
    | Arr(items: seq<Json>)
    | Obj(fields: seq<(string, Json)>)

  /** The `{error: message}` object a failed tool call is answered with. */
  function ErrorPayload(message: string): Json {
    Obj([("error", Str(message))])
  }

  /** One tool-call fragment of a stream chunk. An absent id, name or arguments field is "",
      exactly as the server's `|| ''` and truthiness tests treat it. */
  datatype ToolCallDelta = ToolCallDelta(index: Option<nat>, id: string, name: string, arguments: string)

  /** One chunk of a streamed turn: either one without a first choice (skipped), or the first
      choice's delta (tool-call fragments and text, "" when absent) and its finish reason. */
  datatype Chunk =
    | NoChoice
    | Choice(toolCalls: seq<ToolCallDelta>, content: string, finishReason: Option<string>)

  /** One streamed model turn: the chunks the stream yields, then an optional transport fault
      that the stream raises after them (a fault with no chunks is a failure to open). */
  datatype Turn = Turn(chunks: seq<Chunk>, fault: Option<string>)

  /** A complete tool call: the upstream-assigned id, the tool name and the raw argument text. */
  datatype ToolCall = ToolCall(id: string, name: string, arguments: string)

  datatype Message =
    | System(text: string)
    | User(text: string)
    | AssistantText(text: string)
    /** An assistant message whose content is null and which lists the turn's calls. */
    | AssistantCalls(calls: seq<ToolCall>)
    /** A tool message answering the call with id `toolCallId`. */
    | ToolResult(toolCallId: string, payload: Json)

  /** The record kept for a finished conversation: the whole history, every tool call of every
      turn, the final answer, and that answer parsed as JSON (`Null` when it does not parse). */
  datatype Record = Record(
    id: string,
    messages: seq<Message>,
    toolCalls: seq<ToolCall>,
    finalAnswer: string,
    parsedJson: Json,
    timestamp: string)

  /** One unit of the outbound event stream. `EndOfStream` is the `[DONE]` marker. */
  datatype Event =
    | ContentEvent(delta: string, accumulated: string)
    | ToolCallEvent(tool: string, arguments: Json, result: Json)
    | ErrorEvent(error: string)
    | DoneEvent(conversationId: string, record: Record)
    | EndOfStream

  /** The finish reason that ends a turn as a tool turn. */
  const ToolCallsFinish := "tool_calls"

  /** `suffix` is a suffix of `s`. */
  ghost predicate EndsWith<T>(s: seq<T>, suffix: seq<T>) {
    |suffix| <= |s| && s[|s| - |suffix|..] == suffix
  }
}
