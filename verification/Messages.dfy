/** The transcript: provider-neutral messages and their content blocks.

    Timestamps, usage and provider metadata that no decision reads are left out.
 */
module Messages {

  datatype Option<+T> = None | Some(value: T)

  /** A JSON value: its text, or the one object this model looks into, the
      details a truncated tool result carries. */
  datatype Json =
    | Opaque(text: string)
    | FullContent(fullContent: string, originalBytes: nat)

  datatype ToolCall = ToolCall(id: string, name: string, arguments: Json)

  /** A block of user, custom or tool-result content. */
  datatype MediaBlock =
    | TextBlock(text: string)
    | ImageBlock(data: string, mimeType: string)

  /** A block of assistant content. */
  datatype AssistantBlock =
    | Text(text: string, textSignature: Option<string>)
    | Thinking(thinking: string, thinkingSignature: Option<string>, redacted: bool)
    | Call(call: ToolCall)

  datatype StopReason = Stop | Length | ToolUse | Error | Aborted

  datatype AgentMessage =
    | UserMessage(userContent: seq<MediaBlock>)
    | AssistantMessage(blocks: seq<AssistantBlock>, stopReason: StopReason, errorMessage: Option<string>)
    | ToolResultMessage(toolCallId: string, toolName: string, content: seq<MediaBlock>, details: Json, isError: bool)
    | CustomMessage(customType: string, customContent: seq<MediaBlock>)

  const NO_DETAILS := Opaque("null")

  /** The text of the text blocks, joined in order. */
  function MediaText(blocks: seq<MediaBlock>): string {
    if blocks == [] then ""
    else (if blocks[0].TextBlock? then blocks[0].text else "") + MediaText(blocks[1..])
  }

  function BlockCalls(blocks: seq<AssistantBlock>): seq<ToolCall> {
    if blocks == [] then []
    else (if blocks[0].Call? then [blocks[0].call] else []) + BlockCalls(blocks[1..])
  }

  /** The tool calls of a message, in order; only an assistant message has any. */
  function CallsOf(m: AgentMessage): seq<ToolCall> {
    if m.AssistantMessage? then BlockCalls(m.blocks) else []
  }

  /** The text of the assistant's text blocks, joined in order. */
  function AssistantText(blocks: seq<AssistantBlock>): string {
    if blocks == [] then "" else (if blocks[0].Text? then blocks[0].text else "") + AssistantText(blocks[1..])
  }

  /** A result that carries an error text. */
  function ErrorText(toolCallId: string, toolName: string, text: string): AgentMessage {
    ToolResultMessage(toolCallId, toolName, [TextBlock(text)], NO_DETAILS, true)
  }

  function Max(a: int, b: int): int { if a >= b then a else b }

  /** Everything that is not a tool result, in order. */
  function NonResults(ms: seq<AgentMessage>): seq<AgentMessage> {
    if ms == [] then []
    else if ms[|ms| - 1].ToolResultMessage? then NonResults(ms[..|ms| - 1])
    else NonResults(ms[..|ms| - 1]) + [ms[|ms| - 1]]
  }

  lemma {:induction false} NonResultsConcat(a: seq<AgentMessage>, b: seq<AgentMessage>)
    ensures NonResults(a + b) == NonResults(a) + NonResults(b)
  {
    if b == [] {
      assert a + b == a;
    } else {
      assert (a + b)[..|a + b| - 1] == a + b[..|b| - 1];
      NonResultsConcat(a, b[..|b| - 1]);
    }
  }
}
