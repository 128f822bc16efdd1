/** The wire events a provider adapter streams for one assistant message. */
module StreamEvents {
  import opened Messages

  type Assistant = m: AgentMessage | m.AssistantMessage? witness AssistantMessage([], Stop, None)

  datatype StreamEvent =
    | StreamStart(partial: Assistant)
    | TextStart(index: nat, partial: Assistant)
    | TextDelta(index: nat, delta: string, partial: Assistant)
    | TextEnd(index: nat, content: string, partial: Assistant)
    | ThinkingStart(index: nat, partial: Assistant)
    | ThinkingDelta(index: nat, delta: string, partial: Assistant)
    | ThinkingEnd(index: nat, content: string, partial: Assistant)
    | ToolCallStart(index: nat, partial: Assistant)
    | ToolCallDelta(index: nat, delta: string, partial: Assistant)
    | ToolCallEnd(index: nat, toolCall: ToolCall, partial: Assistant)
    | StreamDone(reason: StopReason, message: Assistant)
    | StreamError(reason: StopReason, error: Assistant)

  predicate IsTerminal(e: StreamEvent) { e.StreamDone? || e.StreamError? }

  /** How many terminal events a stream has. */
  function Terminals(events: seq<StreamEvent>): nat {
    if events == [] then 0
    else Terminals(events[..|events| - 1]) + if IsTerminal(events[|events| - 1]) then 1 else 0
  }
}
