/** Park signals and the event grammar of a run. */
module Events {
  import opened Messages

  datatype RequestKind = ToolApproval | Question | Authorization | ChildSession

  /** A durable park signal: one thing somebody must decide. */
  datatype PendingInputRequest = PendingInputRequest(
    id: string,
    kind: RequestKind,
    toolCallId: string,
    toolName: string,
    payload: Json,
    createdAt: int,
    ttlSeconds: Option<int>)

  datatype RunOutcome = Completed | Failed | AbortedRun | WaitingInput

  datatype AgentEvent =
    | AgentStart
    | TurnStart
    | MessageStart(message: AgentMessage)
    | MessageUpdate(message: AgentMessage)
    | MessageEnd(message: AgentMessage)
    | ToolExecutionStart(call: ToolCall)
    | ToolExecutionUpdate(call: ToolCall, partialText: string)
    | ToolExecutionEnd(call: ToolCall, isError: bool)
    | ControlPlane(note: string)
    | TurnEnd(message: AgentMessage, results: seq<AgentMessage>)
    | AgentEnd(outcome: RunOutcome, newMessages: seq<AgentMessage>, pendingRequests: seq<PendingInputRequest>)

  /** The messages that ended in a stream of events, in order. */
  function Ended(events: seq<AgentEvent>): seq<AgentMessage> {
    if events == [] then []
    else if events[|events| - 1].MessageEnd? then Ended(events[..|events| - 1]) + [events[|events| - 1].message]
    else Ended(events[..|events| - 1])
  }

  lemma {:induction false} EndedConcat(a: seq<AgentEvent>, b: seq<AgentEvent>)
    ensures Ended(a + b) == Ended(a) + Ended(b)
  {
    if b == [] {
      assert a + b == a;
    } else {
      assert (a + b)[..|a + b| - 1] == a + b[..|b| - 1];
      EndedConcat(a, b[..|b| - 1]);
    }
  }
}
