/** Tools and the standalone execution unit. */
module Tools {
  import opened Messages
  import opened Events
  import opened Truncation

  /** What an executor does with a call: return, raise, or park it. */
  datatype ToolOutcome =
    | Returned(result: AgentToolResult)
    | Raised(text: string)
    | Parked(request: PendingInputRequest)

  /** A tool; executors are an uninterpreted function of the call. */
  datatype AgentTool = AgentTool(name: string, executor: Option<ToolCall -> ToolOutcome>, idempotent: bool)

  datatype Execution =
    | Finished(result: AgentToolResult, isError: bool)
    | ParkedCall(request: PendingInputRequest)

  /** `execute_tool`: an exception becomes an error result, a park passes through. */
  function ExecuteTool(tool: AgentTool, call: ToolCall, limit: Option<int>): Execution
    requires tool.executor.Some?
  {
    match tool.executor.value(call)
    case Returned(result) => Finished(TruncateToolResult(result, limit), false)
    case Raised(text) => Finished(TruncateToolResult(AgentToolResult([TextBlock(text)], NO_DETAILS), limit), true)
    case Parked(request) => ParkedCall(request)
  }

  function ResultMessage(toolCallId: string, toolName: string, result: AgentToolResult, isError: bool): AgentMessage {
    ToolResultMessage(toolCallId, toolName, result.content, result.details, isError)
  }

  /** A result message that shows how an execution went: what it returned, or the text it
      raised as an error; a parked one has none. */
  ghost predicate ShowsOutcome(m: AgentMessage, toolCallId: string, toolName: string, outcome: ToolOutcome,
                               limit: Option<int>)
  {
    && m.ToolResultMessage? && m.toolCallId == toolCallId && m.toolName == toolName
    && match outcome
       case Returned(result) => !m.isError && Carries(AgentToolResult(m.content, m.details), result, limit)
       case Raised(text) =>
         m.isError && Carries(AgentToolResult(m.content, m.details), AgentToolResult([TextBlock(text)], NO_DETAILS),
                              limit)
       case Parked(_) => false
  }

  lemma ExecutionShows(tool: AgentTool, call: ToolCall, limit: Option<int>, toolCallId: string, toolName: string)
    requires tool.executor.Some?
    ensures var x, outcome := ExecuteTool(tool, call, limit), tool.executor.value(call);
            && (x.ParkedCall? <==> outcome.Parked?) && (x.ParkedCall? ==> x.request == outcome.request)
            && (x.Finished? ==>
                  ShowsOutcome(ResultMessage(toolCallId, toolName, x.result, x.isError), toolCallId, toolName, outcome,
                               limit))
  {
    hide TruncateToolResult, Carries;
    match tool.executor.value(call)
    case Returned(result) => TruncatedCarries(result, limit);
    case Raised(text) => TruncatedCarries(AgentToolResult([TextBlock(text)], NO_DETAILS), limit);
    case Parked(_) =>
  }
}
