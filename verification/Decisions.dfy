/** Verdicts on tool calls, given before any of them runs. */
module Decisions {
  import opened Messages
  import opened Events
  import opened Tools

  datatype ToolDecision =
    | Allow
    | Deny(reason: string)
    | RequireApproval(payload: Option<Json>, ttlSeconds: Option<int>)

  /** A hook sees the call and its tool, if the name is known. */
  type DecisionHook = (ToolCall, Option<AgentTool>) -> ToolDecision

  /** What the tool phase of a turn is configured with; `mint` stands for the fresh
      request ids it draws, `now` for the clock. */
  datatype PhaseConfig = PhaseConfig(
    tools: map<string, AgentTool>, hook: Option<DecisionHook>, limit: Option<int>, questionTtl: Option<int>,
    mint: ToolCall -> string, now: int)

  function ToolFor(cfg: PhaseConfig, call: ToolCall): Option<AgentTool> {
    if call.name in cfg.tools then Some(cfg.tools[call.name]) else None
  }

  function Decide(cfg: PhaseConfig, call: ToolCall): ToolDecision {
    if cfg.hook.Some? then cfg.hook.value(call, ToolFor(cfg, call)) else Allow
  }

  function ApprovalRequest(cfg: PhaseConfig, call: ToolCall, payload: Option<Json>,
                           ttl: Option<int>): PendingInputRequest {
    PendingInputRequest(cfg.mint(call), ToolApproval, call.id, call.name,
                        if payload.Some? then payload.value else call.arguments, cfg.now, ttl)
  }

  function QuestionRequest(cfg: PhaseConfig, call: ToolCall): PendingInputRequest {
    PendingInputRequest(cfg.mint(call), Question, call.id, call.name, call.arguments, cfg.now, cfg.questionTtl)
  }

  /** What becomes of a call before anything runs. */
  datatype Fate = Settled(result: AgentMessage) | Parks(request: PendingInputRequest) | Runs(tool: AgentTool)

  function FateOf(cfg: PhaseConfig, call: ToolCall): Fate {
    var tool := ToolFor(cfg, call);
    match Decide(cfg, call)
    case Deny(reason) => Settled(ErrorText(call.id, call.name, reason))
    case RequireApproval(payload, ttl) => Parks(ApprovalRequest(cfg, call, payload, ttl))
    case Allow =>
      if tool.None? then Settled(ErrorText(call.id, call.name, "Tool " + call.name + " not found"))
      else if tool.value.executor.None? then Parks(QuestionRequest(cfg, call))
      else Runs(tool.value)
  }
}
