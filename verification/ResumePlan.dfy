/** What `resolve_inputs`, the expiry sweep and crash repair decide to do: which
    operations they perform, in which order, and what they report. */
module ResumePlan {
  import opened Messages
  import opened Events
  import opened Tools
  import opened Truncation
  import opened SessionLog
  import opened Protocol

  datatype Response =
    | ApproveResponse(resolvedBy: string, note: Option<string>)
    | DenyResponse(resolvedBy: string, reason: string)
    | AnswerResponse(resolvedBy: string, text: string)

  /** One item of the responses mapping. */
  datatype Submission = Submission(requestId: string, response: Response)

  datatype Disposition = Resolved | Invalidated | Rejected(reason: string)

  datatype Rejection = Rejection(requestId: string, reason: string)

  datatype ResolveOutcome = ResolveOutcome(
    resolved: seq<string>, rejected: seq<Rejection>, expired: seq<string>, invalidated: seq<string>, ready: bool)

  function FindIn(calls: seq<ToolCall>, id: string): Option<ToolCall> {
    if calls == [] then None else if calls[0].id == id then Some(calls[0]) else FindIn(calls[1..], id)
  }

  /** The model-authored call with this id: the first in the transcript. */
  function FindToolCall(ms: seq<AgentMessage>, id: string): Option<ToolCall> {
    if ms == [] then None
    else
      var earlier := FindToolCall(ms[..|ms| - 1], id);
      if earlier.Some? then earlier else FindIn(CallsOf(ms[|ms| - 1]), id)
  }

  /** The call to execute for a request; without a backing message, one made from its payload. */
  function ResolveCall(request: PendingInputRequest, ms: seq<AgentMessage>): ToolCall {
    match FindToolCall(ms, request.toolCallId)
    case Some(call) => call
    case None => ToolCall(request.toolCallId, request.toolName, request.payload)
  }

  // ---------------------------------------------------------------- expiry

  predicate Expired(request: PendingInputRequest, now: int) {
    request.ttlSeconds.Some? && request.createdAt + request.ttlSeconds.value * 1000 <= now
  }

  function ExpiryReason(request: PendingInputRequest, now: int): string
    requires request.ttlSeconds.Some?
  {
    "request expired: ttl_seconds=" + SignedDecimal(request.ttlSeconds.value) +
    " created_at=" + SignedDecimal(request.createdAt) + " now=" + SignedDecimal(now)
  }

  function ExpiredAmong(pending: seq<PendingInputRequest>, now: int): (r: seq<PendingInputRequest>)
    ensures forall q :: q in r <==> q in pending && Expired(q, now)
  {
    if pending == [] then []
    else if Expired(pending[|pending| - 1], now)
      then ExpiredAmong(pending[..|pending| - 1], now) + [pending[|pending| - 1]]
    else ExpiredAmong(pending[..|pending| - 1], now)
  }

  function Expiry(request: PendingInputRequest, now: int): Operation
    requires Expired(request, now)
  {
    Deny(request, "system:expiry", ExpiryReason(request, now))
  }

  function SweepOps(pending: seq<PendingInputRequest>, now: int): seq<Operation> {
    if pending == [] then []
    else if Expired(pending[|pending| - 1], now)
      then SweepOps(pending[..|pending| - 1], now) + [Expiry(pending[|pending| - 1], now)]
    else SweepOps(pending[..|pending| - 1], now)
  }

  // -------------------------------------------------------------- responses

  /** What a call reads once, before it starts. */
  datatype Snapshot = Snapshot(
    requested: map<string, PendingInputRequest>,
    resolved: set<string>,
    justExpired: set<string>,
    messages: seq<AgentMessage>,
    tools: map<string, AgentTool>,
    limit: Option<int>)

  datatype Verdict = Verdict(op: Option<Operation>, disposition: Disposition)

  function UnavailableReason(toolName: string): string {
    "tool '" + toolName + "' is no longer available for execution"
  }

  /** The park handler of a request's kind, applied to a response. */
  function Handle(request: PendingInputRequest, response: Response, s: Snapshot): Verdict {
    match request.kind
    case ToolApproval =>
      (match response
       case DenyResponse(actor, reason) => Verdict(Some(Deny(request, actor, reason)), Resolved)
       case AnswerResponse(_, _) => Verdict(None, Rejected("invalid_response_type"))
       case ApproveResponse(actor, note) =>
         if request.toolName in s.tools && s.tools[request.toolName].executor.Some? then
           Verdict(Some(Approve(request, actor, note, s.tools[request.toolName], ResolveCall(request, s.messages),
                                s.limit)), Resolved)
         else
           Verdict(Some(Deny(request, "system:revalidation", UnavailableReason(request.toolName))), Invalidated))
    case Question =>
      (match response
       case DenyResponse(actor, reason) => Verdict(Some(Deny(request, actor, reason)), Resolved)
       case AnswerResponse(actor, text) => Verdict(Some(Answer(request, actor, text)), Resolved)
       case ApproveResponse(_, _) => Verdict(None, Rejected("invalid_response_type")))
    case ChildSession => Verdict(None, Rejected("child_session"))
    case Authorization => Verdict(None, Rejected("unsupported_kind:authorization"))
  }

  function Judge(s: Snapshot, sub: Submission): Verdict {
    if sub.requestId !in s.requested then Verdict(None, Rejected("unknown"))
    else if sub.requestId in s.justExpired then Verdict(None, Rejected("expired"))
    else if sub.requestId in s.resolved then Verdict(None, Rejected("already_resolved"))
    else Handle(s.requested[sub.requestId], sub.response, s)
  }

  /** The executor raised a park out of an approved call: the whole call is abandoned there. */
  predicate Escapes(op: Operation) {
    op.Approve? && op.tool.executor.Some? && ExecuteTool(op.tool, op.call, op.limit).ParkedCall?
  }

  datatype Batch = Batch(
    ops: seq<Operation>, resolved: seq<string>, rejected: seq<Rejection>, invalidated: seq<string>, escaped: bool)

  function Record(b: Batch, requestId: string, v: Verdict): Batch {
    var ops := if v.op.Some? then b.ops + [v.op.value] else b.ops;
    var escaped := v.op.Some? && Escapes(v.op.value);
    if escaped then Batch(ops, b.resolved, b.rejected, b.invalidated, true)
    else
      match v.disposition
      case Resolved => Batch(ops, b.resolved + [requestId], b.rejected, b.invalidated, false)
      case Invalidated => Batch(ops, b.resolved, b.rejected, b.invalidated + [requestId], false)
      case Rejected(reason) => Batch(ops, b.resolved, b.rejected + [Rejection(requestId, reason)], b.invalidated, false)
  }

  /** The loop over the responses, after the first n of them. */
  function Respond(s: Snapshot, subs: seq<Submission>, n: nat): Batch
    requires n <= |subs|
  {
    if n == 0 then Batch([], [], [], [], false)
    else
      var b := Respond(s, subs, n - 1);
      if b.escaped then b else Record(b, subs[n - 1].requestId, Judge(s, subs[n - 1]))
  }

  function RequestIds(rs: seq<PendingInputRequest>): (ids: seq<string>)
    ensures |ids| == |rs| && forall i :: 0 <= i < |rs| ==> ids[i] == rs[i].id
  {
    if rs == [] then [] else RequestIds(rs[..|rs| - 1]) + [rs[|rs| - 1].id]
  }

  function IdSet(ids: seq<string>): set<string> { set id | id in ids }

  function TakeSnapshot(log: Log, tools: map<string, AgentTool>, now: int, limit: Option<int>): Snapshot {
    Snapshot(Requests(log), ResolvedIds(log), IdSet(RequestIds(ExpiredAmong(Pending(log), now))), MessagesOf(log),
             tools, limit)
  }

  function Answers(log: Log, subs: seq<Submission>, tools: map<string, AgentTool>, now: int,
                   limit: Option<int>): Batch {
    Respond(TakeSnapshot(log, tools, now, limit), subs, |subs|)
  }

  /** Every operation `resolve_inputs` performs, in order: the sweep, then the responses. */
  function ResolveOps(log: Log, subs: seq<Submission>, tools: map<string, AgentTool>, now: int, limit: Option<int>)
    : seq<Operation>
  {
    SweepOps(Pending(log), now) + Answers(log, subs, tools, now, limit).ops
  }

  // ---------------------------------------------------------------- repair

  predicate Rerunnable(tools: map<string, AgentTool>, w: CrashWindow) {
    w.toolName in tools && tools[w.toolName].idempotent && tools[w.toolName].executor.Some?
  }

  /** The re-execution of a crash window: with the model's own call, or an argument-less stand-in. */
  function Recovery(ms: seq<AgentMessage>, tools: map<string, AgentTool>, w: CrashWindow): Operation
    requires Rerunnable(tools, w)
  {
    var found := FindToolCall(ms, w.toolCallId);
    Rerun(w, tools[w.toolName], if found.Some? then found.value else ToolCall(w.toolCallId, w.toolName, Opaque("{}")))
  }

  predicate RerunEscapes(op: Operation) {
    op.Rerun? && op.tool.executor.Some? && ExecuteTool(op.tool, op.call, None).ParkedCall?
  }

  datatype RepairReport = RepairReport(repaired: seq<CrashWindow>, needsOperator: seq<CrashWindow>)

  datatype RepairPlan = RepairPlan(ops: seq<Operation>, report: RepairReport, escaped: bool)

  function PlanRepair(ms: seq<AgentMessage>, tools: map<string, AgentTool>, ws: seq<CrashWindow>, n: nat): RepairPlan
    requires n <= |ws|
  {
    if n == 0 then RepairPlan([], RepairReport([], []), false)
    else
      var p, w := PlanRepair(ms, tools, ws, n - 1), ws[n - 1];
      if p.escaped then p
      else if Rerunnable(tools, w) then
        var op := Recovery(ms, tools, w);
        if RerunEscapes(op) then RepairPlan(p.ops + [op], p.report, true)
        else RepairPlan(p.ops + [op], p.report.(repaired := p.report.repaired + [w]), false)
      else RepairPlan(p.ops, p.report.(needsOperator := p.report.needsOperator + [w]), false)
  }

  function RepairOf(log: Log, tools: map<string, AgentTool>): RepairPlan {
    PlanRepair(MessagesOf(log), tools, Windows(log), |Windows(log)|)
  }

  /** The tool name of the last start for a call, as an operator skip looks it up. */
  function StartedToolName(log: Log, toolCallId: string): string {
    if log == [] then "unknown"
    else if log[|log| - 1].StartedEntry? && log[|log| - 1].started.toolCallId == toolCallId
      then log[|log| - 1].started.toolName
    else StartedToolName(log[..|log| - 1], toolCallId)
  }

  // ------------------------------------------------------------ doing it all

  /** Performing operations one after another, each to its end. */
  function PerformAll(w: World, ops: seq<Operation>): World {
    if ops == [] then w
    else
      var v := PerformAll(w, ops[..|ops| - 1]);
      ActUpTo(v, Actions(ops[|ops| - 1]), |Actions(ops[|ops| - 1])|)
  }

  lemma {:induction false} PerformConcat(w: World, a: seq<Operation>, b: seq<Operation>)
    ensures PerformAll(w, a + b) == PerformAll(PerformAll(w, a), b)
  {
    hide Actions;
    if b == [] {
      assert a + b == a;
    } else {
      assert (a + b)[..|a + b| - 1] == a + b[..|b| - 1];
      PerformConcat(w, a, b[..|b| - 1]);
    }
  }
}
