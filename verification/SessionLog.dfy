/** A session's append-only log and everything that is derived from it. */
module SessionLog {
  import opened Messages
  import opened Events
  import opened RepairCanonical

  datatype Decision = Approved | Denied

  datatype InputResolution = InputResolution(
    requestId: string, decision: Decision, resolvedBy: string, reason: Option<string>)

  datatype ExecutionStarted = ExecutionStarted(requestId: string, toolCallId: string, toolName: string)

  datatype Entry =
    | MessageEntry(message: AgentMessage)
    | RequestedEntry(request: PendingInputRequest)
    | ResolvedEntry(resolution: InputResolution)
    | StartedEntry(started: ExecutionStarted)
    | OtherEntry(entryType: string)

  type Log = seq<Entry>

  datatype SessionStatus = Idle | Waiting

  datatype DerivedState = DerivedState(
    status: SessionStatus, pendingRequests: seq<PendingInputRequest>, messages: seq<AgentMessage>)

  /** The messages of a log, in log order. */
  function MessagesOf(log: Log): seq<AgentMessage> {
    if log == [] then []
    else if log[|log| - 1].MessageEntry? then MessagesOf(log[..|log| - 1]) + [log[|log| - 1].message]
    else MessagesOf(log[..|log| - 1])
  }

  /** The requests by id; a later one with the same id replaces the earlier. */
  function Requests(log: Log): (m: map<string, PendingInputRequest>)
    ensures forall id :: id in m ==> m[id].id == id
  {
    if log == [] then map[]
    else if log[|log| - 1].RequestedEntry?
    then Requests(log[..|log| - 1])[log[|log| - 1].request.id := log[|log| - 1].request]
    else Requests(log[..|log| - 1])
  }

  /** Request ids in order of first appearance, the iteration order of `requested`. */
  function RequestOrder(log: Log): (ids: seq<string>)
    ensures forall id :: id in ids <==> id in Requests(log)
  {
    if log == [] then []
    else if log[|log| - 1].RequestedEntry? && log[|log| - 1].request.id !in Requests(log[..|log| - 1])
    then RequestOrder(log[..|log| - 1]) + [log[|log| - 1].request.id]
    else RequestOrder(log[..|log| - 1])
  }

  function ResolvedIds(log: Log): set<string> {
    if log == [] then {}
    else if log[|log| - 1].ResolvedEntry? then ResolvedIds(log[..|log| - 1]) + {log[|log| - 1].resolution.requestId}
    else ResolvedIds(log[..|log| - 1])
  }

  function Unresolved(ids: seq<string>, requests: map<string, PendingInputRequest>, resolved: set<string>)
    : (pending: seq<PendingInputRequest>)
    requires forall id :: id in ids ==> id in requests
  {
    if ids == [] then []
    else if ids[|ids| - 1] in resolved then Unresolved(ids[..|ids| - 1], requests, resolved)
    else Unresolved(ids[..|ids| - 1], requests, resolved) + [requests[ids[|ids| - 1]]]
  }

  /** The pending requests: requested and not resolved anywhere in the log. */
  function Pending(log: Log): seq<PendingInputRequest> {
    Unresolved(RequestOrder(log), Requests(log), ResolvedIds(log))
  }

  function DeriveState(log: Log): DerivedState {
    DerivedState(if Pending(log) != [] then Waiting else Idle, Pending(log), MessagesOf(log))
  }

  ghost predicate IsPending(log: Log, r: PendingInputRequest) {
    r.id in Requests(log) && Requests(log)[r.id] == r && r.id !in ResolvedIds(log)
  }

  lemma {:induction false} UnresolvedHas(ids: seq<string>, requests: map<string, PendingInputRequest>,
                                         resolved: set<string>, r: PendingInputRequest)
    requires forall id :: id in ids ==> id in requests && requests[id].id == id
    ensures r in Unresolved(ids, requests, resolved) <==> r.id in ids && requests[r.id] == r && r.id !in resolved
  {
    if ids != [] {
      var init, last := ids[..|ids| - 1], ids[|ids| - 1];
      UnresolvedHas(init, requests, resolved, r);
      assert r.id in ids <==> r.id in init || r.id == last;
    }
  }

  /** A request is listed as pending exactly when it is in the log, unreplaced and unresolved. */
  lemma PendingIff(log: Log, r: PendingInputRequest)
    ensures r in Pending(log) <==> IsPending(log, r)
  {
    UnresolvedHas(RequestOrder(log), Requests(log), ResolvedIds(log), r);
  }

  // ------------------------------------------------------ approvals and starts

  function Approvals(log: Log): map<string, InputResolution> {
    if log == [] then map[]
    else if log[|log| - 1].ResolvedEntry? && log[|log| - 1].resolution.decision.Approved?
    then Approvals(log[..|log| - 1])[log[|log| - 1].resolution.requestId := log[|log| - 1].resolution]
    else Approvals(log[..|log| - 1])
  }

  function ApprovalOrder(log: Log): (ids: seq<string>)
    ensures forall id :: id in ids <==> id in Approvals(log)
  {
    if log == [] then []
    else if log[|log| - 1].ResolvedEntry? && log[|log| - 1].resolution.decision.Approved?
         && log[|log| - 1].resolution.requestId !in Approvals(log[..|log| - 1])
    then ApprovalOrder(log[..|log| - 1]) + [log[|log| - 1].resolution.requestId]
    else ApprovalOrder(log[..|log| - 1])
  }

  function Starts(log: Log): map<string, ExecutionStarted> {
    if log == [] then map[]
    else if log[|log| - 1].StartedEntry?
    then Starts(log[..|log| - 1])[log[|log| - 1].started.requestId := log[|log| - 1].started]
    else Starts(log[..|log| - 1])
  }

  /** Whether some message of the log answers this call id. */
  predicate HasResult(log: Log, toolCallId: string) {
    toolCallId in ResultMap(MessagesOf(log))
  }

  datatype CrashWindow = CrashWindow(requestId: string, toolCallId: string, toolName: string)

  /** An approval that started and has no result; only a tool approval counts. */
  predicate IsWindow(log: Log, requestId: string) {
    && requestId in Approvals(log)
    && requestId in Starts(log)
    && !HasResult(log, Starts(log)[requestId].toolCallId)
    && (requestId in Requests(log) ==> Requests(log)[requestId].kind.ToolApproval?)
  }

  function WindowsAmong(log: Log, ids: seq<string>): seq<CrashWindow> {
    if ids == [] then []
    else if IsWindow(log, ids[|ids| - 1]) then
      WindowsAmong(log, ids[..|ids| - 1]) +
      [CrashWindow(ids[|ids| - 1], Starts(log)[ids[|ids| - 1]].toolCallId, Starts(log)[ids[|ids| - 1]].toolName)]
    else WindowsAmong(log, ids[..|ids| - 1])
  }

  /** `detect_crash_windows`, in order of approval. */
  function Windows(log: Log): seq<CrashWindow> {
    WindowsAmong(log, ApprovalOrder(log))
  }

  lemma {:induction false} WindowsAmongHas(log: Log, ids: seq<string>, w: CrashWindow)
    ensures w in WindowsAmong(log, ids) <==>
      w.requestId in ids && IsWindow(log, w.requestId)
        && w == CrashWindow(w.requestId, Starts(log)[w.requestId].toolCallId, Starts(log)[w.requestId].toolName)
  {
    hide IsWindow;
    if ids != [] {
      var init, last := ids[..|ids| - 1], ids[|ids| - 1];
      WindowsAmongHas(log, init, w);
      assert w.requestId in ids <==> w.requestId in init || w.requestId == last;
    }
  }

  lemma WindowsIff(log: Log, w: CrashWindow)
    ensures w in Windows(log) <==>
      IsWindow(log, w.requestId)
        && w == CrashWindow(w.requestId, Starts(log)[w.requestId].toolCallId, Starts(log)[w.requestId].toolName)
  {
    WindowsAmongHas(log, ApprovalOrder(log), w);
  }

  // ------------------------------------------------------------------ readiness

  /** The last assistant message with tool calls. */
  function LastCalls(ms: seq<AgentMessage>): seq<ToolCall> {
    if ms == [] then []
    else if CallsOf(ms[|ms| - 1]) != [] then CallsOf(ms[|ms| - 1])
    else LastCalls(ms[..|ms| - 1])
  }

  predicate LastToolCallsResolved(ms: seq<AgentMessage>) {
    forall c :: c in LastCalls(ms) ==> c.id in ResultMap(ms)
  }

  predicate ReadyToContinue(log: Log) {
    Pending(log) == [] && LastToolCallsResolved(MessagesOf(log))
  }
}
