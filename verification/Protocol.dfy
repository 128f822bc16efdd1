/** The park/resume protocol, one durable append at a time.

    An operation is a short list of atomic actions: appends to the log and runs
    of an executor.  A crash is stopping an operation after any number of them.
    A world is a session's log together with a trace of executor runs. */
module Protocol {
  import opened Messages
  import opened Events
  import opened Tools
  import opened ToolHistory
  import opened RepairCanonical
  import opened SessionLog

  datatype Invocation = Invocation(
    requestId: string, toolCallId: string, toolName: string, idempotent: bool, recovery: bool,
    at: nat)  // length of the log when the executor ran

  datatype World = World(log: Log, trace: seq<Invocation>)

  datatype Action =
    | Append(entry: Entry)
    | Execute(requestId: string, toolCallId: string, toolName: string, idempotent: bool, recovery: bool)

  function Act(w: World, a: Action): World {
    match a
    case Append(e) => w.(log := w.log + [e])
    case Execute(rid, cid, name, idem, rec) => w.(trace := w.trace + [Invocation(rid, cid, name, idem, rec, |w.log|)])
  }

  /** The world after the first n actions; stopping short of all of them is a crash. */
  function ActUpTo(w: World, acts: seq<Action>, n: nat): World
    requires n <= |acts|
  {
    if n == 0 then w else Act(ActUpTo(w, acts, n - 1), acts[n - 1])
  }

  /** One resume-side operation. */
  datatype Operation =
    | Deny(request: PendingInputRequest, resolvedBy: string, reason: string)
    | Approve(request: PendingInputRequest, resolvedBy: string, note: Option<string>,
              tool: AgentTool, call: ToolCall, limit: Option<int>)
    | Answer(request: PendingInputRequest, resolvedBy: string, text: string)
    | CompleteChild(request: PendingInputRequest, resolvedBy: string, result: AgentMessage)
    | Rerun(window: CrashWindow, tool: AgentTool, call: ToolCall)
    | Skip(toolCallId: string, toolName: string, actor: string, reason: string)
    | Persist(entry: Entry)

  function Resolution(request: PendingInputRequest, decision: Decision, actor: string, reason: Option<string>): Entry {
    ResolvedEntry(InputResolution(request.id, decision, actor, reason))
  }

  function Start(request: PendingInputRequest): Entry {
    StartedEntry(ExecutionStarted(request.id, request.toolCallId, request.toolName))
  }

  /** The appended result of an execution; nothing when the executor parked the call. */
  function ResultActions(toolCallId: string, toolName: string, execution: Execution): seq<Action> {
    match execution
    case Finished(result, isError) => [Append(MessageEntry(ResultMessage(toolCallId, toolName, result, isError)))]
    case ParkedCall(_) => []
  }

  /** The atomic actions of an operation, in order. */
  function Actions(op: Operation): seq<Action> {
    match op
    case Deny(r, actor, reason) =>
      [Append(Resolution(r, Denied, actor, Some(reason))),
       Append(MessageEntry(ErrorText(r.toolCallId, r.toolName, "User denied: " + reason)))]
    case Approve(r, actor, note, tool, call, limit) =>
      [Append(Resolution(r, Approved, actor, note)),
       Append(Start(r)),
       Execute(r.id, r.toolCallId, r.toolName, tool.idempotent, false)] +
      (if tool.executor.Some? then ResultActions(r.toolCallId, r.toolName, ExecuteTool(tool, call, limit)) else [])
    case Answer(r, actor, text) =>
      [Append(Resolution(r, Approved, actor, None)),
       Append(MessageEntry(ToolResultMessage(r.toolCallId, r.toolName, [TextBlock(text)], NO_DETAILS, false)))]
    case CompleteChild(r, actor, result) =>
      [Append(Resolution(r, Approved, actor, None)),
       Append(MessageEntry(result))]
    case Rerun(w, tool, call) =>
      [Append(StartedEntry(ExecutionStarted(w.requestId, w.toolCallId, w.toolName))),
       Execute(w.requestId, w.toolCallId, w.toolName, tool.idempotent, true)] +
      (if tool.executor.Some? then ResultActions(w.toolCallId, w.toolName, ExecuteTool(tool, call, None)) else [])
    case Skip(id, name, actor, reason) =>
      [Append(MessageEntry(ErrorText(id, name, "Operator skip by " + actor + ": " + reason)))]
    case Persist(e) => [Append(e)]
  }

  // ------------------------------------------------------------- what is legal

  /** The request that a call id is parked on, if any, has been resolved. */
  ghost predicate ParkResolved(log: Log, toolCallId: string) {
    forall id :: id in Requests(log) && Requests(log)[id].toolCallId == toolCallId ==> id in ResolvedIds(log)
  }

  ghost predicate NeverParked(log: Log, toolCallId: string) {
    forall id :: id in Requests(log) ==> Requests(log)[id].toolCallId != toolCallId
  }

  /** What may be appended to a log. */
  ghost predicate Legal(log: Log, e: Entry) {
    match e
    case MessageEntry(m) =>
      if m.ToolResultMessage? then
        !HasResult(log, m.toolCallId) && ParkResolved(log, m.toolCallId)
      else
        DistinctIds(CallsOf(m)) && Ids(CallsOf(m)) !! CallIdSet(MessagesOf(log))
    case RequestedEntry(r) =>
      r.id !in Requests(log) && NeverParked(log, r.toolCallId) && !HasResult(log, r.toolCallId)
    case ResolvedEntry(res) =>
      res.requestId in Requests(log) && res.requestId !in ResolvedIds(log)
    case StartedEntry(s) =>
      && s.requestId in Approvals(log) && s.requestId in Requests(log)
      && Requests(log)[s.requestId].kind.ToolApproval?
      && Requests(log)[s.requestId].toolCallId == s.toolCallId
      && Requests(log)[s.requestId].toolName == s.toolName
      && !HasResult(log, s.toolCallId)
    case OtherEntry(_) => true
  }

  /** Every entry was legal when it was appended. */
  ghost predicate WellFormed(log: Log) {
    log == [] || (WellFormed(log[..|log| - 1]) && Legal(log[..|log| - 1], log[|log| - 1]))
  }

  predicate IsApprovalOf(e: Entry, requestId: string) {
    e.ResolvedEntry? && e.resolution.requestId == requestId && e.resolution.decision.Approved?
  }

  /** What a run of an executor leaves behind: it stands right behind its own
      execution_started, with no result for its call so far; a first run stands
      right behind its approval, and a recovery run is of an idempotent tool. */
  ghost predicate Justified(log: Log, i: Invocation) {
    && 1 <= i.at <= |log|
    && log[i.at - 1] == StartedEntry(ExecutionStarted(i.requestId, i.toolCallId, i.toolName))
    && !HasResult(log[..i.at], i.toolCallId)
    && (i.recovery ==> i.idempotent)
    && (!i.recovery ==> i.at >= 2 && IsApprovalOf(log[i.at - 2], i.requestId))
  }

  ghost predicate TraceJustified(w: World) {
    && (forall i :: 0 <= i < |w.trace| ==> Justified(w.log, w.trace[i]))
    && (forall i, j :: 0 <= i < j < |w.trace| ==> w.trace[i].at < w.trace[j].at)
  }

  ghost predicate Inv(w: World) {
    WellFormed(w.log) && TraceJustified(w)
  }

  /** When the protocol performs an operation. */
  ghost predicate Enabled(log: Log, op: Operation) {
    match op
    case Deny(r, _, _) => IsPending(log, r)
    case Approve(r, _, _, tool, _, _) => IsPending(log, r) && r.kind.ToolApproval? && tool.executor.Some?
    case Answer(r, _, _) => IsPending(log, r) && r.kind.Question?
    case CompleteChild(r, _, result) =>
      IsPending(log, r) && r.kind.ChildSession? && result.ToolResultMessage? && result.toolCallId == r.toolCallId
    case Rerun(w, tool, _) => w in Windows(log) && tool.idempotent && tool.executor.Some?
    case Skip(id, _, _, _) => exists w :: w in Windows(log) && w.toolCallId == id
    case Persist(e) => (e.MessageEntry? || e.RequestedEntry?) && Legal(log, e)
  }

  // --------------------------------------------- what a well-formed log satisfies

  lemma AppendMessages(log: Log, e: Entry)
    ensures (log + [e])[..|log|] == log && (log + [e])[|log|] == e
    ensures MessagesOf(log + [e]) == if e.MessageEntry? then MessagesOf(log) + [e.message] else MessagesOf(log)
  {
    assert (log + [e])[..|log|] == log;
  }

  lemma {:induction false} WellFormedMessages(log: Log)
    requires WellFormed(log)
    ensures FreshCalls(MessagesOf(log)) && SingleResults(MessagesOf(log))
  {
    hide CallsOf;
    if log != [] {
      var init, last := log[..|log| - 1], log[|log| - 1];
      WellFormedMessages(init);
      if last.MessageEntry? {
        var ms := MessagesOf(init);
        assert (ms + [last.message])[..|ms|] == ms;
        if last.message.ToolResultMessage? { ResultsHaveNoCalls(last.message); }
      }
    }
  }

  /** Resolved requests were requested, approvals are resolutions, and starts are
      approved tool approvals for the request's own call. */
  lemma {:induction false} WellFormedReferences(log: Log)
    requires WellFormed(log)
    ensures ResolvedIds(log) <= Requests(log).Keys && Approvals(log).Keys <= ResolvedIds(log)
    ensures forall id :: id in Starts(log) ==>
              && id in Approvals(log) && id in Requests(log) && Requests(log)[id].kind.ToolApproval?
              && Starts(log)[id] == ExecutionStarted(id, Requests(log)[id].toolCallId, Requests(log)[id].toolName)
  {
    hide CallsOf, CallIdSet, HasResult, NeverParked, ParkResolved;
    if log != [] {
      WellFormedReferences(log[..|log| - 1]);
    }
  }

  /** Two requests never park the same call. */
  lemma {:induction false} ParkedOnce(log: Log, i: string, j: string)
    requires WellFormed(log) && i in Requests(log) && j in Requests(log)
    requires Requests(log)[i].toolCallId == Requests(log)[j].toolCallId
    ensures i == j
  {
    hide CallsOf, CallIdSet, HasResult, ParkResolved;
    var init, last := log[..|log| - 1], log[|log| - 1];
    if i in Requests(init) && j in Requests(init) {
      ParkedOnce(init, i, j);
    }
  }

  lemma {:induction false} ResultMeansResolved(log: Log, id: string)
    requires WellFormed(log) && id in Requests(log) && HasResult(log, Requests(log)[id].toolCallId)
    ensures id in ResolvedIds(log)
  {
    hide CallsOf, CallIdSet, NeverParked;
    var init, last := log[..|log| - 1], log[|log| - 1];
    AppendMessages(init, last);
    assert init + [last] == log;
    if id in Requests(init) && HasResult(init, Requests(log)[id].toolCallId) && !last.RequestedEntry? {
      ResultMeansResolved(init, id);
    } else if last.RequestedEntry? && last.request.id != id {
      ResultMeansResolved(init, id);
    } else if last.MessageEntry? {
      ResultMapAppend(MessagesOf(init), last.message);
    }
  }

  lemma ResultMapAppend(ms: seq<AgentMessage>, m: AgentMessage)
    ensures ResultMap(ms + [m]) == if m.ToolResultMessage? then ResultMap(ms)[m.toolCallId := m] else ResultMap(ms)
  {
    assert (ms + [m])[..|ms|] == ms;
  }

  /** A pending request's call has no result. */
  lemma PendingUnanswered(log: Log, r: PendingInputRequest)
    requires WellFormed(log) && IsPending(log, r)
    ensures !HasResult(log, r.toolCallId)
  {
    if HasResult(log, r.toolCallId) { ResultMeansResolved(log, r.id); }
  }

  /** A call whose request is resolved may be answered: no other request parks it. */
  lemma ResolvedParkResolved(log: Log, id: string)
    requires WellFormed(log) && id in Requests(log) && id in ResolvedIds(log)
    ensures ParkResolved(log, Requests(log)[id].toolCallId)
  {
    hide WellFormed;
    forall j | j in Requests(log) && Requests(log)[j].toolCallId == Requests(log)[id].toolCallId
      ensures j in ResolvedIds(log) {
      ParkedOnce(log, id, j);
    }
  }

  // ---------------------------------------------- every atomic step keeps the invariant

  lemma JustifiedLater(log: Log, i: Invocation, more: Log)
    requires Justified(log, i)
    ensures Justified(log + more, i)
  {
    assert (log + more)[..i.at] == log[..i.at];
  }

  lemma AppendKeeps(w: World, e: Entry)
    requires Inv(w) && Legal(w.log, e)
    ensures Inv(Act(w, Append(e)))
  {
    hide CallsOf, Legal, Justified;
    var r := Act(w, Append(e));
    assert r.log[..|w.log|] == w.log;
    forall i | 0 <= i < |r.trace| ensures Justified(r.log, r.trace[i]) {
      JustifiedLater(w.log, w.trace[i], [e]);
    }
  }

  lemma AtBounded(w: World, i: nat)
    requires TraceJustified(w) && i < |w.trace|
    ensures w.trace[i].at <= |w.log|
  {
  }

  /** An executor run right behind its own execution_started. */
  lemma ExecuteKeeps(w: World, s: ExecutionStarted, idempotent: bool, recovery: bool)
    requires Inv(w) && Legal(w.log, StartedEntry(s))
    requires recovery ==> idempotent
    requires !recovery ==> w.log != [] && IsApprovalOf(w.log[|w.log| - 1], s.requestId)
    ensures var v := Act(w, Append(StartedEntry(s)));
            Inv(v) && Inv(Act(v, Execute(s.requestId, s.toolCallId, s.toolName, idempotent, recovery)))
  {
    hide CallsOf, WellFormed, ResultMap;
    var v := Act(w, Append(StartedEntry(s)));
    AppendKeeps(w, StartedEntry(s));
    AppendMessages(w.log, StartedEntry(s));
    var r := Act(v, Execute(s.requestId, s.toolCallId, s.toolName, idempotent, recovery));
    var last := r.trace[|v.trace|];
    assert r.log[..last.at] == r.log;
    assert Justified(r.log, last);
    forall i | 0 <= i < |v.trace| ensures r.trace[i].at < last.at && Justified(r.log, r.trace[i]) {
      AtBounded(w, i);
      assert Justified(v.log, v.trace[i]);
    }
  }

  // -------------------------------------------------------- ... of every operation

  lemma ResolutionLegal(log: Log, r: PendingInputRequest, d: Decision, actor: string, reason: Option<string>)
    requires WellFormed(log) && IsPending(log, r)
    ensures Legal(log, Resolution(r, d, actor, reason))
  {
  }

  /** The log right after a pending request is resolved: its call may now be answered. */
  lemma AfterResolution(log: Log, r: PendingInputRequest, d: Decision, actor: string, reason: Option<string>)
    requires WellFormed(log) && IsPending(log, r)
    ensures var next := log + [Resolution(r, d, actor, reason)];
            && WellFormed(next) && Requests(next) == Requests(log)
            && ResolvedIds(next) == ResolvedIds(log) + {r.id}
            && (d.Approved? ==> r.id in Approvals(next))
            && !HasResult(next, r.toolCallId) && ParkResolved(next, r.toolCallId)
  {
    hide CallsOf, ParkResolved, ResultMap;
    var e := Resolution(r, d, actor, reason);
    AppendMessages(log, e);
    ResolutionLegal(log, r, d, actor, reason);
    PendingUnanswered(log, r);
    ResolvedParkResolved(log + [e], r.id);
  }

  lemma ResultLegal(log: Log, m: AgentMessage)
    requires m.ToolResultMessage? && !HasResult(log, m.toolCallId) && ParkResolved(log, m.toolCallId)
    ensures Legal(log, MessageEntry(m))
  {
  }

  /** Resolve, then answer: denial, answer and child completion alike. */
  lemma ResolveThenAnswerKeeps(w: World, r: PendingInputRequest, d: Decision, actor: string, reason: Option<string>,
                               m: AgentMessage)
    requires Inv(w) && IsPending(w.log, r) && m.ToolResultMessage? && m.toolCallId == r.toolCallId
    ensures var v := Act(w, Append(Resolution(r, d, actor, reason)));
            Inv(v) && Inv(Act(v, Append(MessageEntry(m))))
  {
    hide CallsOf, Legal, IsPending, HasResult, ParkResolved, WellFormed, TraceJustified;
    ResolutionLegal(w.log, r, d, actor, reason);
    AfterResolution(w.log, r, d, actor, reason);
    var v := Act(w, Append(Resolution(r, d, actor, reason)));
    AppendKeeps(w, Resolution(r, d, actor, reason));
    ResultLegal(v.log, m);
    AppendKeeps(v, MessageEntry(m));
  }

  lemma StartLegal(log: Log, r: PendingInputRequest, actor: string, note: Option<string>)
    requires WellFormed(log) && IsPending(log, r) && r.kind.ToolApproval?
    ensures Legal(log + [Resolution(r, Approved, actor, note)], Start(r))
  {
    hide CallsOf, HasResult, ParkResolved, WellFormed;
    AfterResolution(log, r, Approved, actor, note);
  }

  lemma AfterStart(log: Log, s: ExecutionStarted)
    ensures var next := log + [StartedEntry(s)];
            && (forall id :: HasResult(next, id) <==> HasResult(log, id))
            && (forall id :: ParkResolved(next, id) <==> ParkResolved(log, id))
            && Requests(next) == Requests(log) && ResolvedIds(next) == ResolvedIds(log)
  {
    hide CallsOf, ResultMap;
    AppendMessages(log, StartedEntry(s));
    var next := log + [StartedEntry(s)];
    assert Requests(next) == Requests(log) && ResolvedIds(next) == ResolvedIds(log);
    forall id ensures ParkResolved(next, id) <==> ParkResolved(log, id) { }
  }

  lemma ApproveKeeps(w: World, op: Operation, n: nat)
    requires Inv(w) && op.Approve? && Enabled(w.log, op) && n <= |Actions(op)|
    ensures Inv(ActUpTo(w, Actions(op), n))
  {
    hide CallsOf, Legal, HasResult, ParkResolved, WellFormed, TraceJustified, ExecuteTool;
    var Approve(r, actor, note, tool, call, limit) := op;
    var acts := Actions(op);
    var w1 := Act(w, acts[0]);
    var w2 := Act(w1, acts[1]);
    var w3 := Act(w2, acts[2]);
    assert ActUpTo(w, acts, 0) == w && ActUpTo(w, acts, 1) == w1;
    assert ActUpTo(w, acts, 2) == Act(ActUpTo(w, acts, 1), acts[1]) == w2;
    assert ActUpTo(w, acts, 3) == Act(ActUpTo(w, acts, 2), acts[2]) == w3;
    ResolutionLegal(w.log, r, Approved, actor, note);
    AppendKeeps(w, Resolution(r, Approved, actor, note));
    AfterResolution(w.log, r, Approved, actor, note);
    StartLegal(w.log, r, actor, note);
    ExecuteKeeps(w1, ExecutionStarted(r.id, r.toolCallId, r.toolName), tool.idempotent, false);
    if n == 4 {
      AfterStart(w1.log, ExecutionStarted(r.id, r.toolCallId, r.toolName));
      ResultLegal(w3.log, acts[3].entry.message);
      AppendKeeps(w3, acts[3].entry);
    }
  }

  /** A window's call has no result and its request is resolved: it may be started again and answered. */
  lemma WindowLegal(log: Log, w: CrashWindow)
    requires WellFormed(log) && w in Windows(log)
    ensures Legal(log, StartedEntry(ExecutionStarted(w.requestId, w.toolCallId, w.toolName)))
    ensures !HasResult(log, w.toolCallId) && ParkResolved(log, w.toolCallId)
  {
    hide CallsOf, WellFormed, HasResult, ParkResolved;
    WindowsIff(log, w);
    WellFormedReferences(log);
    ResolvedParkResolved(log, w.requestId);
  }

  lemma RerunKeeps(w: World, op: Operation, n: nat)
    requires Inv(w) && op.Rerun? && Enabled(w.log, op) && n <= |Actions(op)|
    ensures Inv(ActUpTo(w, Actions(op), n))
  {
    hide CallsOf, Legal, HasResult, ParkResolved, WellFormed, TraceJustified, ExecuteTool, Windows;
    var Rerun(window, tool, call) := op;
    var acts := Actions(op);
    var w1 := Act(w, acts[0]);
    var w2 := Act(w1, acts[1]);
    assert ActUpTo(w, acts, 0) == w && ActUpTo(w, acts, 1) == w1;
    assert ActUpTo(w, acts, 2) == Act(ActUpTo(w, acts, 1), acts[1]) == w2;
    WindowLegal(w.log, window);
    var s := ExecutionStarted(window.requestId, window.toolCallId, window.toolName);
    ExecuteKeeps(w, s, tool.idempotent, true);
    if n == 3 {
      AfterStart(w.log, s);
      ResultLegal(w2.log, acts[2].entry.message);
      AppendKeeps(w2, acts[2].entry);
    }
  }

  lemma SkipKeeps(w: World, op: Operation)
    requires Inv(w) && op.Skip? && Enabled(w.log, op)
    ensures Inv(Act(w, Actions(op)[0]))
  {
    hide CallsOf, Legal, HasResult, ParkResolved, WellFormed, TraceJustified, Windows;
    var window :| window in Windows(w.log) && window.toolCallId == op.toolCallId;
    WindowLegal(w.log, window);
    ResultLegal(w.log, Actions(op)[0].entry.message);
    AppendKeeps(w, Actions(op)[0].entry);
  }

  /** Whatever operation the protocol performs, and wherever it crashes, the invariant stands. */
  lemma OperationKeeps(w: World, op: Operation, n: nat)
    requires Inv(w) && Enabled(w.log, op) && n <= |Actions(op)|
    ensures Inv(ActUpTo(w, Actions(op), n))
  {
    hide CallsOf, Inv, Legal, IsPending;
    var acts := Actions(op);
    if n == 0 { return; }
    match op
    case Approve(_, _, _, _, _, _) => ApproveKeeps(w, op, n);
    case Rerun(_, _, _) => RerunKeeps(w, op, n);
    case Skip(_, _, _, _) => SkipKeeps(w, op); assert ActUpTo(w, acts, 0) == w;
    case Persist(e) => PersistKeeps(w, e); assert ActUpTo(w, acts, 0) == w;
    case Deny(r, actor, reason) =>
      ResolveThenAnswerKeeps(w, r, Denied, actor, Some(reason), acts[1].entry.message);
      assert ActUpTo(w, acts, 0) == w && ActUpTo(w, acts, 1) == Act(w, acts[0]);
    case Answer(r, actor, text) =>
      ResolveThenAnswerKeeps(w, r, Approved, actor, None, acts[1].entry.message);
      assert ActUpTo(w, acts, 0) == w && ActUpTo(w, acts, 1) == Act(w, acts[0]);
    case CompleteChild(r, actor, result) =>
      ResolveThenAnswerKeeps(w, r, Approved, actor, None, result);
      assert ActUpTo(w, acts, 0) == w && ActUpTo(w, acts, 1) == Act(w, acts[0]);
  }

  lemma PersistKeeps(w: World, e: Entry)
    requires Inv(w) && Legal(w.log, e)
    ensures Inv(Act(w, Append(e)))
  {
    AppendKeeps(w, e);
  }

  // ----------------------------------------------------------------- whole runs

  /** An operation and how many of its actions happened before a crash. */
  datatype Step = Step(op: Operation, cut: nat)

  function Perform(w: World, s: Step): World {
    ActUpTo(w, Actions(s.op), if s.cut <= |Actions(s.op)| then s.cut else |Actions(s.op)|)
  }

  function History(w: World, steps: seq<Step>): World {
    if steps == [] then w else Perform(History(w, steps[..|steps| - 1]), steps[|steps| - 1])
  }

  /** Every step is one the protocol performs where it stands. */
  ghost predicate Lawful(w: World, steps: seq<Step>) {
    steps == [] || (
      && Lawful(w, steps[..|steps| - 1])
      && Enabled(History(w, steps[..|steps| - 1]).log, steps[|steps| - 1].op))
  }

  const EMPTY := World([], [])

  lemma {:induction false} HistoryKeeps(w: World, steps: seq<Step>)
    requires Inv(w) && Lawful(w, steps)
    ensures Inv(History(w, steps))
  {
    hide Inv, Enabled, Actions;
    if steps != [] {
      HistoryKeeps(w, steps[..|steps| - 1]);
      var s := steps[|steps| - 1];
      OperationKeeps(History(w, steps[..|steps| - 1]), s.op,
                     if s.cut <= |Actions(s.op)| then s.cut else |Actions(s.op)|);
    }
  }
}
