/** What settling operations do, told from the log and the executions before and after them:
    what was written, what ran, and what became of each request. */
module Effects {
  import opened Messages
  import opened Events
  import opened Tools
  import opened ToolHistory
  import opened RepairCanonical
  import opened SessionLog
  import opened Protocol
  import opened ProtocolSafety
  import opened ResumePlan
  import opened Settlement
  import opened ResolveBatches

  // ------------------------------------------- what was written, what was run

  ghost predicate Wrote(before: World, after: World, e: Entry) {
    exists p :: |before.log| <= p < |after.log| && after.log[p] == e
  }

  ghost predicate RanFor(before: World, after: World, requestId: string) {
    exists i :: |before.trace| <= i < |after.trace| && after.trace[i].requestId == requestId
  }

  ghost predicate Grew(before: World, after: World) {
    before.log <= after.log && before.trace <= after.trace
  }

  /** An invocation an action makes. */
  predicate Makes(a: Action, i: Invocation) {
    && a.Execute? && i.requestId == a.requestId && i.toolCallId == a.toolCallId && i.toolName == a.toolName
    && i.idempotent == a.idempotent && i.recovery == a.recovery
  }

  ghost predicate OfSome(ops: seq<Operation>, a: Action) { exists op :: op in ops && a in Actions(op) }

  ghost predicate RunOfSome(ops: seq<Operation>, run: Invocation) { exists op :: op in ops && Executes(op, run) }

  ghost predicate RanOp(before: World, after: World, op: Operation) {
    exists i :: IsNew(before, after, i) && Executes(op, after.trace[i])
  }

  /** A world that came about by actions of operations, each of which happened. */
  ghost predicate MadeBy(before: World, after: World, ops: seq<Operation>) {
    && Grew(before, after)
    && (forall p :: |before.log| <= p < |after.log| ==> OfSome(ops, Append(after.log[p])))
    && (forall i :: |before.trace| <= i < |after.trace| ==> RunOfSome(ops, after.trace[i]))
    && (forall e :: OfSome(ops, Append(e)) ==> Wrote(before, after, e))
    && (forall op :: op in ops && HasExecution(op) ==> RanOp(before, after, op))
  }

  ghost predicate IsNew(before: World, after: World, i: int) { |before.trace| <= i < |after.trace| }

  ghost predicate Executes(op: Operation, i: Invocation) { exists a :: a in Actions(op) && Makes(a, i) }

  ghost predicate HasExecution(op: Operation) { exists a :: a in Actions(op) && a.Execute? }

  // the same for actions in a row

  ghost predicate LogFrom(before: World, after: World, acts: seq<Action>) {
    forall p :: |before.log| <= p < |after.log| ==> Append(after.log[p]) in acts
  }

  ghost predicate RunsFrom(before: World, after: World, acts: seq<Action>) {
    forall i :: |before.trace| <= i < |after.trace| ==> MadeByOne(acts, after.trace[i])
  }

  ghost predicate MadeByOne(acts: seq<Action>, run: Invocation) { exists a :: a in acts && Makes(a, run) }

  ghost predicate AllWritten(before: World, after: World, acts: seq<Action>) {
    forall e :: Append(e) in acts ==> Wrote(before, after, e)
  }

  ghost predicate AllRun(before: World, after: World, acts: seq<Action>) {
    forall a :: a in acts && a.Execute? ==> Happened(before, after, a)
  }

  ghost predicate Happened(before: World, after: World, a: Action) {
    exists i :: IsNew(before, after, i) && Makes(a, after.trace[i])
  }

  ghost predicate ActedBy(before: World, after: World, acts: seq<Action>) {
    && Grew(before, after) && LogFrom(before, after, acts) && RunsFrom(before, after, acts)
    && AllWritten(before, after, acts) && AllRun(before, after, acts)
  }

  lemma {:induction false} ActsAct(w: World, acts: seq<Action>, n: nat)
    requires n <= |acts|
    ensures ActedBy(w, ActUpTo(w, acts, n), acts[..n])
  {
    hide LogFrom, RunsFrom, AllWritten, AllRun, Act;
    if n > 0 {
      ActsAct(w, acts, n - 1);
      var v, init, a := ActUpTo(w, acts, n - 1), acts[..n - 1], acts[n - 1];
      LogMore(w, v, init, a);
      RunsMore(w, v, init, a);
      WrittenMore(w, v, init, a);
      RunMore(w, v, init, a);
      assert acts[..n] == init + [a];
    } else {
      assert acts[..0] == [];
      NothingActed(w);
    }
  }

  lemma NothingActed(w: World)
    ensures ActedBy(w, w, [])
  {
  }

  lemma LogMore(w: World, v: World, acts: seq<Action>, a: Action)
    requires Grew(w, v) && LogFrom(w, v, acts)
    ensures Grew(w, Act(v, a)) && LogFrom(w, Act(v, a), acts + [a])
  {
    var u := Act(v, a);
    forall p | |w.log| <= p < |u.log| ensures Append(u.log[p]) in acts + [a] {
      if p < |v.log| { assert u.log[p] == v.log[p] && Append(v.log[p]) in acts; }
    }
  }

  lemma RunsMore(w: World, v: World, acts: seq<Action>, a: Action)
    requires Grew(w, v) && RunsFrom(w, v, acts)
    ensures RunsFrom(w, Act(v, a), acts + [a])
  {
    var u := Act(v, a);
    forall i | |w.trace| <= i < |u.trace| ensures MadeByOne(acts + [a], u.trace[i]) {
      if i < |v.trace| {
        assert u.trace[i] == v.trace[i] && MadeByOne(acts, v.trace[i]);
        var b :| b in acts && Makes(b, v.trace[i]);
        assert b in acts + [a];
      } else {
        assert a in acts + [a] && Makes(a, u.trace[i]);
      }
    }
  }

  lemma WrittenMore(w: World, v: World, acts: seq<Action>, a: Action)
    requires Grew(w, v) && AllWritten(w, v, acts)
    ensures AllWritten(w, Act(v, a), acts + [a])
  {
    hide Wrote;
    forall e | Append(e) in acts + [a] ensures Wrote(w, Act(v, a), e) {
      if Append(e) in acts { WroteStill(w, v, a, e); } else { WroteNow(w, v, e); }
    }
  }

  lemma WroteStill(w: World, v: World, a: Action, e: Entry)
    requires Wrote(w, v, e)
    ensures Wrote(w, Act(v, a), e)
  {
    var p :| |w.log| <= p < |v.log| && v.log[p] == e;
    assert Act(v, a).log[p] == e;
  }

  lemma WroteNow(w: World, v: World, e: Entry)
    requires Grew(w, v)
    ensures Wrote(w, Act(v, Append(e)), e)
  {
    assert Act(v, Append(e)).log[|v.log|] == e;
  }

  lemma RunMore(w: World, v: World, acts: seq<Action>, a: Action)
    requires Grew(w, v) && AllRun(w, v, acts)
    ensures AllRun(w, Act(v, a), acts + [a])
  {
    var u := Act(v, a);
    forall b | b in acts + [a] && b.Execute? ensures Happened(w, u, b) {
      if b in acts {
        assert Happened(w, v, b);
        var i :| IsNew(w, v, i) && Makes(b, v.trace[i]);
        assert IsNew(w, u, i) && u.trace[i] == v.trace[i];
      } else {
        assert IsNew(w, u, |v.trace|) && Makes(b, u.trace[|v.trace|]);
      }
    }
  }

  // ... and for operations, whose actions are in a row

  function AllActions(ops: seq<Operation>): seq<Action> {
    if ops == [] then [] else AllActions(ops[..|ops| - 1]) + Actions(ops[|ops| - 1])
  }

  lemma {:induction false} ActPrefix(w: World, a: seq<Action>, b: seq<Action>, n: nat)
    requires n <= |a|
    ensures ActUpTo(w, a + b, n) == ActUpTo(w, a, n)
  {
    if n > 0 { ActPrefix(w, a, b, n - 1); }
  }

  lemma {:induction false} ActConcat(w: World, a: seq<Action>, b: seq<Action>, n: nat)
    requires n <= |b|
    ensures ActUpTo(w, a + b, |a| + n) == ActUpTo(ActUpTo(w, a, |a|), b, n)
  {
    if n > 0 { ActConcat(w, a, b, n - 1); } else { ActPrefix(w, a, b, |a|); }
  }

  lemma {:induction false} PerformIsActing(w: World, ops: seq<Operation>)
    ensures PerformAll(w, ops) == ActUpTo(w, AllActions(ops), |AllActions(ops)|)
  {
    hide Actions;
    if ops != [] {
      var init, last := ops[..|ops| - 1], ops[|ops| - 1];
      PerformIsActing(w, init);
      ActConcat(w, AllActions(init), Actions(last), |Actions(last)|);
    }
  }

  lemma {:induction false} InAllActions(ops: seq<Operation>, a: Action)
    ensures a in AllActions(ops) <==> OfSome(ops, a)
  {
    hide Actions;
    if ops != [] {
      var init, last := ops[..|ops| - 1], ops[|ops| - 1];
      InAllActions(init, a);
      assert ops == init + [last];
    }
  }

  lemma OpsMake(w: World, ops: seq<Operation>)
    ensures MadeBy(w, PerformAll(w, ops), ops)
  {
    hide PerformAll, Actions, ActUpTo, AllActions, Wrote, OfSome, RunOfSome, RanOp, MadeByOne, HasExecution;
    var v, acts := PerformAll(w, ops), AllActions(ops);
    PerformIsActing(w, ops);
    ActsAct(w, acts, |acts|);
    assert acts[..|acts|] == acts;
    forall p | |w.log| <= p < |v.log| ensures OfSome(ops, Append(v.log[p])) { InAllActions(ops, Append(v.log[p])); }
    forall i | |w.trace| <= i < |v.trace| ensures RunOfSome(ops, v.trace[i]) { RunIsOfSome(ops, v.trace[i]); }
    forall e | OfSome(ops, Append(e)) ensures Wrote(w, v, e) { InAllActions(ops, Append(e)); }
    forall op | op in ops && HasExecution(op) ensures RanOp(w, v, op) { RunsOp(w, v, ops, op); }
  }

  lemma RunIsOfSome(ops: seq<Operation>, run: Invocation)
    requires MadeByOne(AllActions(ops), run)
    ensures RunOfSome(ops, run)
  {
    hide Actions, AllActions, Makes;
    var a :| a in AllActions(ops) && Makes(a, run);
    InAllActions(ops, a);
    var op :| op in ops && a in Actions(op);
    assert Executes(op, run);
  }

  lemma RunsOp(w: World, v: World, ops: seq<Operation>, op: Operation)
    requires AllRun(w, v, AllActions(ops)) && op in ops && HasExecution(op)
    ensures RanOp(w, v, op)
  {
    hide Actions, AllActions, Makes;
    var a :| a in Actions(op) && a.Execute?;
    InAllActions(ops, a);
    assert Happened(w, v, a);
    var i :| IsNew(w, v, i) && Makes(a, v.trace[i]);
    assert Executes(op, v.trace[i]);
  }

  // ------------------------------------------------------ what operations write

  lemma RunsNamed(op: Operation, i: Invocation)
    requires Resolves(op) && Executes(op, i)
    ensures op.Approve? && i.requestId == op.request.id && i.toolCallId == op.request.toolCallId
    ensures i.toolName == op.request.toolName && i.idempotent == op.tool.idempotent && !i.recovery
  {
    hide ExecuteTool;
  }

  lemma ResolutionsNamed(op: Operation, e: Entry)
    requires Resolves(op) && Append(e) in Actions(op) && e.ResolvedEntry?
    ensures e.resolution.requestId == op.request.id && e.resolution.resolvedBy == op.resolvedBy
    ensures e.resolution.decision.Denied? <==> op.Deny?
  {
    hide ExecuteTool;
  }

  /** One operation a request: two that name the same one are the same. */
  lemma OneOpEach(ops: seq<Operation>, a: Operation, b: Operation)
    requires DistinctRequests(ops) && a in ops && b in ops && RequestIdOf(a) == RequestIdOf(b)
    ensures a == b && Resolves(a) && RequestIdOf(a) == a.request.id
  {
    var i :| 0 <= i < |ops| && ops[i] == a;
    var j :| 0 <= j < |ops| && ops[j] == b;
  }

  /** On a lawful log the result in the log is the result of its call. */
  lemma {:induction false} OnlyResult(log: Log, p: nat)
    requires WellFormed(log) && p < |log| && log[p].MessageEntry? && log[p].message.ToolResultMessage?
    ensures HasResult(log, log[p].message.toolCallId)
    ensures ResultMap(MessagesOf(log))[log[p].message.toolCallId] == log[p].message
  {
    hide CallsOf, ParkResolved, NeverParked, MessagesOf, ResultMap;
    var init, last := log[..|log| - 1], log[|log| - 1];
    assert init + [last] == log;
    AppendMessages(init, last);
    if last.MessageEntry? { ResultMapAppend(MessagesOf(init), last.message); }
    if p < |log| - 1 {
      assert init[p] == log[p];
      OnlyResult(init, p);
    }
  }

  lemma WrittenResult(w: World, v: World, m: AgentMessage)
    requires WellFormed(v.log) && m.ToolResultMessage? && Wrote(w, v, MessageEntry(m))
    ensures HasResult(v.log, m.toolCallId) && ResultMap(MessagesOf(v.log))[m.toolCallId] == m
  {
    hide WellFormed, MessagesOf, ResultMap;
    var p :| |w.log| <= p < |v.log| && v.log[p] == MessageEntry(m);
    OnlyResult(v.log, p);
  }

  // -------------------------------------------------- what becomes of a request

  ghost predicate HasResultOf(log: Log, m: AgentMessage) {
    m.ToolResultMessage? && HasResult(log, m.toolCallId) && ResultMap(MessagesOf(log))[m.toolCallId] == m
  }

  /** Denied by somebody for a reason: nothing ran, and the call has that as an error result. */
  ghost predicate WasDenied(before: World, after: World, r: PendingInputRequest, actor: string, reason: string) {
    && Wrote(before, after, ResolvedEntry(InputResolution(r.id, Denied, actor, Some(reason))))
    && !IsPending(after.log, r) && r.id !in Approvals(after.log) && !RanFor(before, after, r.id)
    && HasResultOf(after.log, ToolResultMessage(r.toolCallId, r.toolName, [TextBlock("User denied: " + reason)],
                                                NO_DETAILS, true))
  }

  /** Answered by somebody: nothing ran, and the call has the answer as its result. */
  ghost predicate WasAnswered(before: World, after: World, r: PendingInputRequest, actor: string, text: string) {
    && Wrote(before, after, ResolvedEntry(InputResolution(r.id, Approved, actor, None)))
    && !IsPending(after.log, r) && !RanFor(before, after, r.id)
    && HasResultOf(after.log, ToolResultMessage(r.toolCallId, r.toolName, [TextBlock(text)], NO_DETAILS, false))
  }

  ghost predicate FirstRunOf(before: World, after: World, r: PendingInputRequest, tool: AgentTool, i: int) {
    && IsNew(before, after, i)
    && var run := after.trace[i];
       && run.requestId == r.id && run.toolCallId == r.toolCallId && run.toolName == r.toolName
       && run.idempotent == tool.idempotent && !run.recovery
       && forall j :: IsNew(before, after, j) && after.trace[j].requestId == r.id ==> j == i
  }

  /** Approved by somebody: the tool ran once for it, on this call, and unless it parked the
      call has the outcome as its result. */
  ghost predicate WasRun(before: World, after: World, r: PendingInputRequest, actor: string, note: Option<string>,
                         tool: AgentTool, call: ToolCall, limit: Option<int>)
    requires tool.executor.Some?
  {
    && Wrote(before, after, ResolvedEntry(InputResolution(r.id, Approved, actor, note)))
    && Wrote(before, after, StartedEntry(ExecutionStarted(r.id, r.toolCallId, r.toolName)))
    && !IsPending(after.log, r) && (exists i :: FirstRunOf(before, after, r, tool, i))
    && var outcome := tool.executor.value(call);
       if outcome.Parked? then !HasResult(after.log, r.toolCallId)
       else
         && HasResult(after.log, r.toolCallId)
         && ShowsOutcome(ResultMap(MessagesOf(after.log))[r.toolCallId], r.toolCallId, r.toolName, outcome, limit)
  }

  /** Left as it was. */
  ghost predicate StaysPending(before: World, after: World, r: PendingInputRequest) {
    IsPending(after.log, r) && !RanFor(before, after, r.id) && !HasResult(after.log, r.toolCallId)
  }

  /** Lawful operations on distinct pending requests. */
  ghost predicate Plan(w: World, ops: seq<Operation>) {
    Inv(w) && DistinctRequests(ops) && AllEnabled(w.log, ops)
  }

  lemma PlanFacts(w: World, ops: seq<Operation>, op: Operation)
    requires Plan(w, ops) && op in ops
    ensures var v := PerformAll(w, ops);
            && WellFormed(w.log) && WellFormed(v.log) && Inv(v) && MadeBy(w, v, ops)
            && Resolves(op) && RequestIdOf(op) == op.request.id && IsPending(w.log, op.request)
            && !IsPending(v.log, op.request) && Requests(v.log) == Requests(w.log)
  {
    hide Inv, PerformAll, MadeBy, Requests, ResolvedIds, WellFormed, InTurn, RequestOrder, MessagesOf;
    SettleAll(w, ops);
    OpsMake(w, ops);
    InvLogs(w);
    InvLogs(PerformAll(w, ops));
    OneOpEach(ops, op, op);
    var i :| 0 <= i < |ops| && ops[i] == op;
    assert Enabled(w.log, ops[i]);
    EnabledMeansPending(w.log, op);
    assert RequestIdOf(op) in SettledIds(ops);
  }

  lemma RunIsOfOp(w: World, ops: seq<Operation>, op: Operation, i: int)
    requires DistinctRequests(ops) && MadeBy(w, PerformAll(w, ops), ops) && op in ops
    requires IsNew(w, PerformAll(w, ops), i) && PerformAll(w, ops).trace[i].requestId == RequestIdOf(op)
    ensures Executes(op, PerformAll(w, ops).trace[i])
  {
    hide PerformAll, Actions, Executes, Wrote, HasExecution, RequestIdOf, Resolves;
    var run := PerformAll(w, ops).trace[i];
    assert RunOfSome(ops, run);
    var o :| o in ops && Executes(o, run);
    OneOpEach(ops, o, o);
    RunsNamed(o, run);
    OneOpEach(ops, o, op);
  }

  lemma ApprovalIsOfOp(w: World, ops: seq<Operation>, op: Operation)
    requires Plan(w, ops) && op in ops && op.Deny?
    ensures op.request.id !in Approvals(PerformAll(w, ops).log)
  {
    hide Inv, PerformAll, Actions, Executes, Wrote, HasExecution, Requests, ResolvedIds, WellFormed, Approvals,
      RequestIdOf, Resolves;
    PlanFacts(w, ops, op);
    var v, id := PerformAll(w, ops), op.request.id;
    if id in Approvals(v.log) {
      var p := ApprovalIn(v.log, id);
      if p < |w.log| {
        ApprovalResolves(w.log, p, id);
      } else {
        assert OfSome(ops, Append(v.log[p]));
        var o :| o in ops && Append(v.log[p]) in Actions(o);
        OneOpEach(ops, o, o);
        ResolutionsNamed(o, v.log[p]);
        OneOpEach(ops, o, op);
      }
    }
  }

  lemma ApprovalResolves(log: Log, p: nat, id: string)
    requires p < |log| && IsApprovalOf(log[p], id)
    ensures id in ResolvedIds(log)
  {
    ResolvedAt(log, p, |log|);
    assert log[..|log|] == log;
  }

  lemma DeniedMeans(w: World, ops: seq<Operation>, op: Operation)
    requires Plan(w, ops) && op in ops && op.Deny?
    ensures WasDenied(w, PerformAll(w, ops), op.request, op.resolvedBy, op.reason)
  {
    hide Inv, PerformAll, Executes, Wrote, HasExecution, Requests, ResolvedIds, WellFormed, Approvals, MessagesOf,
      ResultMap, IsPending;
    PlanFacts(w, ops, op);
    ApprovalIsOfOp(w, ops, op);
    var v, r := PerformAll(w, ops), op.request;
    var resolution, m := Resolution(r, Denied, op.resolvedBy, Some(op.reason)),
                         ErrorText(r.toolCallId, r.toolName, "User denied: " + op.reason);
    assert Actions(op)[0] == Append(resolution) && Actions(op)[1] == Append(MessageEntry(m));
    WrittenResult(w, v, m);
    forall i | IsNew(w, v, i) ensures v.trace[i].requestId != r.id {
      if v.trace[i].requestId == r.id {
        RunIsOfOp(w, ops, op, i);
        RunsNamed(op, v.trace[i]);
      }
    }
  }

  lemma AnsweredMeans(w: World, ops: seq<Operation>, op: Operation)
    requires Plan(w, ops) && op in ops && op.Answer?
    ensures WasAnswered(w, PerformAll(w, ops), op.request, op.resolvedBy, op.text)
  {
    hide Inv, PerformAll, Executes, Wrote, HasExecution, Requests, ResolvedIds, WellFormed, Approvals, MessagesOf,
      ResultMap, IsPending;
    PlanFacts(w, ops, op);
    var v, r := PerformAll(w, ops), op.request;
    var m := ToolResultMessage(r.toolCallId, r.toolName, [TextBlock(op.text)], NO_DETAILS, false);
    assert Actions(op)[0] == Append(Resolution(r, Approved, op.resolvedBy, None))
           && Actions(op)[1] == Append(MessageEntry(m));
    WrittenResult(w, v, m);
    forall i | IsNew(w, v, i) ensures v.trace[i].requestId != r.id {
      if v.trace[i].requestId == r.id {
        RunIsOfOp(w, ops, op, i);
        RunsNamed(op, v.trace[i]);
      }
    }
  }

  lemma {:induction false} ResultIn(log: Log, toolCallId: string) returns (p: nat)
    requires HasResult(log, toolCallId)
    ensures p < |log| && log[p].MessageEntry?
    ensures log[p].message.ToolResultMessage? && log[p].message.toolCallId == toolCallId
  {
    hide ResultMap, MessagesOf;
    NothingLogged();
    var init, last := log[..|log| - 1], log[|log| - 1];
    assert init + [last] == log;
    AppendMessages(init, last);
    if last.MessageEntry? { ResultMapAppend(MessagesOf(init), last.message); }
    if HasResult(init, toolCallId) { p := ResultIn(init, toolCallId); } else { p := |log| - 1; }
  }

  lemma NothingLogged()
    ensures MessagesOf([]) == [] && ResultMap([]) == map[]
  {
  }

  lemma ResultsNamed(log: Log, op: Operation, e: Entry)
    requires Resolves(op) && Enabled(log, op) && Append(e) in Actions(op) && e.MessageEntry?
             && e.message.ToolResultMessage?
    ensures e.message.toolCallId == op.request.toolCallId && !Escapes(op)
  {
    hide ExecuteTool;
  }

  /** A result behind a plan is of the operation whose request parked the call. */
  lemma ResultIsOfOp(w: World, ops: seq<Operation>, op: Operation)
    requires Plan(w, ops) && op in ops && HasResult(PerformAll(w, ops).log, op.request.toolCallId)
    ensures !Escapes(op)
  {
    hide Inv, PerformAll, Actions, Executes, Wrote, HasExecution, Requests, ResolvedIds, WellFormed, RequestIdOf,
      ResultMap, MessagesOf, Escapes, IsPending;
    PlanFacts(w, ops, op);
    var v, r := PerformAll(w, ops), op.request;
    PendingUnanswered(w.log, r);
    var p := ResultIn(v.log, r.toolCallId);
    if p < |w.log| {
      OnlyResult(w.log, p);
    } else {
      assert OfSome(ops, Append(v.log[p]));
      var o :| o in ops && Append(v.log[p]) in Actions(o);
      PlanFacts(w, ops, o);
      var i :| 0 <= i < |ops| && ops[i] == o;
      assert Enabled(w.log, ops[i]);
      ResultsNamed(w.log, o, v.log[p]);
      PendingOnce(w.log, o.request, r);
      OneOpEach(ops, o, op);
    }
  }

  lemma PendingOnce(log: Log, a: PendingInputRequest, b: PendingInputRequest)
    requires WellFormed(log) && IsPending(log, a) && IsPending(log, b) && a.toolCallId == b.toolCallId
    ensures a == b
  {
    hide WellFormed;
    ParkedOnce(log, a.id, b.id);
  }

  lemma ApproveActions(op: Operation)
    requires op.Approve? && op.tool.executor.Some?
    ensures Append(Resolution(op.request, Approved, op.resolvedBy, op.note)) in Actions(op)
    ensures Append(Start(op.request)) in Actions(op) && HasExecution(op)
    ensures Escapes(op) <==> op.tool.executor.value(op.call).Parked?
    ensures !Escapes(op) ==>
              var x := ExecuteTool(op.tool, op.call, op.limit);
              Append(MessageEntry(ResultMessage(op.request.toolCallId, op.request.toolName, x.result,
                                                x.isError))) in Actions(op)
  {
    hide ExecuteTool;
    var acts := Actions(op);
    assert acts[0] == Append(Resolution(op.request, Approved, op.resolvedBy, op.note))
           && acts[1] == Append(Start(op.request));
    assert acts[2].Execute?;
    ExecutionShows(op.tool, op.call, op.limit, op.request.toolCallId, op.request.toolName);
    if !Escapes(op) { assert acts[3] in acts; }
  }

  lemma OnlyRun(v: World, i: int, j: int)
    requires Inv(v) && 0 <= i < |v.trace| && 0 <= j < |v.trace| && v.trace[i].requestId == v.trace[j].requestId
    requires !v.trace[i].recovery && !v.trace[j].recovery
    ensures i == j
  {
    hide Inv;
    if i < j { LaterRunsAreRecoveries(v, i, j); }
    if j < i { LaterRunsAreRecoveries(v, j, i); }
  }

  lemma RunMeans(w: World, ops: seq<Operation>, op: Operation)
    requires Plan(w, ops) && op in ops && op.Approve? && op.tool.executor.Some?
    ensures WasRun(w, PerformAll(w, ops), op.request, op.resolvedBy, op.note, op.tool, op.call, op.limit)
  {
    hide Inv, PerformAll, Actions, Executes, Wrote, HasExecution, Requests, ResolvedIds, WellFormed, Approvals,
      MessagesOf, ResultMap, IsPending, ExecuteTool, ShowsOutcome, Escapes;
    PlanFacts(w, ops, op);
    ApproveActions(op);
    var v, r := PerformAll(w, ops), op.request;
    assert RanOp(w, v, op);
    var i :| IsNew(w, v, i) && Executes(op, v.trace[i]);
    RunsNamed(op, v.trace[i]);
    forall j | IsNew(w, v, j) && v.trace[j].requestId == r.id ensures j == i {
      RunIsOfOp(w, ops, op, j);
      RunsNamed(op, v.trace[j]);
      OnlyRun(v, i, j);
    }
    assert FirstRunOf(w, v, r, op.tool, i);
    ExecutionShows(op.tool, op.call, op.limit, r.toolCallId, r.toolName);
    if Escapes(op) {
      if HasResult(v.log, r.toolCallId) { ResultIsOfOp(w, ops, op); }
    } else {
      var x := ExecuteTool(op.tool, op.call, op.limit);
      WrittenResult(w, v, ResultMessage(r.toolCallId, r.toolName, x.result, x.isError));
    }
  }

  /** A pending request that none of the operations is for stays as it was. */
  lemma StaysMeans(w: World, ops: seq<Operation>, r: PendingInputRequest)
    requires Plan(w, ops) && IsPending(w.log, r) && forall op :: op in ops ==> RequestIdOf(op) != r.id
    ensures StaysPending(w, PerformAll(w, ops), r)
  {
    hide Inv, PerformAll, Actions, Executes, Wrote, HasExecution, WellFormed, MessagesOf, ResultMap, RequestIdOf,
      Resolves, InTurn, RequestOrder, Requests, ResolvedIds;
    SettleAll(w, ops);
    OpsMake(w, ops);
    var v := PerformAll(w, ops);
    InvLogs(v);
    PendingUnanswered(v.log, r);
    forall i | IsNew(w, v, i) ensures v.trace[i].requestId != r.id {
      assert RunOfSome(ops, v.trace[i]);
      var o :| o in ops && Executes(o, v.trace[i]);
      OneOpEach(ops, o, o);
      RunsNamed(o, v.trace[i]);
    }
  }
}
