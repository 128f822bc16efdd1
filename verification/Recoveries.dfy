/** What crash repair does to each window: it runs what the model asked for, and only what
    may be run again; and what an operator's skip does. */
module Recoveries {
  import opened Messages
  import opened Events
  import opened Tools
  import opened ToolHistory
  import opened RepairCanonical
  import opened SessionLog
  import opened Protocol
  import opened ProtocolSafety
  import opened ResumePlan
  import opened Settlement
  import opened CrashRepair
  import opened Effects
  import opened Responses

  /** The call a window is about: the model's own, or an argument-less one when the
      transcript has none with its id. */
  ghost predicate IsCallAt(ms: seq<AgentMessage>, window: CrashWindow, c: ToolCall) {
    || (CallIn(ms, c) && c.id == window.toolCallId)
    || (c == ToolCall(window.toolCallId, window.toolName, Opaque("{}"))
        && forall d :: CallIn(ms, d) ==> d.id != window.toolCallId)
  }

  lemma OneCallAt(ms: seq<AgentMessage>, tools: map<string, AgentTool>, window: CrashWindow)
    requires FreshCalls(ms) && Rerunnable(tools, window)
    ensures forall c :: IsCallAt(ms, window, c) <==> c == Recovery(ms, tools, window).call
  {
    hide FreshCalls, FindToolCall, CallIn;
    FindsOwnCall(ms, window.toolCallId);
    FoundCall(ms, window.toolCallId);
  }

  /** The one new run, a recovery of an idempotent tool. */
  ghost predicate RecoveredOnce(before: World, after: World, window: CrashWindow, i: int) {
    && IsNew(before, after, i)
    && var run := after.trace[i];
       && run.requestId == window.requestId && run.toolCallId == window.toolCallId && run.toolName == window.toolName
       && run.idempotent && run.recovery
       && forall j :: IsNew(before, after, j) && after.trace[j].requestId == window.requestId ==> j == i
  }

  /** Run again on its call, once, and closed with the outcome. */
  ghost predicate WasRecovered(before: World, after: World, window: CrashWindow, tool: AgentTool)
    requires tool.executor.Some?
  {
    && window !in Windows(after.log) && (exists i :: RecoveredOnce(before, after, window, i))
    && HasResult(after.log, window.toolCallId)
    && (exists c :: IsCallAt(MessagesOf(before.log), window, c))
    && forall c :: IsCallAt(MessagesOf(before.log), window, c) ==>
         ShowsOutcome(ResultMap(MessagesOf(after.log))[window.toolCallId], window.toolCallId, window.toolName,
                      tool.executor.value(c), None)
  }

  ghost predicate WasLeft(before: World, after: World, window: CrashWindow) {
    window in Windows(after.log) && !RanFor(before, after, window.requestId) && !HasResult(after.log, window.toolCallId)
  }

  /** What a window gets: recovered if its tool is there and idempotent, else left. */
  ghost predicate WindowServed(before: World, after: World, window: CrashWindow, tools: map<string, AgentTool>,
                               report: RepairReport)
  {
    if window.toolName in tools && tools[window.toolName].idempotent && tools[window.toolName].executor.Some?
    then WasRecovered(before, after, window, tools[window.toolName]) && window in report.repaired
    else WasLeft(before, after, window) && window in report.needsOperator
  }

  // -------------------------------------------------------- the plan's parts

  lemma {:induction false} PlannedFor(ms: seq<AgentMessage>, tools: map<string, AgentTool>, ws: seq<CrashWindow>,
                                      n: nat)
    requires n <= |ws| && !PlanRepair(ms, tools, ws, n).escaped
    ensures var p := PlanRepair(ms, tools, ws, n);
            forall w :: w in ws[..n] ==>
              if Rerunnable(tools, w) then Planned(ms, tools, p.ops, w) && w in p.report.repaired
              else w in p.report.needsOperator
    ensures forall op :: op in PlanRepair(ms, tools, ws, n).ops ==> PlannedOp(ms, tools, ws, op)
  {
    hide Rerunnable, Recovery, FindToolCall, RerunEscapes;
    if n > 0 {
      PlannedFor(ms, tools, ws, n - 1);
      assert ws[..n] == ws[..n - 1] + [ws[n - 1]];
      assert ws[n - 1] in ws;
      var p, q := PlanRepair(ms, tools, ws, n - 1), PlanRepair(ms, tools, ws, n);
      assert forall w :: w in p.report.repaired ==> w in q.report.repaired;
      if Rerunnable(tools, ws[n - 1]) {
        RecoveryRuns(ms, tools, ws[n - 1]);
        assert PlannedOp(ms, tools, ws, Recovery(ms, tools, ws[n - 1]));
      }
    }
  }

  ghost predicate Planned(ms: seq<AgentMessage>, tools: map<string, AgentTool>, ops: seq<Operation>, w: CrashWindow) {
    Rerunnable(tools, w) && Recovery(ms, tools, w) in ops && !RerunEscapes(Recovery(ms, tools, w))
  }

  ghost predicate PlannedOp(ms: seq<AgentMessage>, tools: map<string, AgentTool>, ws: seq<CrashWindow>, op: Operation) {
    op.Rerun? && op.window in ws && Rerunnable(tools, op.window) && op == Recovery(ms, tools, op.window)
  }

  lemma RecoveryRuns(ms: seq<AgentMessage>, tools: map<string, AgentTool>, w: CrashWindow)
    requires Rerunnable(tools, w)
    ensures var op := Recovery(ms, tools, w); op.Rerun? && op.window == w && op.tool == tools[w.toolName]
  {
  }

  /** Each re-execution is one run, in order. */
  lemma {:induction false} RerunsTraced(w: World, ops: seq<Operation>)
    requires forall op :: op in ops ==> op.Rerun?
    ensures |PerformAll(w, ops).trace| == |w.trace| + |ops|
    ensures forall i :: 0 <= i < |ops| ==> Executes(ops[i], PerformAll(w, ops).trace[|w.trace| + i])
  {
    hide Actions, Executes;
    if ops != [] {
      var init, op := ops[..|ops| - 1], ops[|ops| - 1];
      assert op in ops && forall o :: o in init ==> o in ops;
      RerunsTraced(w, init);
      RerunTraced(PerformAll(w, init), op);
      assert forall i :: 0 <= i < |init| ==> ops[i] == init[i];
    }
  }

  lemma RerunTraced(v: World, op: Operation)
    requires op.Rerun?
    ensures var u := ActUpTo(v, Actions(op), |Actions(op)|);
            |u.trace| == |v.trace| + 1 && u.trace[..|v.trace|] == v.trace && Executes(op, u.trace[|v.trace|])
  {
    hide ExecuteTool;
    var acts := Actions(op);
    assert ActUpTo(v, acts, 0) == v && ActUpTo(v, acts, 1) == Act(v, acts[0]);
    assert ActUpTo(v, acts, 2) == Act(Act(v, acts[0]), acts[1]);
    if |acts| == 3 { assert ActUpTo(v, acts, 3) == Act(ActUpTo(v, acts, 2), acts[2]); }
    assert acts[1] in acts && Makes(acts[1], ActUpTo(v, acts, 2).trace[|v.trace|]);
  }

  lemma RerunNamed(op: Operation, run: Invocation)
    requires op.Rerun? && Executes(op, run)
    ensures run.requestId == op.window.requestId && run.toolCallId == op.window.toolCallId
    ensures run.toolName == op.window.toolName && run.idempotent == op.tool.idempotent && run.recovery
  {
    hide ExecuteTool;
  }

  lemma RerunWrites(op: Operation)
    requires op.Rerun? && op.tool.executor.Some? && !RerunEscapes(op)
    ensures var x := ExecuteTool(op.tool, op.call, None);
            && x.Finished?
            && Append(MessageEntry(ResultMessage(op.window.toolCallId, op.window.toolName, x.result,
                                                 x.isError))) in Actions(op)
  {
    hide ExecuteTool;
    assert Actions(op)[2] in Actions(op);
  }

  lemma OneWindowEach(log: Log, a: CrashWindow, b: CrashWindow)
    requires a in Windows(log) && b in Windows(log) && a.requestId == b.requestId
    ensures a == b
  {
    hide IsWindow, Windows;
    WindowsIff(log, a);
    WindowsIff(log, b);
  }

  // ------------------------------------------------------------- the service

  /** A completed repair: its operations, the windows they are of, and its log. */
  lemma RepairFacts(w: World, tools: map<string, AgentTool>)
    requires Inv(w) && !RepairOf(w.log, tools).escaped
    ensures var p := RepairOf(w.log, tools);
            var v := PerformAll(w, p.ops);
            && Inv(v) && WellFormed(v.log) && FreshCalls(MessagesOf(w.log)) && MadeBy(w, v, p.ops)
            && Windows(v.log) == p.report.needsOperator
            && (forall op :: op in p.ops ==> PlannedOp(MessagesOf(w.log), tools, Windows(w.log), op))
            && (forall window :: window in Windows(w.log) ==>
                  if Rerunnable(tools, window)
                  then Planned(MessagesOf(w.log), tools, p.ops, window) && window in p.report.repaired
                  else window in p.report.needsOperator)
            && |v.trace| == |w.trace| + |p.ops|
            && (forall i :: 0 <= i < |p.ops| ==> Executes(p.ops[i], v.trace[|w.trace| + i]))
  {
    hide Inv, Windows, PerformAll, MadeBy, WellFormed, FreshCalls, MessagesOf, Rerunnable, PlanRepair, Planned,
      Executes;
    var p, ws := RepairOf(w.log, tools), Windows(w.log);
    RepairLeavesReported(w, tools);
    PlannedFor(MessagesOf(w.log), tools, ws, |ws|);
    assert ws[..|ws|] == ws;
    OpsMake(w, p.ops);
    RerunsTraced(w, p.ops);
    LogCalls(w);
    InvLogs(PerformAll(w, p.ops));
  }

  lemma InvLogs(w: World)
    requires Inv(w)
    ensures WellFormed(w.log)
  {
  }

  /** No call is run again twice. */
  lemma DifferentOps(w: World, tools: map<string, AgentTool>, i: nat, j: nat)
    requires Inv(w) && i < j < |RepairOf(w.log, tools).ops|
    ensures RepairOf(w.log, tools).ops[i] != RepairOf(w.log, tools).ops[j]
  {
    hide Inv, RepairOf, PerformAll, Windows, Progressed;
    RepairReaches(w, tools, j);
    var ops := RepairOf(w.log, tools).ops;
    assert ops[..j][i] == ops[i] && ops[i] in ops[..j];
  }

  lemma RunsOfWindow(w: World, tools: map<string, AgentTool>, window: CrashWindow, i: int)
    returns (k: nat)
    requires Inv(w) && window in Windows(w.log) && !RepairOf(w.log, tools).escaped
    requires var v := PerformAll(w, RepairOf(w.log, tools).ops);
             IsNew(w, v, i) && v.trace[i].requestId == window.requestId
    ensures Rerunnable(tools, window) && i == |w.trace| + k && k < |RepairOf(w.log, tools).ops|
    ensures RepairOf(w.log, tools).ops[k] == Recovery(MessagesOf(w.log), tools, window)
  {
    hide Inv, Windows, PerformAll, MadeBy, WellFormed, FreshCalls, MessagesOf, Rerunnable, RepairOf, Planned, Executes,
      Recovery;
    RepairFacts(w, tools);
    var ops, v := RepairOf(w.log, tools).ops, PerformAll(w, RepairOf(w.log, tools).ops);
    k := i - |w.trace|;
    assert ops[k] in ops && Executes(ops[k], v.trace[|w.trace| + k]);
    RerunNamed(ops[k], v.trace[i]);
    OneWindowEach(w.log, ops[k].window, window);
  }

  lemma RecoveryServed(w: World, tools: map<string, AgentTool>, window: CrashWindow)
    requires Inv(w) && window in Windows(w.log) && !RepairOf(w.log, tools).escaped && Rerunnable(tools, window)
    ensures WasRecovered(w, PerformAll(w, RepairOf(w.log, tools).ops), window, tools[window.toolName])
  {
    hide Inv, Windows, PerformAll, MadeBy, WellFormed, FreshCalls, MessagesOf, RepairOf, Executes, ShowsOutcome,
      ResultMap, IsCallAt, RerunEscapes, ExecuteTool;
    RepairFacts(w, tools);
    var ms, ops, tool := MessagesOf(w.log), RepairOf(w.log, tools).ops, tools[window.toolName];
    var v, op := PerformAll(w, ops), Recovery(ms, tools, window);
    assert Planned(ms, tools, ops, window);
    RecoveryRuns(ms, tools, window);
    RerunWrites(op);
    var x := ExecuteTool(tool, op.call, None);
    var m := ResultMessage(window.toolCallId, window.toolName, x.result, x.isError);
    RecoveryWritten(w, v, ops, op, m);
    ExecutionShows(tool, op.call, None, window.toolCallId, window.toolName);
    OneCallAt(ms, tools, window);
    assert IsCallAt(ms, window, op.call);
    ClosedByResult(v.log, window);
    var k :| 0 <= k < |ops| && ops[k] == op;
    RerunNamed(op, v.trace[|w.trace| + k]);
    forall j | IsNew(w, v, j) && v.trace[j].requestId == window.requestId ensures j == |w.trace| + k {
      var l := RunsOfWindow(w, tools, window, j);
      if l < k { DifferentOps(w, tools, l, k); }
      if k < l { DifferentOps(w, tools, k, l); }
    }
    assert RecoveredOnce(w, v, window, |w.trace| + k);
  }

  lemma RecoveryWritten(w: World, v: World, ops: seq<Operation>, op: Operation, m: AgentMessage)
    requires MadeBy(w, v, ops) && op in ops && Append(MessageEntry(m)) in Actions(op) && m.ToolResultMessage?
             && WellFormed(v.log)
    ensures HasResult(v.log, m.toolCallId) && ResultMap(MessagesOf(v.log))[m.toolCallId] == m
  {
    hide Actions, WellFormed, Wrote, ResultMap, MessagesOf;
    assert OfSome(ops, Append(MessageEntry(m)));
    WrittenResult(w, v, m);
  }

  lemma ClosedByResult(log: Log, window: CrashWindow)
    requires HasResult(log, window.toolCallId)
    ensures window !in Windows(log)
  {
    hide Windows;
    WindowsIff(log, window);
  }

  lemma OpenMeans(log: Log, window: CrashWindow)
    requires window in Windows(log)
    ensures !HasResult(log, window.toolCallId)
  {
    hide Windows;
    WindowsIff(log, window);
  }

  /** Every window is served: a tool that is still there and idempotent runs again, once, on
      the call the model made, and its outcome closes the window; any other is left. */
  lemma WindowsServed(w: World, tools: map<string, AgentTool>, window: CrashWindow)
    requires Inv(w) && window in Windows(w.log) && !RepairOf(w.log, tools).escaped
    ensures WindowServed(w, PerformAll(w, RepairOf(w.log, tools).ops), window, tools, RepairOf(w.log, tools).report)
  {
    hide Inv, Windows, PerformAll, MadeBy, WellFormed, FreshCalls, MessagesOf, RepairOf, Executes, WasRecovered,
      HasResult, Planned;
    RepairFacts(w, tools);
    var v := PerformAll(w, RepairOf(w.log, tools).ops);
    if Rerunnable(tools, window) {
      RecoveryServed(w, tools, window);
    } else {
      OpenMeans(v.log, window);
      forall i | IsNew(w, v, i) ensures v.trace[i].requestId != window.requestId {
        if v.trace[i].requestId == window.requestId { var _ := RunsOfWindow(w, tools, window, i); }
      }
    }
  }

  /** Nothing runs that is no window's. */
  lemma OnlyWindowsRun(w: World, tools: map<string, AgentTool>, i: int)
    requires Inv(w) && !RepairOf(w.log, tools).escaped && IsNew(w, PerformAll(w, RepairOf(w.log, tools).ops), i)
    ensures var run := PerformAll(w, RepairOf(w.log, tools).ops).trace[i];
            exists window :: window in Windows(w.log) && run.requestId == window.requestId
                             && window.toolName in tools && tools[window.toolName].idempotent
  {
    hide Inv, Windows, PerformAll, MadeBy, WellFormed, FreshCalls, MessagesOf, RepairOf, Planned, Executes, Recovery;
    RepairFacts(w, tools);
    var ops, v := RepairOf(w.log, tools).ops, PerformAll(w, RepairOf(w.log, tools).ops);
    var k := i - |w.trace|;
    assert ops[k] in ops && Executes(ops[k], v.trace[|w.trace| + k]);
    RerunNamed(ops[k], v.trace[i]);
  }

  /** Executors that never park let a repair come to its end. */
  lemma {:induction false} RepairEnds(ms: seq<AgentMessage>, tools: map<string, AgentTool>, ws: seq<CrashWindow>,
                                      n: nat)
    requires n <= |ws|
    requires forall name, call: ToolCall :: Available(tools, name) ==> !tools[name].executor.value(call).Parked?
    ensures !PlanRepair(ms, tools, ws, n).escaped
  {
    hide FindToolCall, ExecuteTool;
    if n > 0 {
      RepairEnds(ms, tools, ws, n - 1);
      if Rerunnable(tools, ws[n - 1]) {
        var op := Recovery(ms, tools, ws[n - 1]);
        assert Available(tools, ws[n - 1].toolName);
        ExecutionShows(op.tool, op.call, None, "", "");
      }
    }
  }

  /** An operator's skip runs nothing and closes its window with an error that says so. */
  lemma SkipServed(w: World, window: CrashWindow, actor: string, reason: string)
    requires Inv(w) && window in Windows(w.log)
    ensures var op := Skip(window.toolCallId, StartedToolName(w.log, window.toolCallId), actor, reason);
            var v := PerformAll(w, [op]);
            && v.trace == w.trace && window !in Windows(v.log)
            && HasResultOf(v.log, ToolResultMessage(window.toolCallId, window.toolName,
                                                    [TextBlock("Operator skip by " + actor + ": " + reason)],
                                                      NO_DETAILS, true))
  {
    hide Inv, Windows, WellFormed, MessagesOf, ResultMap, HasResult;
    var op := Skip(window.toolCallId, StartedToolName(w.log, window.toolCallId), actor, reason);
    SkipsStarted(w, window);
    assert Enabled(w.log, op);
    assert [op][..0] == [] && PerformAll(w, [op]) == ActUpTo(w, Actions(op), 1);
    assert ActUpTo(w, Actions(op), 0) == w;
    OperationKeeps(w, op, 1);
    var v := PerformAll(w, [op]);
    InvLogs(v);
    OnlyResult(v.log, |w.log|);
    ClosedByResult(v.log, window);
  }

  /** The last start for a window's call names the window's tool. */
  lemma SkipsStarted(w: World, window: CrashWindow)
    requires Inv(w) && window in Windows(w.log)
    ensures StartedToolName(w.log, window.toolCallId) == window.toolName
  {
    hide Inv, Windows, WellFormed;
    InvLogs(w);
    WindowsIff(w.log, window);
    WellFormedReferences(w.log);
    StartNamed(w.log, window.requestId);
  }

  /** Every start for a call is of the one request that parked it. */
  lemma {:induction false} StartNamed(log: Log, id: string)
    requires WellFormed(log) && id in Starts(log) && id in Requests(log)
    ensures StartedToolName(log, Requests(log)[id].toolCallId) == Requests(log)[id].toolName
  {
    hide HasResult, ParkResolved, NeverParked;
    var init, last := log[..|log| - 1], log[|log| - 1];
    WellFormedReferences(log);
    WellFormedReferences(init);
    if last.StartedEntry? {
      if last.started.toolCallId == Requests(log)[id].toolCallId {
        assert Requests(init) == Requests(log);
        ParkedOnce(init, last.started.requestId, id);
      } else {
        StartNamed(init, id);
      }
    } else {
      StartNamed(init, id);
    }
  }
}
