/** Crash repair: it closes exactly the windows it may re-execute, reports exactly the
    rest, and a crash inside it loses nothing. */
module CrashRepair {
  import opened Messages
  import opened Events
  import opened Tools
  import opened RepairCanonical
  import opened SessionLog
  import opened Protocol
  import opened ProtocolSafety
  import opened ResumePlan

  ghost predicate DistinctWindows(ws: seq<CrashWindow>) {
    forall i, j :: 0 <= i < j < |ws| ==> ws[i].toolCallId != ws[j].toolCallId
  }

  lemma {:induction false} ApprovalOrderDistinct(log: Log)
    ensures forall i, j :: 0 <= i < j < |ApprovalOrder(log)| ==> ApprovalOrder(log)[i] != ApprovalOrder(log)[j]
  {
    if log != [] { ApprovalOrderDistinct(log[..|log| - 1]); }
  }

  lemma {:induction false} WindowsAmongDistinct(log: Log, ids: seq<string>)
    requires WellFormed(log)
    requires forall i, j :: 0 <= i < j < |ids| ==> ids[i] != ids[j]
    ensures DistinctWindows(WindowsAmong(log, ids))
  {
    hide WellFormed, HasResult;
    if ids != [] {
      var init, last := ids[..|ids| - 1], ids[|ids| - 1];
      WindowsAmongDistinct(log, init);
      var ws := WindowsAmong(log, init);
      WellFormedReferences(log);
      if IsWindow(log, last) {
        forall i | 0 <= i < |ws| ensures ws[i].toolCallId != Starts(log)[last].toolCallId {
          assert ws[i] in ws;
          WindowsAmongHas(log, init, ws[i]);
          var k :| 0 <= k < |init| && init[k] == ws[i].requestId;
          assert ids[k] != ids[|ids| - 1];
          if ws[i].toolCallId == Starts(log)[last].toolCallId { ParkedOnce(log, ws[i].requestId, last); }
        }
      }
    }
  }

  /** No two windows are for the same call. */
  lemma WindowsDistinct(log: Log)
    requires WellFormed(log)
    ensures DistinctWindows(Windows(log))
  {
    ApprovalOrderDistinct(log);
    WindowsAmongDistinct(log, ApprovalOrder(log));
  }

  // ---------------------------------------------- windows left after some closed

  /** The windows whose calls are not among those answered. */
  function Open(ws: seq<CrashWindow>, answered: set<string>): seq<CrashWindow> {
    if ws == [] then []
    else if ws[|ws| - 1].toolCallId in answered then Open(ws[..|ws| - 1], answered)
    else Open(ws[..|ws| - 1], answered) + [ws[|ws| - 1]]
  }

  /** A log that grew by starts for windows and results for some of their calls. */
  ghost predicate Progressed(log: Log, after: Log, answered: set<string>) {
    && Approvals(after) == Approvals(log) && ApprovalOrder(after) == ApprovalOrder(log)
    && Requests(after) == Requests(log) && Starts(after) == Starts(log)
    && (forall id :: HasResult(after, id) <==> HasResult(log, id) || id in answered)
  }

  lemma {:induction false} OpenAmong(log: Log, after: Log, answered: set<string>, ids: seq<string>)
    requires Progressed(log, after, answered)
    ensures WindowsAmong(after, ids) == Open(WindowsAmong(log, ids), answered)
  {
    hide HasResult, Requests, Approvals, ApprovalOrder, Starts;
    if ids != [] {
      OpenAmong(log, after, answered, ids[..|ids| - 1]);
    }
  }

  lemma OpenAfter(log: Log, after: Log, answered: set<string>)
    requires Progressed(log, after, answered)
    ensures Windows(after) == Open(Windows(log), answered)
  {
    OpenAmong(log, after, answered, ApprovalOrder(log));
  }

  lemma {:induction false} OpenHas(ws: seq<CrashWindow>, answered: set<string>, w: CrashWindow)
    ensures w in Open(ws, answered) <==> w in ws && w.toolCallId !in answered
  {
    if ws != [] {
      OpenHas(ws[..|ws| - 1], answered, w);
      assert w in ws <==> w in ws[..|ws| - 1] || w == ws[|ws| - 1];
    }
  }

  // ------------------------------------------------------------ one re-execution

  /** Re-executing one window, cut anywhere: its result closes it, anything less leaves it open. */
  lemma RerunProgress(w: World, op: Operation, n: nat)
    requires Inv(w) && op.Rerun? && Enabled(w.log, op) && n <= |Actions(op)|
    ensures Progressed(w.log, ActUpTo(w, Actions(op), n).log, if n == 3 then {op.window.toolCallId} else {})
    ensures MessagesOf(ActUpTo(w, Actions(op), n).log) == MessagesOf(w.log) || n == 3
  {
    hide ExecuteTool, Windows, ResultMap, MessagesOf, Requests, Approvals, ApprovalOrder, WellFormed, TraceJustified,
      FindToolCall;
    var acts := Actions(op);
    var w1 := Act(w, acts[0]);
    var w2 := Act(w1, acts[1]);
    assert ActUpTo(w, acts, 0) == w && ActUpTo(w, acts, 1) == w1;
    assert n >= 2 ==> ActUpTo(w, acts, 2) == Act(ActUpTo(w, acts, 1), acts[1]) == w2;
    StartAgain(w.log, op.window);
    if n == 3 {
      assert ActUpTo(w, acts, 3) == Act(ActUpTo(w, acts, 2), acts[2]);
      AppendResult(w1.log, acts[2].entry.message);
    }
  }

  /** ... and finds the model's calls where they were. */
  lemma {:induction false} RerunKeepsCalls(w: World, op: Operation, n: nat, id: string)
    requires op.Rerun? && n <= |Actions(op)|
    ensures FindToolCall(MessagesOf(ActUpTo(w, Actions(op), n).log), id) == FindToolCall(MessagesOf(w.log), id)
  {
    hide ExecuteTool, MessagesOf, FindToolCall;
    if n > 0 {
      RerunKeepsCalls(w, op, n - 1, id);
      var v, a := ActUpTo(w, Actions(op), n - 1), Actions(op)[n - 1];
      if a.Append? {
        AppendMessages(v.log, a.entry);
        if a.entry.MessageEntry? { AppendResult(v.log, a.entry.message); }
      }
    }
  }

  /** A second start for a window changes nothing that detection reads. */
  lemma StartAgain(log: Log, w: CrashWindow)
    requires WellFormed(log) && w in Windows(log)
    ensures var after := log + [StartedEntry(ExecutionStarted(w.requestId, w.toolCallId, w.toolName))];
            && Approvals(after) == Approvals(log) && ApprovalOrder(after) == ApprovalOrder(log)
            && Requests(after) == Requests(log) && Starts(after) == Starts(log) && MessagesOf(after) == MessagesOf(log)
  {
    hide WellFormed, HasResult;
    WindowsIff(log, w);
    WellFormedReferences(log);
    var e := StartedEntry(ExecutionStarted(w.requestId, w.toolCallId, w.toolName));
    assert (log + [e])[..|log|] == log;
  }

  lemma AppendResult(log: Log, m: AgentMessage)
    requires m.ToolResultMessage?
    ensures var after := log + [MessageEntry(m)];
            && Approvals(after) == Approvals(log) && ApprovalOrder(after) == ApprovalOrder(log)
            && Requests(after) == Requests(log) && Starts(after) == Starts(log)
            && (forall id :: HasResult(after, id) <==> HasResult(log, id) || id == m.toolCallId)
            && (forall id :: FindToolCall(MessagesOf(after), id) == FindToolCall(MessagesOf(log), id))
  {
    hide ResultMap;
    AppendMessages(log, MessageEntry(m));
    ResultMapAppend(MessagesOf(log), m);
    var ms := MessagesOf(log);
    assert (ms + [m])[..|ms|] == ms;
    assert CallsOf(m) == [];
  }

  lemma ProgressedTrans(a: Log, b: Log, c: Log, x: set<string>, y: set<string>)
    requires Progressed(a, b, x) && Progressed(b, c, y)
    ensures Progressed(a, c, x + y)
  {
    hide HasResult, Requests, Approvals, ApprovalOrder, Starts;
  }

  // ---------------------------------------------------------- the whole repair

  function CallIdsOf(ws: seq<CrashWindow>): set<string> { set w | w in ws :: w.toolCallId }

  /** The plan's operations are all enabled in turn, the invariant stands, and the
      windows answered are exactly those reported as repaired. */
  lemma {:induction false} RepairPrefix(w: World, tools: map<string, AgentTool>, n: nat)
    requires Inv(w) && n <= |Windows(w.log)|
    requires !PlanRepair(MessagesOf(w.log), tools, Windows(w.log), n).escaped
    ensures var p := PlanRepair(MessagesOf(w.log), tools, Windows(w.log), n);
            var v := PerformAll(w, p.ops);
            && Inv(v) && Progressed(w.log, v.log, CallIdsOf(p.report.repaired))
            && (forall r :: r in p.report.repaired ==> r in Windows(w.log)[..n])
            && p.report.needsOperator == Open(Windows(w.log)[..n], CallIdsOf(p.report.repaired))
  {
    hide Inv, Windows, Requests, Approvals, ApprovalOrder, Starts, MessagesOf, Progressed, Actions, ExecuteTool,
      Enabled, FindToolCall, HasResult;
    var ws := Windows(w.log);
    if n == 0 {
      assert Progressed(w.log, w.log, {}) by { ProgressedSelf(w.log); }
      assert CallIdsOf([]) == {} && PerformAll(w, []) == w;
    } else {
      RepairPrefix(w, tools, n - 1);
      var p := PlanRepair(MessagesOf(w.log), tools, ws, n - 1);
      var v, window := PerformAll(w, p.ops), ws[n - 1];
      assert ws[..n] == ws[..n - 1] + [window];
      assert DistinctWindows(ws) by { WindowsDistinctIn(w); }
      assert window.toolCallId !in CallIdsOf(p.report.repaired) by {
        forall r | r in p.report.repaired ensures r.toolCallId != window.toolCallId {
          var i :| 0 <= i < n - 1 && ws[..n - 1][i] == r;
          assert ws[i].toolCallId != ws[n - 1].toolCallId;
        }
      }
      if Rerunnable(tools, window) {
        var op := Recovery(MessagesOf(w.log), tools, window);
        RecoverUpTo(w, v, op, CallIdsOf(p.report.repaired), |Actions(op)|);
        assert (p.ops + [op])[..|p.ops|] == p.ops;
        var repaired := p.report.repaired + [window];
        assert CallIdsOf(repaired) == CallIdsOf(p.report.repaired) + {window.toolCallId};
        OpenUnaffected(ws[..n - 1], CallIdsOf(p.report.repaired), window.toolCallId, ws, n - 1);
      }
    }
  }

  lemma ProgressedSelf(log: Log)
    ensures Progressed(log, log, {})
  {
  }

  lemma WindowsDistinctIn(w: World)
    requires Inv(w)
    ensures DistinctWindows(Windows(w.log))
  {
    WindowsDistinct(w.log);
  }

  /** Re-executing the next window, cut anywhere. */
  lemma RecoverUpTo(w: World, v: World, op: Operation, answered: set<string>, n: nat)
    requires Inv(w) && Inv(v) && Progressed(w.log, v.log, answered) && n <= |Actions(op)|
    requires op.Rerun? && op.window in Windows(w.log) && op.window.toolCallId !in answered
    requires op.tool.idempotent && op.tool.executor.Some?
    ensures Enabled(v.log, op) && (!RerunEscapes(op) ==> |Actions(op)| == 3)
    ensures Inv(ActUpTo(v, Actions(op), n))
    ensures Progressed(w.log, ActUpTo(v, Actions(op), n).log, answered + if n == 3 then {op.window.toolCallId} else {})
  {
    hide Inv, Windows, Requests, Approvals, ApprovalOrder, Starts, MessagesOf, ExecuteTool, HasResult, Progressed;
    OpenAfter(w.log, v.log, answered);
    OpenHas(Windows(w.log), answered, op.window);
    OperationKeeps(v, op, n);
    RerunProgress(v, op, n);
    ProgressedTrans(w.log, v.log, ActUpTo(v, Actions(op), n).log, answered,
                    if n == 3 then {op.window.toolCallId} else {});
  }

  /** Closing a later window does not reopen or close the earlier ones. */
  lemma {:induction false} OpenUnaffected(ws: seq<CrashWindow>, answered: set<string>, id: string,
                                          all: seq<CrashWindow>, n: nat)
    requires n < |all| && DistinctWindows(all) && all[n].toolCallId == id && |ws| <= n && ws == all[..|ws|]
    ensures Open(ws, answered + {id}) == Open(ws, answered)
  {
    if ws != [] {
      assert ws[|ws| - 1] == all[|ws| - 1];
      assert all[|ws| - 1].toolCallId != all[n].toolCallId;
      OpenUnaffected(ws[..|ws| - 1], answered, id, all, n);
    }
  }

  /** After a completed repair, the windows that remain are exactly those reported for
      the operator, in the same order. */
  lemma RepairLeavesReported(w: World, tools: map<string, AgentTool>)
    requires Inv(w) && !RepairOf(w.log, tools).escaped
    ensures Windows(PerformAll(w, RepairOf(w.log, tools).ops).log) == RepairOf(w.log, tools).report.needsOperator
    ensures Inv(PerformAll(w, RepairOf(w.log, tools).ops))
  {
    hide Inv, Windows, PerformAll, Progressed;
    RepairPrefix(w, tools, |Windows(w.log)|);
    var p := RepairOf(w.log, tools);
    OpenAfter(w.log, PerformAll(w, p.ops).log, CallIdsOf(p.report.repaired));
    assert Windows(w.log)[..|Windows(w.log)|] == Windows(w.log);
  }

  // -------------------------------------------------- a repair cut off anywhere

  /** The calls these re-executions are of. */
  ghost function WindowIds(ops: seq<Operation>): set<string>
    requires forall op :: op in ops ==> op.Rerun?
  {
    set op | op in ops :: op.window.toolCallId
  }

  /** Every operation of a plan re-executes a window it names. */
  lemma {:induction false} PlannedAreReruns(ms: seq<AgentMessage>, tools: map<string, AgentTool>, ws: seq<CrashWindow>,
                                            n: nat)
    requires n <= |ws|
    ensures var p := PlanRepair(ms, tools, ws, n);
            && (forall op :: op in p.ops ==> op.Rerun?)
            && (!p.escaped ==> WindowIds(p.ops) == CallIdsOf(p.report.repaired))
  {
    hide Rerunnable, RerunEscapes, FindToolCall;
    if n > 0 {
      PlannedAreReruns(ms, tools, ws, n - 1);
      var p, q := PlanRepair(ms, tools, ws, n - 1), PlanRepair(ms, tools, ws, n);
      if !q.escaped && q.ops != p.ops {
        assert q.report.repaired == p.report.repaired + [ws[n - 1]] && q.ops[|p.ops|].window == ws[n - 1];
        assert CallIdsOf(q.report.repaired) == CallIdsOf(p.report.repaired) + {ws[n - 1].toolCallId};
        assert WindowIds(q.ops) == WindowIds(p.ops) + {ws[n - 1].toolCallId};
      }
    }
  }

  /** The k-th operation of a plan re-executes the n-th window, behind those before it. */
  lemma {:induction false} PlannedAt(ms: seq<AgentMessage>, tools: map<string, AgentTool>, ws: seq<CrashWindow>, m: nat,
                                     k: nat)
    returns (n: nat)
    requires m <= |ws| && k < |PlanRepair(ms, tools, ws, m).ops|
    ensures n < |ws| && !PlanRepair(ms, tools, ws, n).escaped
            && PlanRepair(ms, tools, ws, n).ops == PlanRepair(ms, tools, ws, m).ops[..k]
    ensures Rerunnable(tools, ws[n]) && PlanRepair(ms, tools, ws, m).ops[k] == Recovery(ms, tools, ws[n])
  {
    hide Rerunnable, RerunEscapes, Recovery;
    var p, q := PlanRepair(ms, tools, ws, m - 1), PlanRepair(ms, tools, ws, m);
    if k < |p.ops| {
      n := PlannedAt(ms, tools, ws, m - 1, k);
      assert q.ops[..k] == p.ops[..k];
    } else {
      n := m - 1;
      assert q.ops[..k] == p.ops;
    }
  }

  /** Before its k-th operation a repair has answered the calls re-executed so far, and
      the next window's is not among them. */
  lemma RepairReaches(w: World, tools: map<string, AgentTool>, k: nat)
    requires Inv(w) && k < |RepairOf(w.log, tools).ops|
    ensures var ops := RepairOf(w.log, tools).ops;
            && (forall op :: op in ops ==> op.Rerun?)
            && Inv(PerformAll(w, ops[..k])) && Progressed(w.log, PerformAll(w, ops[..k]).log, WindowIds(ops[..k]))
            && ops[k].window in Windows(w.log) && ops[k].window.toolCallId !in WindowIds(ops[..k])
            && ops[k].tool.idempotent && ops[k].tool.executor.Some?
  {
    hide Inv, Windows, Progressed, PerformAll, FindToolCall, RerunEscapes, WindowIds, PlanRepair;
    var ms, ws, ops := MessagesOf(w.log), Windows(w.log), RepairOf(w.log, tools).ops;
    PlannedAreReruns(ms, tools, ws, |ws|);
    var n := PlannedAt(ms, tools, ws, |ws|, k);
    RepairPrefix(w, tools, n);
    PlannedAreReruns(ms, tools, ws, n);
    assert DistinctWindows(ws) by { WindowsDistinctIn(w); }
    var p := PlanRepair(ms, tools, ws, n);
    forall r | r in p.report.repaired ensures r.toolCallId != ws[n].toolCallId {
      var i :| 0 <= i < n && ws[..n][i] == r;
      assert ws[i].toolCallId != ws[n].toolCallId;
    }
  }

  lemma OneMoreWindow(ops: seq<Operation>, k: nat)
    requires k < |ops| && forall op :: op in ops ==> op.Rerun?
    ensures WindowIds(ops[..k + 1]) == WindowIds(ops[..k]) + {ops[k].window.toolCallId}
  {
    assert ops[..k + 1] == ops[..k] + [ops[k]];
  }

  /** A repair cut off anywhere loses nothing: the windows are those of the log, in order,
      but for the ones whose result has been written. */
  lemma CrashInRepairDetectable(w: World, tools: map<string, AgentTool>, k: nat, cut: nat)
    requires Inv(w) && k < |RepairOf(w.log, tools).ops| && cut <= |Actions(RepairOf(w.log, tools).ops[k])|
    ensures var ops := RepairOf(w.log, tools).ops;
            var v := ActUpTo(PerformAll(w, ops[..k]), Actions(ops[k]), cut);
            && Inv(v) && (forall op :: op in ops ==> op.Rerun?)
            && Windows(v.log) == Open(Windows(w.log), WindowIds(ops[..if cut == 3 then k + 1 else k]))
  {
    hide Inv, Windows, Progressed, Actions, PerformAll, ActUpTo, RerunEscapes, WindowIds, RepairOf, Open;
    var ops := RepairOf(w.log, tools).ops;
    RepairReaches(w, tools, k);
    var v, op := PerformAll(w, ops[..k]), ops[k];
    RecoverUpTo(w, v, op, WindowIds(ops[..k]), cut);
    OneMoreWindow(ops, k);
    assert WindowIds(ops[..k]) + {} == WindowIds(ops[..k]);
    OpenAfter(w.log, ActUpTo(v, Actions(op), cut).log, WindowIds(ops[..if cut == 3 then k + 1 else k]));
  }
}
