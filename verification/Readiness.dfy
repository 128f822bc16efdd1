/** When a parked session may continue, and what a crash does to that. */
module Readiness {
  import opened Messages
  import opened Events
  import opened Tools
  import opened RepairCanonical
  import opened SessionLog
  import opened Protocol
  import opened ProtocolSafety
  import opened ResumePlan
  import opened Settlement

  ghost predicate Awaited(log: Log, toolCallId: string) {
    exists r :: IsPending(log, r) && r.toolCallId == toolCallId
  }

  /** Each call of the last assistant message with calls has its result or a
      pending request, never both and never neither. */
  ghost predicate Partitioned(log: Log) {
    forall c :: c in LastCalls(MessagesOf(log)) ==> (HasResult(log, c.id) <==> !Awaited(log, c.id))
  }

  /** A partitioned session is ready exactly when nothing is pending. */
  lemma ReadyIffNonePending(log: Log)
    requires Partitioned(log)
    ensures ReadyToContinue(log) <==> Pending(log) == []
  {
    if Pending(log) == [] {
      forall r ensures !IsPending(log, r) { PendingIff(log, r); }
    }
  }

  lemma {:induction false} LastCallsOfResults(ms: seq<AgentMessage>, rs: seq<AgentMessage>)
    requires forall r :: r in rs ==> r.ToolResultMessage?
    ensures LastCalls(ms + rs) == LastCalls(ms)
  {
    if rs == [] {
      assert ms + rs == ms;
    } else {
      var init, last := rs[..|rs| - 1], rs[|rs| - 1];
      assert (ms + rs)[..|ms + rs| - 1] == ms + init;
      LastCallsOfResults(ms, init);
      assert last in rs && CallsOf(last) == [];
    }
  }

  /** Settling moves a call from the pending side of the partition to the answered side. */
  lemma PartitionKept(w: World, ops: seq<Operation>)
    requires Inv(w) && DistinctRequests(ops) && AllEnabled(w.log, ops) && AllRunnable(ops) && Partitioned(w.log)
    ensures Partitioned(PerformAll(w, ops).log)
  {
    hide Inv, PerformAll, Requests, ResolvedIds, RequestOrder, MessagesOf, ResultMap, Enabled, LastCalls, AllEnabled,
      DistinctRequests, AllRunnable, WellFormed, IsPending;
    var log, after, rs := w.log, PerformAll(w, ops).log, ResultsOfAll(ops);
    SettleAll(w, ops);
    SettleAllMessages(w, ops);
    assert WellFormed(log) by { InvLog(w); }
    ResultIdsDistinct(log, ops);
    LastCallsOfResults(MessagesOf(log), rs);
    forall c | c in LastCalls(MessagesOf(after)) ensures HasResult(after, c.id) <==> !Awaited(after, c.id) {
      ResultMapOfResults(MessagesOf(log), rs, c.id);
      AwaitedAfter(w, ops, c.id);
    }
  }

  /** Each operation's request is pending, and its result answers the request's call. */
  ghost predicate AnswersPending(log: Log, op: Operation, r: AgentMessage) {
    && Resolves(op) && IsPending(log, op.request) && RequestIdOf(op) == op.request.id
    && r.ToolResultMessage? && r.toolCallId == op.request.toolCallId
  }

  lemma AllAnswerPending(log: Log, ops: seq<Operation>)
    requires AllEnabled(log, ops) && AllRunnable(ops)
    ensures forall i :: 0 <= i < |ops| ==> AnswersPending(log, ops[i], ResultsOfAll(ops)[i])
  {
    hide Enabled, ResultOf, IsPending, RequestIdOf;
    forall i | 0 <= i < |ops| ensures AnswersPending(log, ops[i], ResultsOfAll(ops)[i]) {
      EnabledMeansPending(log, ops[i]);
      ResultAnswersRequest(log, ops[i]);
    }
  }

  /** After settling, a call is awaited if it was and none of the results is its own. */
  lemma AwaitedAfter(w: World, ops: seq<Operation>, id: string)
    requires Inv(w) && DistinctRequests(ops) && AllEnabled(w.log, ops) && AllRunnable(ops)
    requires Requests(PerformAll(w, ops).log) == Requests(w.log)
    requires ResolvedIds(PerformAll(w, ops).log) == ResolvedIds(w.log) + SettledIds(ops)
    ensures Awaited(PerformAll(w, ops).log, id) <==> Awaited(w.log, id) && !exists r ::
              r in ResultsOfAll(ops) && r.toolCallId == id
    ensures (exists r :: r in ResultsOfAll(ops) && r.toolCallId == id) ==> Awaited(w.log, id)
  {
    hide Inv, PerformAll, Requests, ResolvedIds, AllEnabled, ResultOf, WellFormed, RequestIdOf, DistinctRequests,
      Runnable;
    var log, after, rs := w.log, PerformAll(w, ops).log, ResultsOfAll(ops);
    assert WellFormed(log) by { InvLog(w); }
    AllAnswerPending(log, ops);
    assert forall i :: 0 <= i < |ops| ==> AnswersPending(log, ops[i], rs[i]);
    if Awaited(log, id) && !exists r :: r in rs && r.toolCallId == id {
      var q :| IsPending(log, q) && q.toolCallId == id;
      forall op | op in ops ensures RequestIdOf(op) != q.id {
        var i :| 0 <= i < |ops| && ops[i] == op;
        assert rs[i] in rs;
      }
      assert IsPending(after, q);
    }
    forall r | r in rs ensures r.ToolResultMessage?
      && (r.toolCallId == id ==> Awaited(log, id) && !Awaited(after, id)) {
      var i :| 0 <= i < |rs| && rs[i] == r;
      assert RequestIdOf(ops[i]) in SettledIds(ops);
      if r.toolCallId == id { SettledNotAwaited(log, after, ops[i].request, id); }
    }
    if Awaited(after, id) {
      var q :| IsPending(after, q) && q.toolCallId == id;
      assert IsPending(log, q);
    }
  }

  lemma SettledNotAwaited(log: Log, after: Log, r: PendingInputRequest, id: string)
    requires WellFormed(log) && IsPending(log, r) && r.toolCallId == id
    requires Requests(after) == Requests(log) && ResolvedIds(log) <= ResolvedIds(after) && r.id in ResolvedIds(after)
    ensures Awaited(log, id) && !Awaited(after, id)
  {
    hide WellFormed;
    forall q | IsPending(after, q) ensures q.toolCallId != id {
      if q.toolCallId == id { ParkedOnce(log, q.id, r.id); }
    }
  }

  lemma ResultAnswersRequest(log: Log, op: Operation)
    requires Runnable(op) && Enabled(log, op)
    ensures ResultOf(op).ToolResultMessage? && ResultOf(op).toolCallId == op.request.toolCallId
  {
  }

  /** Once every pending request has been settled, without a crash, the session is ready. */
  lemma SettlingAllMakesReady(w: World, ops: seq<Operation>)
    requires Inv(w) && DistinctRequests(ops) && AllEnabled(w.log, ops) && AllRunnable(ops) && Partitioned(w.log)
    requires forall r :: r in Pending(w.log) ==> exists op :: op in ops && RequestIdOf(op) == r.id
    ensures ReadyToContinue(PerformAll(w, ops).log)
  {
    hide Inv, PerformAll, Requests, ResolvedIds, RequestOrder, MessagesOf, Enabled, AllEnabled, DistinctRequests,
      AllRunnable, Partitioned, ReadyToContinue, Pending;
    var after := PerformAll(w, ops).log;
    PartitionKept(w, ops);
    SettleAll(w, ops);
    ReadyIffNonePending(after);
    forall r | r in Pending(w.log) ensures r.id in SettledIds(ops) {
      var op :| op in ops && RequestIdOf(op) == r.id;
    }
    forall r ensures r !in Pending(after) {
      PendingIff(after, r);
      PendingIff(w.log, r);
    }
    NoneMeansEmpty(Pending(after));
  }

  lemma NoneMeansEmpty(rs: seq<PendingInputRequest>)
    ensures (forall r :: r !in rs) <==> rs == []
  {
    if rs != [] { assert rs[0] in rs; }
  }

  // ------------------------------------------------------------------ crashes

  /** A settling operation that crashes right after recording the decision strands its
      call: the request is no longer pending, there is no crash window to repair, and
      the session is not ready. */
  lemma DecisionWithoutResultStrands(w: World, op: Operation)
    requires Inv(w) && Resolves(op) && Enabled(w.log, op)
    requires exists c :: c in LastCalls(MessagesOf(w.log)) && c.id == op.request.toolCallId
    ensures var log := ActUpTo(w, Actions(op), 1).log;
            && !IsPending(log, op.request) && !IsWindow(log, op.request.id) && !ReadyToContinue(log)
  {
    hide ResultMap, LastCalls, Legal, WellFormed, TraceJustified, ExecuteTool;
    var e := Actions(op)[0].entry;
    assert ActUpTo(w, Actions(op), 0) == w;
    assert ActUpTo(w, Actions(op), 1).log == w.log + [e];
    EnabledMeansPending(w.log, op);
    PendingUnanswered(w.log, op.request);
    PendingNotWindow(w.log, op.request);
    AppendDerived(w.log, e);
    ResolutionLegal(w.log, op.request, e.resolution.decision, e.resolution.resolvedBy, e.resolution.reason);
    WindowsAfterAppend(w.log, e, op.request.id);
  }

  /** The same crash one action later is exactly what repair can see; completing the
      operation leaves nothing behind. */
  lemma OnlyStartedApprovalsAreRepairable(w: World, op: Operation, n: nat)
    requires Inv(w) && op.Approve? && Enabled(w.log, op) && 1 <= n <= |Actions(op)|
    requires exists c :: c in LastCalls(MessagesOf(w.log)) && c.id == op.request.toolCallId
    ensures var log := ActUpTo(w, Actions(op), n).log;
            && !IsPending(log, op.request)
            && (HasResult(log, op.request.toolCallId) <==> n == 4)
            && (IsWindow(log, op.request.id) <==> 2 <= n < 4)
            && (n < 4 ==> !ReadyToContinue(log))
  {
    hide ResultMap, LastCalls, Legal, Inv, ExecuteTool, IsWindow, WellFormed, Requests, ResolvedIds, MessagesOf;
    var acts := Actions(op);
    ApprovalWindow(w, op, n);
    EnabledMeansPending(w.log, op);
    assert WellFormed(w.log) by { InvLog(w); }
    PendingUnanswered(w.log, op.request);
    ApprovalProgress(w, op, 1);
    ApprovalProgress(w, op, n);
  }

  lemma {:induction false} ApprovalProgress(w: World, op: Operation, n: nat)
    requires op.Approve? && Enabled(w.log, op) && 1 <= n <= |Actions(op)|
    ensures var log := ActUpTo(w, Actions(op), n).log;
            && op.request.id in ResolvedIds(log)
            && (n < 4 ==> MessagesOf(log) == MessagesOf(w.log))
            && (n == 4 ==> HasResult(log, op.request.toolCallId))
  {
    hide ExecuteTool, ResolvedIds, MessagesOf, Requests, RequestOrder;
    var acts := Actions(op);
    var v := ActUpTo(w, acts, n - 1);
    assert ActUpTo(w, acts, n) == Act(v, acts[n - 1]);
    if n > 1 { ApprovalProgress(w, op, n - 1); } else { assert v == w; }
    if acts[n - 1].Append? {
      AppendDerived(v.log, acts[n - 1].entry);
      if n == 4 { ResultMapAppend(MessagesOf(v.log), acts[3].entry.message); }
    }
  }
}
