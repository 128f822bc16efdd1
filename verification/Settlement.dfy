/** Settling parked requests: the plan of `resolve_inputs` is lawful, its effect does
    not depend on order or grouping, and it leaves the session ready. */
module Settlement {
  import opened Messages
  import opened Events
  import opened Tools
  import opened ToolHistory
  import opened RepairCanonical
  import opened SessionLog
  import opened Protocol
  import opened ResumePlan

  /** An operation that resolves a request and answers its call. */
  predicate Settles(op: Operation) {
    op.Deny? || op.Answer? || op.CompleteChild? || (op.Approve? && !Escapes(op))
  }

  predicate Resolves(op: Operation) {
    op.Deny? || op.Answer? || op.CompleteChild? || op.Approve?
  }

  /** The result message a settling operation appends. */
  function ResultOf(op: Operation): AgentMessage
    requires Runnable(op)
  {
    match op
    case Deny(r, _, reason) => ErrorText(r.toolCallId, r.toolName, "User denied: " + reason)
    case Answer(r, _, text) => ToolResultMessage(r.toolCallId, r.toolName, [TextBlock(text)], NO_DETAILS, false)
    case CompleteChild(_, _, result) => result
    case Approve(r, _, _, tool, call, limit) =>
      var done := ExecuteTool(tool, call, limit);
      ResultMessage(r.toolCallId, r.toolName, done.result, done.isError)
  }

  /** A settling operation with an executor to run, if it needs one. */
  predicate Runnable(op: Operation) {
    Settles(op) && (op.Approve? ==> op.tool.executor.Some?)
  }

  function RequestIdOf(op: Operation): string {
    match op
    case Deny(r, _, _) => r.id
    case Approve(r, _, _, _, _, _) => r.id
    case Answer(r, _, _) => r.id
    case CompleteChild(r, _, _) => r.id
    case _ => ""
  }

  // -------------------------------------------------------- one operation

  lemma AppendDerived(log: Log, e: Entry)
    requires !e.RequestedEntry?
    ensures Requests(log + [e]) == Requests(log) && RequestOrder(log + [e]) == RequestOrder(log)
    ensures ResolvedIds(log + [e]) == ResolvedIds(log) + (if e.ResolvedEntry? then {e.resolution.requestId} else {})
    ensures MessagesOf(log + [e]) == if e.MessageEntry? then MessagesOf(log) + [e.message] else MessagesOf(log)
  {
    assert (log + [e])[..|log|] == log;
  }

  /** What performing a resolving operation to its end does to the log's derived state. */
  lemma SettleEffect(w: World, op: Operation)
    requires Resolves(op) && Enabled(w.log, op)
    ensures var v := PerformAll(w, [op]);
            && Requests(v.log) == Requests(w.log) && RequestOrder(v.log) == RequestOrder(w.log)
            && ResolvedIds(v.log) == ResolvedIds(w.log) + {op.request.id}
            && (Settles(op) ==> MessagesOf(v.log) == MessagesOf(w.log) + [ResultOf(op)])
            && (!Settles(op) ==> MessagesOf(v.log) == MessagesOf(w.log))
  {
    hide ExecuteTool, Legal, Requests, RequestOrder, ResolvedIds, MessagesOf;
    var acts, n := Actions(op), |Actions(op)|;
    assert [op][..0] == [] && PerformAll(w, [op]) == ActUpTo(w, acts, n);
    var w1 := Act(w, acts[0]);
    var w2 := Act(w1, acts[1]);
    assert ActUpTo(w, acts, 0) == w && ActUpTo(w, acts, 1) == w1;
    assert ActUpTo(w, acts, 2) == Act(ActUpTo(w, acts, 1), acts[1]) == w2;
    AppendDerived(w.log, acts[0].entry);
    AppendDerived(w1.log, acts[1].entry);
    if op.Approve? {
      var w3 := Act(w2, acts[2]);
      assert ActUpTo(w, acts, 3) == Act(ActUpTo(w, acts, 2), acts[2]) == w3;
      if n == 4 {
        AppendDerived(w3.log, acts[3].entry);
        assert ActUpTo(w, acts, 4) == Act(ActUpTo(w, acts, 3), acts[3]);
      }
    }
  }

  // ------------------------------------------------------ many operations

  ghost predicate DistinctRequests(ops: seq<Operation>) {
    && (forall i :: 0 <= i < |ops| ==> Resolves(ops[i]))
    && (forall i, j :: 0 <= i < j < |ops| ==> RequestIdOf(ops[i]) != RequestIdOf(ops[j]))
  }

  ghost predicate AllEnabled(log: Log, ops: seq<Operation>) {
    forall i :: 0 <= i < |ops| ==> Enabled(log, ops[i])
  }

  ghost function SettledIds(ops: seq<Operation>): set<string> {
    set op | op in ops :: RequestIdOf(op)
  }

  ghost predicate AllRunnable(ops: seq<Operation>) {
    forall i :: 0 <= i < |ops| ==> Runnable(ops[i])
  }

  function ResultsOfAll(ops: seq<Operation>): (rs: seq<AgentMessage>)
    requires AllRunnable(ops)
    ensures |rs| == |ops| && forall i :: 0 <= i < |ops| ==> rs[i] == ResultOf(ops[i])
  {
    if ops == [] then [] else ResultsOfAll(ops[..|ops| - 1]) + [ResultOf(ops[|ops| - 1])]
  }

  /** Whether an operation stays enabled depends only on its request still being pending. */
  lemma StillEnabled(before: Log, after: Log, op: Operation)
    requires Resolves(op) && Enabled(before, op)
    requires Requests(after) == Requests(before) && RequestIdOf(op) !in ResolvedIds(after)
    ensures Enabled(after, op)
  {
  }

  lemma PerformLast(w: World, ops: seq<Operation>)
    requires ops != []
    ensures PerformAll(w, ops) == PerformAll(PerformAll(w, ops[..|ops| - 1]), [ops[|ops| - 1]])
  {
    assert ops == ops[..|ops| - 1] + [ops[|ops| - 1]];
    PerformConcat(w, ops[..|ops| - 1], [ops[|ops| - 1]]);
  }

  lemma OneKeeps(w: World, op: Operation)
    requires Inv(w) && Enabled(w.log, op)
    ensures Inv(PerformAll(w, [op]))
  {
    hide Inv, Enabled, Actions;
    assert [op][..0] == [];
    assert PerformAll(w, [op]) == ActUpTo(PerformAll(w, []), Actions(op), |Actions(op)|);
    OperationKeeps(w, op, |Actions(op)|);
  }

  /** Operations on different pending requests can be performed in sequence: each is
      still enabled in its turn, the invariant stands, and exactly their requests are resolved. */
  lemma {:induction false} SettleAll(w: World, ops: seq<Operation>)
    requires Inv(w) && DistinctRequests(ops) && AllEnabled(w.log, ops)
    ensures var v := PerformAll(w, ops);
            && Inv(v) && Requests(v.log) == Requests(w.log) && RequestOrder(v.log) == RequestOrder(w.log)
            && ResolvedIds(v.log) == ResolvedIds(w.log) + SettledIds(ops)
    ensures InTurn(w, ops)
  {
    hide Inv, Enabled, Settles, Requests, RequestOrder, ResolvedIds, MessagesOf, PerformAll;
    if ops == [] {
      assert PerformAll(w, ops) == w by { PerformNone(w); }
    } else {
      var init, op := ops[..|ops| - 1], ops[|ops| - 1];
      SettleAll(w, init);
      var u := PerformAll(w, init);
      assert op !in init && RequestIdOf(op) !in SettledIds(init);
      EnabledMeansPending(w.log, op);
      StillEnabled(w.log, u.log, op);
      PerformLast(w, ops);
      SettleEffect(u, op);
      OneKeeps(u, op);
      assert SettledIds(ops) == SettledIds(init) + {RequestIdOf(op)};
    }
  }

  lemma PerformNone(w: World)
    ensures PerformAll(w, []) == w
  {
  }

  /** ... and their results are appended in that order. */
  lemma {:induction false} SettleAllMessages(w: World, ops: seq<Operation>)
    requires Inv(w) && DistinctRequests(ops) && AllEnabled(w.log, ops) && AllRunnable(ops)
    ensures MessagesOf(PerformAll(w, ops).log) == MessagesOf(w.log) + ResultsOfAll(ops)
  {
    hide Inv, Enabled, Requests, RequestOrder, ResolvedIds, MessagesOf, PerformAll, ResultOf;
    if ops == [] {
      assert PerformAll(w, ops) == w by { PerformNone(w); }
    } else {
      var init, op := ops[..|ops| - 1], ops[|ops| - 1];
      SettleAllMessages(w, init);
      SettleAll(w, ops);
      PerformLast(w, ops);
      SettleEffect(PerformAll(w, init), op);
    }
  }

  lemma EnabledMeansPending(log: Log, op: Operation)
    requires Resolves(op) && Enabled(log, op)
    ensures IsPending(log, op.request) && RequestIdOf(op) == op.request.id
  {
  }

  /** Each operation is enabled when its turn comes. */
  ghost predicate InTurn(w: World, ops: seq<Operation>) {
    ops == [] || (InTurn(w, ops[..|ops| - 1]) && Enabled(PerformAll(w, ops[..|ops| - 1]).log, ops[|ops| - 1]))
  }

  // ----------------------------------------------------------- confluence

  /** A transcript extended by results for ids that had none: which results there
      are is all that matters, not their order. */
  lemma {:induction false} ResultMapOfResults(ms: seq<AgentMessage>, rs: seq<AgentMessage>, id: string)
    requires forall r :: r in rs ==> r.ToolResultMessage?
    requires forall i, j :: 0 <= i < j < |rs| ==> rs[i].toolCallId != rs[j].toolCallId
    ensures id in ResultMap(ms + rs) <==> (exists r :: r in rs && r.toolCallId == id) || id in ResultMap(ms)
    ensures forall r :: r in rs && r.toolCallId == id ==> id in ResultMap(ms + rs) && ResultMap(ms + rs)[id] == r
    ensures (forall r :: r in rs ==> r.toolCallId != id) && id in ResultMap(ms) ==>
              ResultMap(ms + rs)[id] == ResultMap(ms)[id]
  {
    if rs == [] {
      assert ms + rs == ms;
    } else {
      var init, last := rs[..|rs| - 1], rs[|rs| - 1];
      ResultMapOfResults(ms, init, id);
      assert ms + rs == (ms + init) + [last];
      ResultMapAppend(ms + init, last);
      assert forall r :: r in rs <==> r in init || r == last;
    }
  }

  lemma {:induction false} NonResultsOfResults(ms: seq<AgentMessage>, rs: seq<AgentMessage>)
    requires forall r :: r in rs ==> r.ToolResultMessage?
    ensures NonResults(ms + rs) == NonResults(ms)
  {
    if rs == [] {
      assert ms + rs == ms;
    } else {
      var init := rs[..|rs| - 1];
      assert (ms + rs)[..|ms + rs| - 1] == ms + init;
      NonResultsOfResults(ms, init);
    }
  }

  lemma SameViewFromSameResults(ms: seq<AgentMessage>, a: seq<AgentMessage>, b: seq<AgentMessage>)
    requires forall r :: r in a <==> r in b
    requires forall r :: r in a ==> r.ToolResultMessage?
    requires forall i, j :: 0 <= i < j < |a| ==> a[i].toolCallId != a[j].toolCallId
    requires forall i, j :: 0 <= i < j < |b| ==> b[i].toolCallId != b[j].toolCallId
    ensures ViewOf(ms + a) == ViewOf(ms + b)
  {
    hide ResultMap;
    NonResultsOfResults(ms, a);
    NonResultsOfResults(ms, b);
    forall id
      ensures id in ResultMap(ms + a) <==> id in ResultMap(ms + b)
      ensures id in ResultMap(ms + a) ==> ResultMap(ms + a)[id] == ResultMap(ms + b)[id]
    {
      ResultMapOfResults(ms, a, id);
      ResultMapOfResults(ms, b, id);
    }
    assert ResultMap(ms + a) == ResultMap(ms + b);
  }

  /** The same operations, in any order. */
  ghost predicate SameOps(a: seq<Operation>, b: seq<Operation>) {
    forall op :: op in a <==> op in b
  }

  lemma ResultIdsDistinct(log: Log, ops: seq<Operation>)
    requires WellFormed(log) && DistinctRequests(ops) && AllEnabled(log, ops) && AllRunnable(ops)
    ensures forall r :: r in ResultsOfAll(ops) ==> r.ToolResultMessage?
    ensures forall i, j :: 0 <= i < j < |ops| ==> ResultsOfAll(ops)[i].toolCallId != ResultsOfAll(ops)[j].toolCallId
  {
    hide WellFormed, ExecuteTool, Requests, ResolvedIds;
    forall i | 0 <= i < |ops|
      ensures ResultOf(ops[i]).ToolResultMessage? && ResultOf(ops[i]).toolCallId == ops[i].request.toolCallId {
      assert Enabled(log, ops[i]);
    }
    forall i, j | 0 <= i < j < |ops| ensures ops[i].request.toolCallId != ops[j].request.toolCallId {
      EnabledMeansPending(log, ops[i]);
      EnabledMeansPending(log, ops[j]);
      if ops[i].request.toolCallId == ops[j].request.toolCallId {
        ParkedOnce(log, ops[i].request.id, ops[j].request.id);
      }
    }
  }

  lemma ResultsSame(a: seq<Operation>, b: seq<Operation>)
    requires SameOps(a, b) && AllRunnable(a) && AllRunnable(b)
    ensures forall r :: r in ResultsOfAll(a) ==> r in ResultsOfAll(b)
  {
    hide ResultOf, Runnable;
    forall r | r in ResultsOfAll(a) ensures r in ResultsOfAll(b) {
      var i :| 0 <= i < |a| && ResultsOfAll(a)[i] == r;
      assert a[i] in a;
      var j :| 0 <= j < |b| && b[j] == a[i];
      assert ResultsOfAll(b)[j] == r;
    }
  }

  lemma SameOpsShare(log: Log, a: seq<Operation>, b: seq<Operation>)
    requires SameOps(a, b) && AllEnabled(log, a) && AllRunnable(a)
    ensures AllEnabled(log, b) && AllRunnable(b) && SettledIds(a) == SettledIds(b)
  {
    hide Enabled, Runnable, RequestIdOf;
    forall i | 0 <= i < |b| ensures Enabled(log, b[i]) && Runnable(b[i]) {
      assert b[i] in b;
      var j :| 0 <= j < |a| && a[j] == b[i];
    }
  }

  /** Settling the same parked requests in any order leaves the same pending
      requests, in the same order, and the same provider context. */
  lemma SettlementConfluent(w: World, a: seq<Operation>, b: seq<Operation>)
    requires Inv(w) && SameOps(a, b) && DistinctRequests(a) && DistinctRequests(b)
    requires AllEnabled(w.log, a) && AllRunnable(a)
    ensures Pending(PerformAll(w, a).log) == Pending(PerformAll(w, b).log)
    ensures ProviderContext(MessagesOf(PerformAll(w, a).log)) == ProviderContext(MessagesOf(PerformAll(w, b).log))
  {
    hide Enabled, WellFormed, PerformAll, TraceJustified, ProviderContext, ViewOf, AllEnabled, DistinctRequests,
      AllRunnable, SameOps, SettledIds, Requests, RequestOrder, ResolvedIds, MessagesOf, FreshCalls, SingleResults;
    SameOpsShare(w.log, a, b);
    SettleAll(w, a);
    SettleAll(w, b);
    SettleAllMessages(w, a);
    SettleAllMessages(w, b);
    ResultIdsDistinct(w.log, a);
    ResultIdsDistinct(w.log, b);
    ResultsSame(a, b);
    ResultsSame(b, a) by { SameOpsSymmetric(a, b); }
    SameViewFromSameResults(MessagesOf(w.log), ResultsOfAll(a), ResultsOfAll(b));
    WellFormedMessages(PerformAll(w, a).log);
    WellFormedMessages(PerformAll(w, b).log);
    ContextFromView(MessagesOf(PerformAll(w, a).log), MessagesOf(PerformAll(w, b).log));
  }

  lemma SameOpsSymmetric(a: seq<Operation>, b: seq<Operation>)
    requires SameOps(a, b)
    ensures SameOps(b, a)
  {
  }
}
