/** What the protocol guarantees on every history, crashes included: executors run
    at most once per approval, and crash windows are exactly the unanswered starts. */
module ProtocolSafety {
  import opened Messages
  import opened Events
  import opened Tools
  import opened RepairCanonical
  import opened SessionLog
  import opened Protocol

  // ------------------------------------------------------------ log positions

  lemma {:induction false} PrefixWellFormed(log: Log, n: nat)
    requires WellFormed(log) && n <= |log|
    ensures WellFormed(log[..n])
    ensures n < |log| ==> Legal(log[..n], log[n])
  {
    hide Legal;
    if n < |log| {
      var init := log[..|log| - 1];
      if n < |log| - 1 {
        PrefixWellFormed(init, n);
        assert init[..n] == log[..n];
      }
    } else {
      assert log[..n] == log;
    }
  }

  lemma {:induction false} ResolvedBefore(log: Log, n: nat, id: string)
    requires n <= |log| && id in ResolvedIds(log[..n])
    ensures id in ResolvedIds(log)
  {
    if n < |log| {
      assert log[..|log| - 1][..n] == log[..n];
      ResolvedBefore(log[..|log| - 1], n, id);
    } else {
      assert log[..n] == log;
    }
  }

  lemma ResolvedAt(log: Log, p: nat, n: nat)
    requires p < n <= |log| && log[p].ResolvedEntry?
    ensures log[p].resolution.requestId in ResolvedIds(log[..n])
  {
    var upTo := log[..p + 1];
    assert upTo[..p] == log[..p] && upTo[p] == log[p];
    assert log[..n][..p + 1] == upTo;
    ResolvedBefore(log[..n], p + 1, log[p].resolution.requestId);
  }

  /** A request is resolved at one place at most. */
  lemma ResolvedOnce(log: Log, p: nat, q: nat)
    requires WellFormed(log) && p < |log| && q < |log| && log[p].ResolvedEntry? && log[q].ResolvedEntry?
    requires log[p].resolution.requestId == log[q].resolution.requestId
    ensures p == q
  {
    hide WellFormed, ResolvedIds;
    PrefixWellFormed(log, p);
    PrefixWellFormed(log, q);
    if p < q {
      ResolvedAt(log, p, q);
    } else if q < p {
      ResolvedAt(log, q, p);
    }
  }

  lemma {:induction false} ApprovalIn(log: Log, id: string) returns (p: nat)
    requires id in Approvals(log)
    ensures p < |log| && IsApprovalOf(log[p], id)
  {
    var last := log[|log| - 1];
    if IsApprovalOf(last, id) {
      p := |log| - 1;
    } else {
      p := ApprovalIn(log[..|log| - 1], id);
    }
  }

  lemma {:induction false} RequestIn(log: Log, id: string) returns (p: nat)
    requires id in Requests(log)
    ensures p < |log| && log[p] == RequestedEntry(Requests(log)[id])
  {
    var last := log[|log| - 1];
    if last.RequestedEntry? && last.request.id == id {
      p := |log| - 1;
    } else {
      p := RequestIn(log[..|log| - 1], id);
    }
  }

  // -------------------------------------------------------- at most one first run

  /** Every run of an executor has, before it in the log, the tool-approval request
      for its call, then its only resolution, an approval, then its own start;
      and no result for the call. */
  ghost predicate Authorized(log: Log, i: Invocation, requested: nat, approved: nat) {
    && requested < approved < i.at - 1 < |log|
    && log[requested].RequestedEntry? && log[requested].request.id == i.requestId
    && log[requested].request.kind.ToolApproval? && log[requested].request.toolCallId == i.toolCallId
    && IsApprovalOf(log[approved], i.requestId)
    && (forall q :: 0 <= q < |log| && log[q].ResolvedEntry? && log[q].resolution.requestId == i.requestId ==>
         q == approved)
    && log[i.at - 1] == StartedEntry(ExecutionStarted(i.requestId, i.toolCallId, i.toolName))
    && !HasResult(log[..i.at], i.toolCallId)
  }

  lemma EveryRunAuthorized(w: World, i: nat) returns (requested: nat, approved: nat)
    requires Inv(w) && i < |w.trace|
    ensures Authorized(w.log, w.trace[i], requested, approved)
  {
    hide WellFormed, ResolvedIds, HasResult;
    var log, run := w.log, w.trace[i];
    assert Justified(log, run);
    var before := log[..run.at - 1];
    PrefixWellFormed(log, run.at - 1);
    approved := ApprovalIn(before, run.requestId);
    assert before[approved] == log[approved];
    PrefixWellFormed(log, approved);
    requested := RequestIn(log[..approved], run.requestId);
    assert log[..approved][requested] == log[requested];
    forall q | 0 <= q < |log| && log[q].ResolvedEntry? && log[q].resolution.requestId == run.requestId
      ensures q == approved {
      ResolvedOnce(log, q, approved);
    }
    var r := RequestIn(before, run.requestId);
    assert before[r] == log[r];
    RequestedOnce(log, requested, r);
  }

  lemma RequestedOnce(log: Log, p: nat, q: nat)
    requires WellFormed(log) && p < |log| && q < |log| && log[p].RequestedEntry? && log[q].RequestedEntry?
    requires log[p].request.id == log[q].request.id
    ensures p == q
  {
    hide WellFormed, Requests;
    PrefixWellFormed(log, p);
    PrefixWellFormed(log, q);
    if p < q {
      RequestedAt(log, p, q);
    } else if q < p {
      RequestedAt(log, q, p);
    }
  }

  lemma {:induction false} RequestedAt(log: Log, p: nat, n: nat)
    requires p < n <= |log| && log[p].RequestedEntry?
    ensures log[p].request.id in Requests(log[..n])
  {
    assert log[..n][..n - 1] == log[..n - 1];
    if p < n - 1 { RequestedAt(log, p, n - 1); }
  }

  /** Of two runs for one request, the later is a recovery of an idempotent tool,
      made while the call had no result. */
  lemma LaterRunsAreRecoveries(w: World, i: nat, j: nat)
    requires Inv(w) && i < j < |w.trace| && w.trace[i].requestId == w.trace[j].requestId
    ensures w.trace[j].recovery && w.trace[j].idempotent
    ensures w.trace[j].at <= |w.log| && !HasResult(w.log[..w.trace[j].at], w.trace[j].toolCallId)
  {
    hide WellFormed, HasResult;
    var first, later := w.trace[i], w.trace[j];
    var _, approved := EveryRunAuthorized(w, i);
    assert Justified(w.log, first) && Justified(w.log, later);
    assert first.at < later.at;
    assert !later.recovery ==> later.at - 2 < first.at - 1;
  }

  ghost predicate NeverIdempotent(w: World, requestId: string) {
    forall i :: 0 <= i < |w.trace| && w.trace[i].requestId == requestId ==> !w.trace[i].idempotent
  }

  ghost predicate RunsAtMostOnce(w: World, requestId: string) {
    forall i, j :: 0 <= i < j < |w.trace| && w.trace[i].requestId == requestId ==> w.trace[j].requestId != requestId
  }

  /** A tool that is never marked idempotent runs at most once per approval request. */
  lemma AtMostOnce(w: World, requestId: string)
    requires Inv(w) && NeverIdempotent(w, requestId)
    ensures RunsAtMostOnce(w, requestId)
  {
    hide Inv;
    forall i, j | 0 <= i < j < |w.trace| && w.trace[i].requestId == requestId
      ensures w.trace[j].requestId != requestId {
      if w.trace[j].requestId == requestId { LaterRunsAreRecoveries(w, i, j); }
    }
  }

  /** The same over any history of the protocol, crashes anywhere. */
  lemma AtMostOnceAcrossCrashes(steps: seq<Step>, requestId: string)
    requires Lawful(EMPTY, steps) && NeverIdempotent(History(EMPTY, steps), requestId)
    ensures RunsAtMostOnce(History(EMPTY, steps), requestId)
  {
    hide Lawful, History;
    HistoryKeeps(EMPTY, steps);
    AtMostOnce(History(EMPTY, steps), requestId);
  }

  // ---------------------------------------------------------- crash windows

  /** The window of an approved, started request whose call has no result. */
  ghost predicate Unfinished(log: Log, w: CrashWindow) {
    && w.requestId in Approvals(log) && w.requestId in Starts(log) && w.requestId in Requests(log)
    && w.toolCallId == Requests(log)[w.requestId].toolCallId
    && w.toolName == Requests(log)[w.requestId].toolName
    && !HasResult(log, w.toolCallId)
  }

  /** On a well-formed log detection returns precisely the approved, started, unanswered requests. */
  lemma WindowsExact(log: Log, w: CrashWindow)
    requires WellFormed(log)
    ensures w in Windows(log) <==> Unfinished(log, w)
    ensures w in Windows(log) ==> Requests(log)[w.requestId].kind.ToolApproval?
  {
    hide WellFormed, HasResult, Windows;
    WellFormedReferences(log);
    WindowsIff(log, w);
  }

  /** How one append changes the windows: a start opens its own, a result closes
      those of its call, and nothing else moves one. */
  lemma WindowsAfterAppend(log: Log, e: Entry, id: string)
    requires WellFormed(log) && Legal(log, e)
    ensures IsWindow(log + [e], id) <==>
      match e
      case StartedEntry(s) => IsWindow(log, id) || id == s.requestId
      case MessageEntry(m) => IsWindow(log, id)
        && !(m.ToolResultMessage? && id in Requests(log) && Requests(log)[id].toolCallId == m.toolCallId)
      case _ => IsWindow(log, id)
  {
    hide CallsOf, WellFormed, ResultMap;
    AppendMessages(log, e);
    WellFormedReferences(log);
    var next := log + [e];
    assert next[..|log|] == log;
    match e
    case MessageEntry(m) => ResultMapAppend(MessagesOf(log), m);
    case StartedEntry(s) =>
    case ResolvedEntry(res) =>
    case RequestedEntry(r) =>
    case OtherEntry(_) =>
  }

  /** An approval cut off between its start and its result leaves its window; one
      that completes, or was cut before its start, leaves none. */
  lemma ApprovalWindow(w: World, op: Operation, n: nat)
    requires Inv(w) && op.Approve? && Enabled(w.log, op) && n <= |Actions(op)|
    ensures IsWindow(ActUpTo(w, Actions(op), n).log, op.request.id) <==> 2 <= n < 4
  {
    hide CallsOf, Inv, Legal, HasResult, ExecuteTool, IsWindow, WellFormed;
    var id, acts := op.request.id, Actions(op);
    assert WellFormed(w.log) by { InvLog(w); }
    assert !IsWindow(w.log, id) by { PendingNotWindow(w.log, op.request); }
    assert ActUpTo(w, acts, 0) == w;
    if n >= 1 { ApprovalStep(w, op, 0, id); assert !IsWindow(ActUpTo(w, acts, 1).log, id); }
    if n >= 2 { ApprovalStep(w, op, 1, id); assert IsWindow(ActUpTo(w, acts, 2).log, id); }
    if n >= 3 { assert ActUpTo(w, acts, 3).log == ActUpTo(w, acts, 2).log; }
    if n >= 4 {
      ApprovalStep(w, op, 3, id);
      RequestsUpTo(w, op, 3);
      assert !IsWindow(ActUpTo(w, acts, 4).log, id);
    }
  }

  lemma InvLog(w: World)
    requires Inv(w)
    ensures WellFormed(w.log)
  {
  }

  lemma PendingNotWindow(log: Log, r: PendingInputRequest)
    requires WellFormed(log) && IsPending(log, r)
    ensures !IsWindow(log, r.id)
  {
    WellFormedReferences(log);
  }

  lemma {:induction false} ApprovalStep(w: World, op: Operation, n: nat, id: string)
    requires Inv(w) && Enabled(w.log, op) && n < |Actions(op)| && Actions(op)[n].Append?
    ensures var log, e := ActUpTo(w, Actions(op), n).log, Actions(op)[n].entry;
            && ActUpTo(w, Actions(op), n + 1).log == log + [e]
            && (IsWindow(log + [e], id) <==>
                match e
                case StartedEntry(s) => IsWindow(log, id) || id == s.requestId
                case MessageEntry(m) => IsWindow(log, id)
                  && !(m.ToolResultMessage? && id in Requests(log) && Requests(log)[id].toolCallId == m.toolCallId)
                case _ => IsWindow(log, id))
  {
    hide CallsOf, Legal, IsWindow, Enabled, Actions;
    OperationKeeps(w, op, n);
    OperationKeeps(w, op, n + 1);
    var log, e := ActUpTo(w, Actions(op), n).log, Actions(op)[n].entry;
    assert (log + [e])[..|log|] == log && (log + [e])[|log|] == e;
    WindowsAfterAppend(log, e, id);
  }

  /** Approving a request changes no request. */
  lemma {:induction false} RequestsUpTo(w: World, op: Operation, n: nat)
    requires op.Approve? && n <= |Actions(op)|
    ensures Requests(ActUpTo(w, Actions(op), n).log) == Requests(w.log)
  {
    hide ExecuteTool;
    if n > 0 {
      RequestsUpTo(w, op, n - 1);
      var v, a := ActUpTo(w, Actions(op), n - 1), Actions(op)[n - 1];
      if a.Append? {
        assert (v.log + [a.entry])[..|v.log|] == v.log;
        assert !a.entry.RequestedEntry?;
      }
    }
  }
}
