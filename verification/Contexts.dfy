/** What a provider is shown of a history: everything that was said but for empty failed
    turns, each call's result, and where there is none an interruption; and in which order
    a log's calls, requests and windows are read. */
module Contexts {
  import opened Messages
  import opened ToolMatching
  import opened ToolHistory
  import opened RepairCanonical
  import opened RepairShape
  import opened Events
  import opened SessionLog
  import opened Protocol
  import opened Responses

  /** A failed or aborted turn in which the model said nothing. */
  predicate SaidNothing(m: AgentMessage) {
    m.AssistantMessage? && m.blocks == [] && (m.stopReason == Error || m.stopReason == Aborted)
  }

  lemma ReplayableSnoc(ms: seq<AgentMessage>, m: AgentMessage)
    ensures Replayable(ms + [m]) == Replayable(ms) + if SaidNothing(m) then [] else [m]
  {
    assert (ms + [m])[..|ms|] == ms;
  }

  /** One more message is one more in the context, unless it is a result or says nothing. */
  lemma ContextGrows(ms: seq<AgentMessage>, m: AgentMessage)
    ensures NonResults(ProviderContext([])) == []
    ensures NonResults(ProviderContext(ms + [m])) ==
            NonResults(ProviderContext(ms)) + if m.ToolResultMessage? || SaidNothing(m) then [] else [m]
  {
    hide Repair;
    RepairOutputShape(Replayable([]));
    RepairOutputShape(Replayable(ms));
    RepairOutputShape(Replayable(ms + [m]));
    ReplayableSnoc(ms, m);
    NonResultsConcat(Replayable(ms), [m]);
    assert [m][..0] == [];
  }

  /** A result of the history, or an error that says its call, one of the history's, was
      interrupted. */
  ghost predicate RealOrInterrupted(ms: seq<AgentMessage>, m: AgentMessage) {
    m in ms || exists c, a :: a in ms && c in CallsOf(a) && m == ErrorText(c.id, c.name, INTERRUPTED)
  }

  lemma {:induction false} ChosenFrom(ms: seq<AgentMessage>, st: Matching, i: nat, n: nat)
    requires i < |ms| && n <= |CallsOf(ms[i])|
    ensures forall m :: m in CallResults(ms, st, i, n) ==> RealOrInterrupted(ms, m)
  {
    hide CallsOf;
    if n > 0 {
      ChosenFrom(ms, st, i, n - 1);
      var k := Key(i, n);
      assert ms[i] in ms && CallAt(ms, k) in CallsOf(ms[i]);
    }
  }

  lemma {:induction false} RebuiltFrom(ms: seq<AgentMessage>, st: Matching, n: nat)
    requires n <= |ms|
    ensures forall m :: m in Rebuilt(ms, st, n) ==> RealOrInterrupted(ms, m)
  {
    hide CallsOf, RealOrInterrupted;
    if n > 0 {
      RebuiltFrom(ms, st, n - 1);
      assert RealOrInterrupted(ms, ms[n - 1]) by { OwnIsReal(ms, n - 1); }
      ChosenFrom(ms, st, n - 1, |CallsOf(ms[n - 1])|);
    }
  }

  lemma OwnIsReal(ms: seq<AgentMessage>, i: nat)
    requires i < |ms|
    ensures RealOrInterrupted(ms, ms[i])
  {
  }

  /** Repair invents nothing but interruptions of calls in the history. */
  lemma NothingInvented(ms: seq<AgentMessage>)
    ensures forall m :: m in Repair(ms).messages ==> RealOrInterrupted(ms, m)
  {
    RebuiltFrom(ms, Match(ms), |ms|);
  }

  // ---------------------------------------------------------- the last calls

  /** The last message with calls, if there is one. */
  lemma {:induction false} LastCallsIs(ms: seq<AgentMessage>)
    ensures LastCalls(ms) == [] <==> forall m :: m in ms ==> CallsOf(m) == []
    ensures LastCalls(ms) != [] ==>
              exists p :: 0 <= p < |ms| && CallsOf(ms[p]) == LastCalls(ms)
                          && forall q :: p < q < |ms| ==> CallsOf(ms[q]) == []
  {
    hide CallsOf;
    if ms != [] {
      var init, last := ms[..|ms| - 1], ms[|ms| - 1];
      assert ms == init + [last];
      LastCallsIs(init);
      if CallsOf(last) == [] && LastCalls(init) != [] {
        var p :| 0 <= p < |init| && CallsOf(init[p]) == LastCalls(init) && forall q ::
          p < q < |init| ==> CallsOf(init[q]) == [];
        assert CallsOf(ms[p]) == LastCalls(ms);
        assert forall q :: p < q < |ms| ==> CallsOf(ms[q]) == [] by {
          forall q | p < q < |ms| ensures CallsOf(ms[q]) == [] { if q < |init| { assert init[q] == ms[q]; } }
        }
      } else if CallsOf(last) != [] {
        assert CallsOf(ms[|ms| - 1]) == LastCalls(ms);
      }
    }
  }

  /** A session waits exactly when some request of its log is pending. */
  lemma WaitingIff(log: Log)
    ensures DeriveState(log).status.Waiting? <==> exists r :: IsPending(log, r)
  {
    hide Pending, IsPending;
    if Pending(log) != [] { PendingIff(log, Pending(log)[0]); }
    forall r | IsPending(log, r) ensures r in Pending(log) { PendingIff(log, r); }
  }

  // ----------------------------------------------------------------- orders

  /** The first position of a request, or of an approval, under an id. */
  ghost predicate FirstRequest(log: Log, id: string, p: nat) {
    && p < |log| && log[p].RequestedEntry? && log[p].request.id == id
    && forall q :: 0 <= q < p && log[q].RequestedEntry? ==> log[q].request.id != id
  }

  ghost predicate FirstApproval(log: Log, id: string, p: nat) {
    && p < |log| && IsApprovalOf(log[p], id) && forall q :: 0 <= q < p ==> !IsApprovalOf(log[q], id)
  }

  lemma {:induction false} RequestKnown(log: Log, p: nat)
    requires p < |log| && log[p].RequestedEntry?
    ensures log[p].request.id in Requests(log)
  {
    if p < |log| - 1 { RequestKnown(log[..|log| - 1], p); }
  }

  lemma FirstStays(log: Log, id: string, p: nat)
    requires log != [] && FirstRequest(log[..|log| - 1], id, p)
    ensures FirstRequest(log, id, p)
  {
    var init := log[..|log| - 1];
    assert forall q :: 0 <= q < |init| ==> init[q] == log[q];
  }

  /** An id that was not known before is first requested now. */
  lemma FirstNow(log: Log, id: string)
    requires log != [] && id in Requests(log) && id !in Requests(log[..|log| - 1])
    ensures FirstRequest(log, id, |log| - 1)
  {
    var init := log[..|log| - 1];
    forall q | 0 <= q < |init| && log[q].RequestedEntry? ensures log[q].request.id != id {
      assert init[q] == log[q];
      RequestKnown(init, q);
    }
  }

  lemma {:induction false} FirstRequestOf(log: Log, id: string) returns (p: nat)
    requires id in Requests(log)
    ensures FirstRequest(log, id, p)
  {
    hide FirstRequest;
    var init := log[..|log| - 1];
    if id in Requests(init) {
      p := FirstRequestOf(init, id);
      FirstStays(log, id, p);
    } else {
      p := |log| - 1;
      FirstNow(log, id);
    }
  }

  lemma FirstBounds(log: Log, id: string, p: nat)
    requires FirstRequest(log, id, p)
    ensures p < |log|
  {
  }

  /** Request ids are in the order of their first requests. */
  lemma {:induction false} RequestsInOrder(log: Log, i: nat, j: nat) returns (p: nat, q: nat)
    requires i < j < |RequestOrder(log)|
    ensures FirstRequest(log, RequestOrder(log)[i], p) && FirstRequest(log, RequestOrder(log)[j], q) && p < q
  {
    hide Requests, FirstRequest;
    var init := log[..|log| - 1];
    if j < |RequestOrder(init)| {
      p, q := RequestsInOrder(init, i, j);
      FirstStays(log, RequestOrder(init)[i], p);
      FirstStays(log, RequestOrder(init)[j], q);
    } else {
      assert RequestOrder(init)[i] in RequestOrder(init);
      p := FirstRequestOf(init, RequestOrder(init)[i]);
      FirstStays(log, RequestOrder(init)[i], p);
      FirstBounds(init, RequestOrder(init)[i], p);
      q := |log| - 1;
      assert RequestOrder(log)[j] in RequestOrder(log);
      FirstNow(log, RequestOrder(log)[j]);
    }
  }

  lemma {:induction false} UnresolvedInOrder(ids: seq<string>, requests: map<string, PendingInputRequest>,
                                             resolved: set<string>, i: nat, j: nat) returns (p: nat, q: nat)
    requires (forall id :: id in ids ==> id in requests && requests[id].id == id)
    requires i < j < |Unresolved(ids, requests, resolved)|
    ensures p < q < |ids| && ids[p] == Unresolved(ids, requests, resolved)[i].id
    ensures ids[q] == Unresolved(ids, requests, resolved)[j].id
  {
    var init := ids[..|ids| - 1];
    if j < |Unresolved(init, requests, resolved)| {
      p, q := UnresolvedInOrder(init, requests, resolved, i, j);
    } else {
      q := |ids| - 1;
      p := UnresolvedAt(init, requests, resolved, i);
    }
  }

  lemma {:induction false} UnresolvedAt(ids: seq<string>, requests: map<string, PendingInputRequest>,
                                        resolved: set<string>, i: nat) returns (p: nat)
    requires (forall id :: id in ids ==> id in requests && requests[id].id == id)
    requires i < |Unresolved(ids, requests, resolved)|
    ensures p < |ids| && ids[p] == Unresolved(ids, requests, resolved)[i].id
  {
    var init := ids[..|ids| - 1];
    if i < |Unresolved(init, requests, resolved)| {
      p := UnresolvedAt(init, requests, resolved, i);
    } else {
      p := |ids| - 1;
    }
  }

  /** So pending requests are listed in the order in which their ids were first raised. */
  lemma PendingInOrder(log: Log, i: nat, j: nat) returns (p: nat, q: nat)
    requires i < j < |Pending(log)|
    ensures FirstRequest(log, Pending(log)[i].id, p) && FirstRequest(log, Pending(log)[j].id, q) && p < q
  {
    hide Requests, RequestOrder, ResolvedIds, Unresolved;
    var k, l := UnresolvedInOrder(RequestOrder(log), Requests(log), ResolvedIds(log), i, j);
    p, q := RequestsInOrder(log, k, l);
  }

  lemma {:induction false} FirstApprovalOf(log: Log, id: string) returns (p: nat)
    requires id in Approvals(log)
    ensures FirstApproval(log, id, p)
  {
    var init := log[..|log| - 1];
    if id in Approvals(init) {
      p := FirstApprovalOf(init, id);
    } else {
      p := |log| - 1;
      forall q | 0 <= q < p ensures !IsApprovalOf(log[q], id) {
        if IsApprovalOf(log[q], id) { ApprovalKnown(init, q, id); }
      }
    }
  }

  lemma {:induction false} ApprovalsInOrder(log: Log, i: nat, j: nat) returns (p: nat, q: nat)
    requires i < j < |ApprovalOrder(log)|
    ensures FirstApproval(log, ApprovalOrder(log)[i], p) && FirstApproval(log, ApprovalOrder(log)[j], q) && p < q
  {
    hide Approvals;
    var init := log[..|log| - 1];
    if j < |ApprovalOrder(init)| {
      p, q := ApprovalsInOrder(init, i, j);
    } else {
      assert ApprovalOrder(init)[i] in ApprovalOrder(init);
      p := FirstApprovalOf(init, ApprovalOrder(init)[i]);
      q := FirstApprovalOf(log, ApprovalOrder(log)[j]);
      if q < |init| { ApprovalKnown(init, q, ApprovalOrder(log)[j]); }
    }
  }

  lemma {:induction false} WindowAt(log: Log, ids: seq<string>, i: nat) returns (p: nat)
    requires i < |WindowsAmong(log, ids)|
    ensures p < |ids| && ids[p] == WindowsAmong(log, ids)[i].requestId
  {
    hide IsWindow;
    var init := ids[..|ids| - 1];
    if i < |WindowsAmong(log, init)| { p := WindowAt(log, init, i); } else { p := |ids| - 1; }
  }

  lemma {:induction false} WindowsAt(log: Log, ids: seq<string>, i: nat, j: nat) returns (p: nat, q: nat)
    requires i < j < |WindowsAmong(log, ids)|
    ensures p < q < |ids| && ids[p] == WindowsAmong(log, ids)[i].requestId
    ensures ids[q] == WindowsAmong(log, ids)[j].requestId
  {
    hide IsWindow;
    var init := ids[..|ids| - 1];
    if j < |WindowsAmong(log, init)| {
      p, q := WindowsAt(log, init, i, j);
    } else {
      q := |ids| - 1;
      p := WindowAt(log, init, i);
    }
  }

  /** Crash windows are listed in the order of their approvals. */
  lemma WindowsInOrder(log: Log, i: nat, j: nat) returns (p: nat, q: nat)
    requires i < j < |Windows(log)|
    ensures FirstApproval(log, Windows(log)[i].requestId, p) && FirstApproval(log, Windows(log)[j].requestId, q)
            && p < q
  {
    hide ApprovalOrder, WindowsAmong;
    var k, l := WindowsAt(log, ApprovalOrder(log), i, j);
    p, q := ApprovalsInOrder(log, k, l);
  }
}
