/** What `resolve_inputs` makes of people's responses: who approves runs what the model
    asked for, who denies runs nothing, and nothing runs that nobody approved. */
module Responses {
  import opened Messages
  import opened Events
  import opened Tools
  import opened ToolHistory
  import opened RepairCanonical
  import opened SessionLog
  import opened Protocol
  import opened ProtocolSafety
  import opened ResumePlan
  import opened Settlement
  import opened ResolveBatches
  import opened Effects

  // --------------------------------------------------------- the model's call

  ghost predicate CallIn(ms: seq<AgentMessage>, c: ToolCall) {
    exists m :: m in ms && c in CallsOf(m)
  }

  /** The call a request is about: the model's own, or one made of its payload when the
      transcript has none with its id. */
  ghost predicate IsCallFor(ms: seq<AgentMessage>, r: PendingInputRequest, c: ToolCall) {
    || (CallIn(ms, c) && c.id == r.toolCallId)
    || (c == ToolCall(r.toolCallId, r.toolName, r.payload) && forall d :: CallIn(ms, d) ==> d.id != r.toolCallId)
  }

  lemma {:induction false} FindInMeans(calls: seq<ToolCall>, id: string)
    ensures FindIn(calls, id).None? <==> id !in Ids(calls)
    ensures FindIn(calls, id).Some? ==> FindIn(calls, id).value in calls && FindIn(calls, id).value.id == id
  {
    if calls != [] {
      FindInMeans(calls[1..], id);
      assert calls == [calls[0]] + calls[1..];
      assert Ids(calls) == {calls[0].id} + Ids(calls[1..]);
    }
  }

  /** The first call with an id is the only one where ids are fresh. */
  lemma {:induction false} FoundCall(ms: seq<AgentMessage>, id: string)
    ensures FindToolCall(ms, id).None? <==> id !in CallIdSet(ms)
    ensures FindToolCall(ms, id).Some? ==> CallIn(ms, FindToolCall(ms, id).value) && FindToolCall(ms, id).value.id == id
  {
    hide CallsOf;
    if ms != [] {
      var init, last := ms[..|ms| - 1], ms[|ms| - 1];
      FoundCall(init, id);
      FindInMeans(CallsOf(last), id);
      if FindToolCall(init, id).Some? {
        var m :| m in init && FindToolCall(init, id).value in CallsOf(m);
        assert m in ms;
      } else if FindToolCall(ms, id).Some? {
        assert last in ms;
      }
    }
  }

  lemma {:induction false} CallInIds(ms: seq<AgentMessage>, c: ToolCall)
    requires CallIn(ms, c)
    ensures c.id in CallIdSet(ms)
  {
    hide CallsOf;
    var init, last := ms[..|ms| - 1], ms[|ms| - 1];
    if c !in CallsOf(last) {
      var m :| m in ms && c in CallsOf(m);
      assert m in init;
      CallInIds(init, c);
    }
  }

  lemma {:induction false} SameCallIn(ms: seq<AgentMessage>, c: ToolCall, d: ToolCall)
    requires FreshCalls(ms) && CallIn(ms, c) && CallIn(ms, d) && c.id == d.id
    ensures c == d
  {
    hide CallsOf;
    var init, last := ms[..|ms| - 1], ms[|ms| - 1];
    var m :| m in ms && c in CallsOf(m);
    var n :| n in ms && d in CallsOf(n);
    if c in CallsOf(last) && d in CallsOf(last) {
      var i :| 0 <= i < |CallsOf(last)| && CallsOf(last)[i] == c;
      var j :| 0 <= j < |CallsOf(last)| && CallsOf(last)[j] == d;
    } else if c in CallsOf(last) {
      assert n in init;
      CallInIds(init, d);
    } else if d in CallsOf(last) {
      assert m in init;
      CallInIds(init, c);
    } else {
      assert m in init && n in init;
      SameCallIn(init, c, d);
    }
  }

  /** Looking a call up by its id finds the model's own. */
  lemma FindsOwnCall(ms: seq<AgentMessage>, id: string)
    requires FreshCalls(ms)
    ensures FindToolCall(ms, id).None? ==> forall c :: CallIn(ms, c) ==> c.id != id
    ensures FindToolCall(ms, id).Some? ==> FindToolCall(ms, id).value.id == id
    ensures FindToolCall(ms, id).Some? ==> forall c :: CallIn(ms, c) && c.id == id ==> c == FindToolCall(ms, id).value
  {
    FoundCall(ms, id);
    forall c | CallIn(ms, c) && c.id == id ensures FindToolCall(ms, id) == Some(c) {
      CallInIds(ms, c);
      SameCallIn(ms, c, FindToolCall(ms, id).value);
    }
  }

  lemma OneCallFor(ms: seq<AgentMessage>, r: PendingInputRequest)
    requires FreshCalls(ms)
    ensures forall c :: IsCallFor(ms, r, c) <==> c == ResolveCall(r, ms)
  {
    hide FreshCalls, FindToolCall, CallIn;
    FindsOwnCall(ms, r.toolCallId);
    FoundCall(ms, r.toolCallId);
  }

  // ------------------------------------------------------- what was asked for

  predicate Available(tools: map<string, AgentTool>, name: string) {
    name in tools && tools[name].executor.Some?
  }

  /** What a pending request gets for a response, or for none: an expired one is denied
      whatever was said; a denial denies; an answer answers a question; an approval of a
      tool that is still there runs it on the model's call; and a response of the wrong
      kind does nothing. */
  ghost predicate Served(before: World, after: World, r: PendingInputRequest, response: Option<Response>,
                         tools: map<string, AgentTool>, now: int, limit: Option<int>)
  {
    if Expired(r, now) then WasDenied(before, after, r, SYSTEM, ExpiryReason(r, now))
    else
      match response
      case None => StaysPending(before, after, r)
      case Some(DenyResponse(actor, reason)) =>
        if r.kind.ToolApproval? || r.kind.Question? then WasDenied(before, after, r, actor, reason)
        else StaysPending(before, after, r)
      case Some(AnswerResponse(actor, text)) =>
        if r.kind.Question? then WasAnswered(before, after, r, actor, text) else StaysPending(before, after, r)
      case Some(ApproveResponse(actor, note)) =>
        if !r.kind.ToolApproval? then StaysPending(before, after, r)
        else if !Available(tools, r.toolName)
        then WasDenied(before, after, r, "system:revalidation", UnavailableReason(r.toolName))
        else RanItsCall(before, after, r, actor, note, tools[r.toolName], limit)
  }

  ghost predicate RanItsCall(before: World, after: World, r: PendingInputRequest, actor: string, note: Option<string>,
                             tool: AgentTool, limit: Option<int>)
    requires tool.executor.Some?
  {
    && (exists c :: IsCallFor(MessagesOf(before.log), r, c))
    && forall c :: IsCallFor(MessagesOf(before.log), r, c) ==> WasRun(before, after, r, actor, note, tool, c, limit)
  }

  /** The call of `resolve_inputs` gets as far as its k-th response: no executor before
      it parked its own approved call. */
  ghost predicate Reached(log: Log, subs: seq<Submission>, tools: map<string, AgentTool>, now: int, limit: Option<int>,
                          k: nat)
    requires k <= |subs|
  {
    !Respond(TakeSnapshot(log, tools, now, limit), subs, k).escaped
  }

  /** Executors that never park let it reach every response. */
  lemma {:induction false} AllReached(log: Log, subs: seq<Submission>, tools: map<string, AgentTool>, now: int,
                                      limit: Option<int>, k: nat)
    requires k <= |subs|
    requires forall name, call: ToolCall :: Available(tools, name) ==> !tools[name].executor.value(call).Parked?
    ensures Reached(log, subs, tools, now, limit, k)
  {
    hide TakeSnapshot, Judge, Escapes;
    if k > 0 {
      AllReached(log, subs, tools, now, limit, k - 1);
      var s := TakeSnapshot(log, tools, now, limit);
      assert s.tools == tools by { SnapshotTools(log, tools, now, limit); }
      NothingEscapes(s, subs[k - 1]);
    }
  }

  lemma SnapshotTools(log: Log, tools: map<string, AgentTool>, now: int, limit: Option<int>)
    ensures TakeSnapshot(log, tools, now, limit).tools == tools && TakeSnapshot(log, tools, now, limit).limit == limit
  {
  }

  lemma NothingEscapes(s: Snapshot, sub: Submission)
    requires forall name, call: ToolCall :: Available(s.tools, name) ==> !s.tools[name].executor.value(call).Parked?
    ensures Judge(s, sub).op.Some? ==> !Escapes(Judge(s, sub).op.value)
  {
    hide ResolveCall, ExecuteTool;
    if Judge(s, sub).op.Some? && Judge(s, sub).op.value.Approve? {
      var op := Judge(s, sub).op.value;
      assert Available(s.tools, op.request.toolName);
      ExecutionShows(op.tool, op.call, op.limit, "", "");
    }
  }

  lemma {:induction false} OpsStay(s: Snapshot, subs: seq<Submission>, k: nat, n: nat)
    requires k <= n <= |subs|
    ensures forall op :: op in Respond(s, subs, k).ops ==> op in Respond(s, subs, n).ops
  {
    hide Judge, Escapes;
    if k < n { OpsStay(s, subs, k, n - 1); }
  }

  lemma PerformedNow(s: Snapshot, subs: seq<Submission>, k: nat)
    requires k < |subs| && !Respond(s, subs, k).escaped && Judge(s, subs[k]).op.Some?
    ensures Judge(s, subs[k]).op.value in Respond(s, subs, k + 1).ops
  {
    hide Judge, Escapes;
    var op := Judge(s, subs[k]).op.value;
    assert op in Respond(s, subs, k).ops + [op];
  }

  /** A response that is reached is performed. */
  lemma ReachedIsPerformed(s: Snapshot, subs: seq<Submission>, k: nat)
    requires k < |subs| && !Respond(s, subs, k).escaped && Judge(s, subs[k]).op.Some?
    ensures Judge(s, subs[k]).op.value in Respond(s, subs, |subs|).ops
  {
    hide Judge, Respond;
    OpsStay(s, subs, k + 1, |subs|);
    PerformedNow(s, subs, k);
  }

  /** What the call reads about a pending request that has not expired. */
  lemma SnapshotOf(log: Log, tools: map<string, AgentTool>, now: int, limit: Option<int>, r: PendingInputRequest)
    requires IsPending(log, r)
    ensures var s := TakeSnapshot(log, tools, now, limit);
            && s.tools == tools && s.limit == limit && s.messages == MessagesOf(log)
            && r.id in s.requested && s.requested[r.id] == r && r.id !in s.resolved
            && (r.id in s.justExpired <==> Expired(r, now))
  {
    hide Requests, ResolvedIds, MessagesOf, Pending;
    SweptIdsAre(log, now);
    PendingIff(log, r);
    forall q | q in Pending(log) && q.id == r.id ensures q == r { PendingIff(log, q); }
  }

  /** The operations of a call that are for a request. */
  lemma OpsForRequest(w: World, subs: seq<Submission>, tools: map<string, AgentTool>, now: int, limit: Option<int>,
                      r: PendingInputRequest, op: Operation)
    requires IsPending(w.log, r) && DistinctSubmissions(subs)
    requires op in ResolveOps(w.log, subs, tools, now, limit) && RequestIdOf(op) == r.id
    ensures if Expired(r, now) then op == Expiry(r, now)
            else exists i :: 0 <= i < |subs| && subs[i].requestId == r.id
                             && ComesFrom(TakeSnapshot(w.log, tools, now, limit), subs[i], op)
  {
    hide Requests, ResolvedIds, MessagesOf, Pending, Respond, SweepOps, Judge, ExpiryReason, TakeSnapshot, Enabled;
    var s := TakeSnapshot(w.log, tools, now, limit);
    SnapshotFields(w.log, tools, now, limit);
    SnapshotOf(w.log, tools, now, limit, r);
    PendingDistinct(w.log);
    SweepIs(Pending(w.log), now);
    RespondOps(w.log, s, subs, |subs|);
    if op in SweepOps(Pending(w.log), now) {
      PendingIff(w.log, op.request);
    } else {
      assert op in Respond(s, subs, |subs|).ops;
      var i :| 0 <= i < |subs| && ComesFrom(s, subs[i], op);
      JudgedIsEnabled(w.log, s, subs[i]);
    }
  }

  // --------------------------------------------------------------- the service

  lemma LawfulPlan(w: World, subs: seq<Submission>, tools: map<string, AgentTool>, now: int, limit: Option<int>)
    requires Inv(w) && DistinctSubmissions(subs)
    ensures var ops := ResolveOps(w.log, subs, tools, now, limit);
            Plan(w, ops) && ResolveInputsOn(w, subs, tools, now, limit) == PerformAll(w, ops)
  {
    hide ResolveOps, Inv, DistinctRequests, AllEnabled, InTurn, PerformAll;
    ResolvePlanLawful(w, subs, tools, now, limit);
  }

  lemma ExpiryServed(w: World, subs: seq<Submission>, tools: map<string, AgentTool>, now: int, limit: Option<int>,
                     r: PendingInputRequest)
    requires Inv(w) && DistinctSubmissions(subs) && r in Pending(w.log) && Expired(r, now)
    ensures WasDenied(w, ResolveInputsOn(w, subs, tools, now, limit), r, SYSTEM, ExpiryReason(r, now))
  {
    hide Inv, Pending, Respond, TakeSnapshot, PerformAll, WasDenied, Plan, ExpiryReason;
    LawfulPlan(w, subs, tools, now, limit);
    PendingDistinct(w.log);
    SweepIs(Pending(w.log), now);
    DeniedMeans(w, ResolveOps(w.log, subs, tools, now, limit), Expiry(r, now));
  }

  lemma NoResponseServed(w: World, subs: seq<Submission>, tools: map<string, AgentTool>, now: int, limit: Option<int>,
                         r: PendingInputRequest)
    requires Inv(w) && DistinctSubmissions(subs) && IsPending(w.log, r) && !Expired(r, now)
    requires forall i :: 0 <= i < |subs| && subs[i].requestId == r.id ==>
               Judge(TakeSnapshot(w.log, tools, now, limit), subs[i]).op.None?
    ensures StaysPending(w, ResolveInputsOn(w, subs, tools, now, limit), r)
  {
    hide Inv, ResolveOps, TakeSnapshot, PerformAll, StaysPending, Judge, IsPending;
    LawfulPlan(w, subs, tools, now, limit);
    forall op | op in ResolveOps(w.log, subs, tools, now, limit) ensures RequestIdOf(op) != r.id {
      if RequestIdOf(op) == r.id { OpsForRequest(w, subs, tools, now, limit, r, op); }
    }
    StaysMeans(w, ResolveOps(w.log, subs, tools, now, limit), r);
  }

  lemma ResponseServed(w: World, subs: seq<Submission>, tools: map<string, AgentTool>, now: int, limit: Option<int>,
                       r: PendingInputRequest, k: nat)
    requires Inv(w) && DistinctSubmissions(subs) && IsPending(w.log, r) && !Expired(r, now)
    requires k < |subs| && subs[k].requestId == r.id && Reached(w.log, subs, tools, now, limit, k)
    ensures Served(w, ResolveInputsOn(w, subs, tools, now, limit), r, Some(subs[k].response), tools, now, limit)
  {
    hide Inv, Respond, TakeSnapshot, PerformAll, StaysPending, WasDenied, WasAnswered, WasRun, Plan, Requests,
      ResolvedIds, MessagesOf, Pending, ResolveCall, UnavailableReason, ExpiryReason, SweepOps, IsCallFor, FreshCalls;
    var s, ops := TakeSnapshot(w.log, tools, now, limit), ResolveOps(w.log, subs, tools, now, limit);
    SnapshotOf(w.log, tools, now, limit, r);
    LawfulPlan(w, subs, tools, now, limit);
    var verdict := Judge(s, subs[k]);
    assert verdict == Handle(r, subs[k].response, s);
    if verdict.op.None? {
      forall i | 0 <= i < |subs| && subs[i].requestId == r.id ensures i == k { }
      NoResponseServed(w, subs, tools, now, limit, r);
    } else {
      var op := verdict.op.value;
      ReachedIsPerformed(s, subs, k);
      match op
      case Deny(_, _, _) => DeniedMeans(w, ops, op);
      case Answer(_, _, _) => AnsweredMeans(w, ops, op);
      case Approve(_, _, _, _, _, _) =>
        RunMeans(w, ops, op);
        LogCalls(w);
        OneCallFor(MessagesOf(w.log), r);
        assert op.call == ResolveCall(r, MessagesOf(w.log)) && IsCallFor(MessagesOf(w.log), r, op.call);
    }
  }

  lemma LogCalls(w: World)
    requires Inv(w)
    ensures FreshCalls(MessagesOf(w.log))
  {
    WellFormedMessages(w.log);
  }

  /** Every pending request is served as its response, or the lack of one, asks. */
  lemma RequestsServed(w: World, subs: seq<Submission>, tools: map<string, AgentTool>, now: int, limit: Option<int>,
                       r: PendingInputRequest, k: nat)
    requires Inv(w) && DistinctSubmissions(subs) && r in Pending(w.log) && k <= |subs|
    requires if k < |subs| then subs[k].requestId == r.id
             && (Expired(r, now) || Reached(w.log, subs, tools, now, limit, k))
             else forall sub :: sub in subs ==> sub.requestId != r.id
    ensures Served(w, ResolveInputsOn(w, subs, tools, now, limit), r,
                   if k < |subs| then Some(subs[k].response) else None, tools, now, limit)
  {
    hide Inv, Pending, ResolveInputsOn, TakeSnapshot, StaysPending, WasDenied, WasAnswered, RanItsCall, ExpiryReason,
      Judge, Reached;
    PendingIff(w.log, r);
    if Expired(r, now) {
      ExpiryServed(w, subs, tools, now, limit, r);
    } else if k < |subs| {
      ResponseServed(w, subs, tools, now, limit, r, k);
    } else {
      NoResponseServed(w, subs, tools, now, limit, r);
    }
  }

  // -------------------------------------------- nothing that nobody asked for

  lemma AnswersComeFrom(s: Snapshot, subs: seq<Submission>, n: nat)
    requires n <= |subs|
    ensures forall op :: op in Respond(s, subs, n).ops ==> exists i :: 0 <= i < n && ComesFrom(s, subs[i], op)
  {
    hide Judge, Escapes;
    if n > 0 {
      AnswersComeFrom(s, subs, n - 1);
      var b, v := Respond(s, subs, n - 1), Judge(s, subs[n - 1]);
      if !b.escaped && v.op.Some? { assert ComesFrom(s, subs[n - 1], v.op.value); }
    }
  }

  ghost predicate NotDeniedBy(subs: seq<Submission>, id: string) {
    exists sub :: sub in subs && sub.requestId == id && !sub.response.DenyResponse?
  }

  ghost predicate ApprovedBy(subs: seq<Submission>, id: string) {
    exists sub :: sub in subs && sub.requestId == id && sub.response.ApproveResponse?
  }

  lemma VerdictOf(s: Snapshot, sub: Submission)
    requires Judge(s, sub).op.Some? && forall id :: id in s.requested ==> s.requested[id].id == id
    ensures var op := Judge(s, sub).op.value;
            && Resolves(op) && op.request.id == sub.requestId && sub.requestId !in s.resolved
            && sub.requestId !in s.justExpired
            && (sub.response.DenyResponse? ==> op.Deny?)
            && (op.Approve? ==> sub.response.ApproveResponse? && op.request.kind.ToolApproval?)
  {
    hide ResolveCall;
  }

  /** An operation of a call that is no sweep's comes from a response. */
  lemma OpIsResponse(log: Log, subs: seq<Submission>, tools: map<string, AgentTool>, now: int, limit: Option<int>,
                     op: Operation)
    requires op in ResolveOps(log, subs, tools, now, limit) && !op.Deny?
    ensures Resolves(op) && NotDeniedBy(subs, op.request.id) && (op.Approve? ==> ApprovedBy(subs, op.request.id))
  {
    hide SweepOps, Judge, Respond, Requests, ResolvedIds, Pending, MessagesOf;
    var s := TakeSnapshot(log, tools, now, limit);
    assert op !in SweepOps(Pending(log), now) by { SweepDenies(Pending(log), now); }
    AnswersComeFrom(s, subs, |subs|);
    var i :| 0 <= i < |subs| && ComesFrom(s, subs[i], op);
    VerdictOf(s, subs[i]);
    assert subs[i] in subs;
  }

  lemma {:induction false} SweepDenies(pending: seq<PendingInputRequest>, now: int)
    ensures forall op :: op in SweepOps(pending, now) ==> op.Deny?
  {
    hide ExpiryReason;
    if pending != [] { SweepDenies(pending[..|pending| - 1], now); }
  }

  lemma {:induction false} AllResolve(log: Log, subs: seq<Submission>, tools: map<string, AgentTool>, now: int,
                                      limit: Option<int>, op: Operation)
    requires op in ResolveOps(log, subs, tools, now, limit)
    ensures Resolves(op)
  {
    if !op.Deny? { OpIsResponse(log, subs, tools, now, limit, op); }
  }

  /** On any log at all: whatever was newly approved, somebody responded to it and did not
      deny it; and whatever ran, somebody approved it. */
  lemma NothingUnasked(w: World, subs: seq<Submission>, tools: map<string, AgentTool>, now: int, limit: Option<int>)
    ensures var v := ResolveInputsOn(w, subs, tools, now, limit);
            && Grew(w, v)
            && (forall id :: id in Approvals(v.log) && id !in Approvals(w.log) ==> NotDeniedBy(subs, id))
            && (forall i :: IsNew(w, v, i) ==> ApprovedBy(subs, v.trace[i].requestId))
  {
    hide PerformAll, ResolveOps, NotDeniedBy, ApprovedBy, Approvals, Executes, Actions, Resolves;
    var ops := ResolveOps(w.log, subs, tools, now, limit);
    var v := PerformAll(w, ops);
    OpsMake(w, ops);
    forall id | id in Approvals(v.log) && id !in Approvals(w.log) ensures NotDeniedBy(subs, id) {
      var p := ApprovalIn(v.log, id);
      if p < |w.log| { ApprovalKnown(w.log, p, id); }
      assert OfSome(ops, Append(v.log[p]));
      var op :| op in ops && Append(v.log[p]) in Actions(op);
      AllResolve(w.log, subs, tools, now, limit, op);
      ResolutionsNamed(op, v.log[p]);
      OpIsResponse(w.log, subs, tools, now, limit, op);
    }
    forall i | IsNew(w, v, i) ensures ApprovedBy(subs, v.trace[i].requestId) {
      assert RunOfSome(ops, v.trace[i]);
      var op :| op in ops && Executes(op, v.trace[i]);
      AllResolve(w.log, subs, tools, now, limit, op);
      RunsNamed(op, v.trace[i]);
      OpIsResponse(w.log, subs, tools, now, limit, op);
    }
  }

  lemma {:induction false} ApprovalKnown(log: Log, p: nat, id: string)
    requires p < |log| && IsApprovalOf(log[p], id)
    ensures id in Approvals(log)
  {
    if p < |log| - 1 { ApprovalKnown(log[..|log| - 1], p, id); }
  }

  // ----------------------------------------------------------- what is reported

  ghost predicate ReportedAs(s: Snapshot, sub: Submission, id: string, d: Disposition) {
    sub.requestId == id && Judge(s, sub).disposition == d
  }

  ghost predicate OneReportedAs(s: Snapshot, subs: seq<Submission>, n: nat, id: string, d: Disposition)
    requires n <= |subs|
  {
    exists k :: 0 <= k < n && ReportedAs(s, subs[k], id, d)
  }

  lemma OneMoreReported(s: Snapshot, subs: seq<Submission>, n: nat, id: string, d: Disposition)
    requires n < |subs|
    ensures OneReportedAs(s, subs, n + 1, id, d) <==> OneReportedAs(s, subs, n, id, d) || ReportedAs(s, subs[n], id, d)
  {
    hide ReportedAs;
  }

  /** The lists of an outcome: every response in one of them, once. */
  lemma {:induction false} ListsAre(s: Snapshot, subs: seq<Submission>, n: nat)
    requires n <= |subs| && !Respond(s, subs, n).escaped
    ensures var b := Respond(s, subs, n);
            && (forall id :: id in b.resolved <==> OneReportedAs(s, subs, n, id, Resolved))
            && (forall id :: id in b.invalidated <==> OneReportedAs(s, subs, n, id, Invalidated))
            && (forall x :: x in b.rejected <==> OneReportedAs(s, subs, n, x.requestId, Rejected(x.reason)))
            && |b.resolved| + |b.invalidated| + |b.rejected| == n
  {
    hide Judge, Escapes, OneReportedAs;
    if n == 0 {
      forall id, d ensures !OneReportedAs(s, subs, 0, id, d) { NoneReported(s, subs, id, d); }
    } else {
      ListsAre(s, subs, n - 1);
      forall id, d
        ensures OneReportedAs(s, subs, n, id, d) <==>
                OneReportedAs(s, subs, n - 1, id, d) || ReportedAs(s, subs[n - 1], id, d)
      {
        OneMoreReported(s, subs, n - 1, id, d);
      }
    }
  }

  lemma NoneReported(s: Snapshot, subs: seq<Submission>, id: string, d: Disposition)
    ensures !OneReportedAs(s, subs, 0, id, d)
  {
  }

  /** Whether a response is of the kind its request takes. */
  predicate Fits(r: PendingInputRequest, response: Response) {
    match response
    case DenyResponse(_, _) => r.kind.ToolApproval? || r.kind.Question?
    case AnswerResponse(_, _) => r.kind.Question?
    case ApproveResponse(_, _) => r.kind.ToolApproval?
  }

  ghost predicate RejectedIn(b: Batch, id: string) { exists x :: x in b.rejected && x.requestId == id }

  /** What a call that comes to its end reports about a response to a request that was
      pending and has not expired: resolved if it was of the right kind, invalidated if it
      approved a tool that is gone, and otherwise rejected. */
  lemma ReportsServed(w: World, subs: seq<Submission>, tools: map<string, AgentTool>, now: int, limit: Option<int>,
                      r: PendingInputRequest, k: nat)
    requires DistinctSubmissions(subs) && IsPending(w.log, r) && !Expired(r, now)
    requires k < |subs| && subs[k].requestId == r.id && !Answers(w.log, subs, tools, now, limit).escaped
    ensures var b, response := Answers(w.log, subs, tools, now, limit), subs[k].response;
            var gone := response.ApproveResponse? && !Available(tools, r.toolName);
            && (r.id in b.resolved <==> Fits(r, response) && !gone)
            && (r.id in b.invalidated <==> Fits(r, response) && gone)
            && (RejectedIn(b, r.id) <==> !Fits(r, response))
            && |b.resolved| + |b.invalidated| + |b.rejected| == |subs|
  {
    hide Respond, TakeSnapshot, Requests, ResolvedIds, MessagesOf, Pending, ResolveCall, OneReportedAs;
    var s := TakeSnapshot(w.log, tools, now, limit);
    SnapshotOf(w.log, tools, now, limit, r);
    ListsAre(s, subs, |subs|);
    var d := Judge(s, subs[k]).disposition;
    forall e ensures OneReportedAs(s, subs, |subs|, r.id, e) <==> e == d { OnlyReport(s, subs, k, e); }
    if d.Rejected? {
      assert Rejection(r.id, d.reason) in Respond(s, subs, |subs|).rejected;
    }
  }

  lemma OnlyReport(s: Snapshot, subs: seq<Submission>, k: nat, d: Disposition)
    requires DistinctSubmissions(subs) && k < |subs|
    ensures OneReportedAs(s, subs, |subs|, subs[k].requestId, d) <==> d == Judge(s, subs[k]).disposition
  {
    hide Judge;
    if d == Judge(s, subs[k]).disposition { assert ReportedAs(s, subs[k], subs[k].requestId, d); }
    forall j | 0 <= j < |subs| && ReportedAs(s, subs[j], subs[k].requestId, d) ensures j == k { }
  }

  /** ... and about one to any other: unknown, expired in this very call, or resolved before. */
  lemma ReportsRefused(w: World, subs: seq<Submission>, tools: map<string, AgentTool>, now: int, limit: Option<int>,
                       k: nat)
    requires k < |subs| && !Answers(w.log, subs, tools, now, limit).escaped
    ensures var b, id := Answers(w.log, subs, tools, now, limit), subs[k].requestId;
            && (id !in Requests(w.log) ==> Rejection(id, "unknown") in b.rejected)
            && (id in Requests(w.log) && id in ResolvedIds(w.log) ==> Rejection(id, "already_resolved") in b.rejected)
            && (forall r :: IsPending(w.log, r) && r.id == id && Expired(r, now) ==>
                 Rejection(id, "expired") in b.rejected)
  {
    hide Respond, TakeSnapshot, Requests, ResolvedIds, MessagesOf, Pending, ResolveCall, Handle;
    var s, id := TakeSnapshot(w.log, tools, now, limit), subs[k].requestId;
    SnapshotFields(w.log, tools, now, limit);
    ListsAre(s, subs, |subs|);
    forall e ensures e == Judge(s, subs[k]).disposition ==> OneReportedAs(s, subs, |subs|, id, e) {
      if e == Judge(s, subs[k]).disposition { assert ReportedAs(s, subs[k], id, e); }
    }
    forall r | IsPending(w.log, r) && r.id == id ensures id in s.justExpired <==> Expired(r, now) {
      SnapshotOf(w.log, tools, now, limit, r);
    }
    if id in ResolvedIds(w.log) { ResolvedNotSwept(w.log, tools, now, limit, id); }
  }

  lemma ResolvedNotSwept(log: Log, tools: map<string, AgentTool>, now: int, limit: Option<int>, id: string)
    requires id in ResolvedIds(log)
    ensures id !in TakeSnapshot(log, tools, now, limit).justExpired
  {
    hide Requests, ResolvedIds, MessagesOf, Pending;
    SweptIdsAre(log, now);
    forall q | q in Pending(log) ensures q.id != id { PendingIff(log, q); }
  }
}
