/** `resolve_inputs` as a whole: its plan is lawful, splitting a batch into several
    calls changes nothing, and neither does the order of the responses. */
module ResolveBatches {
  import opened Messages
  import opened Events
  import opened Tools
  import opened ToolHistory
  import opened SessionLog
  import opened Protocol
  import opened ResumePlan
  import opened Settlement

  ghost predicate DistinctSubmissions(subs: seq<Submission>) {
    forall i, j :: 0 <= i < j < |subs| ==> subs[i].requestId != subs[j].requestId
  }

  // ------------------------------------------------------------- the sweep

  ghost predicate DistinctPending(rs: seq<PendingInputRequest>) {
    forall i, j :: 0 <= i < j < |rs| ==> rs[i].id != rs[j].id
  }

  lemma {:induction false} RequestOrderDistinct(log: Log)
    ensures forall i, j :: 0 <= i < j < |RequestOrder(log)| ==> RequestOrder(log)[i] != RequestOrder(log)[j]
  {
    if log != [] { RequestOrderDistinct(log[..|log| - 1]); }
  }

  lemma {:induction false} UnresolvedDistinct(ids: seq<string>, requests: map<string, PendingInputRequest>,
                                              resolved: set<string>)
    requires forall id :: id in ids ==> id in requests && requests[id].id == id
    requires forall i, j :: 0 <= i < j < |ids| ==> ids[i] != ids[j]
    ensures DistinctPending(Unresolved(ids, requests, resolved))
    ensures forall r :: r in Unresolved(ids, requests, resolved) ==> r.id in ids
  {
    if ids != [] {
      var init := ids[..|ids| - 1];
      UnresolvedDistinct(init, requests, resolved);
      assert ids[|ids| - 1] !in init;
    }
  }

  lemma PendingDistinct(log: Log)
    ensures DistinctPending(Pending(log))
  {
    RequestOrderDistinct(log);
    UnresolvedDistinct(RequestOrder(log), Requests(log), ResolvedIds(log));
  }

  lemma DistinctSnoc(ops: seq<Operation>, op: Operation)
    requires DistinctRequests(ops) && Resolves(op)
    requires forall o :: o in ops ==> RequestIdOf(o) != RequestIdOf(op)
    ensures DistinctRequests(ops + [op])
  {
    hide RequestIdOf, Resolves;
    assert forall i :: 0 <= i < |ops| ==> ops[i] in ops;
  }

  /** The sweep denies exactly the expired pending requests, once each. */
  lemma {:induction false} SweepIs(pending: seq<PendingInputRequest>, now: int)
    requires DistinctPending(pending)
    ensures DistinctRequests(SweepOps(pending, now))
    ensures forall op :: op in SweepOps(pending, now) ==>
              op.Deny? && op.request in pending && Expired(op.request, now) && op == Expiry(op.request, now)
    ensures forall r :: r in pending && Expired(r, now) ==> Expiry(r, now) in SweepOps(pending, now)
  {
    hide Expired, ExpiryReason;
    if pending != [] {
      var init, last := pending[..|pending| - 1], pending[|pending| - 1];
      SweepIs(init, now);
      forall op | op in SweepOps(init, now) ensures op.request.id != last.id && op.request in pending {
        var i :| 0 <= i < |init| && init[i] == op.request;
        assert pending[i] == init[i] && pending[i].id != pending[|pending| - 1].id;
      }
      if Expired(last, now) { DistinctSnoc(SweepOps(init, now), Expiry(last, now)); }
    }
  }

  ghost function SweptIds(log: Log, now: int): set<string> {
    set r | r in Pending(log) && Expired(r, now) :: r.id
  }

  lemma SweptIdsAre(log: Log, now: int)
    ensures SettledIds(SweepOps(Pending(log), now)) == SweptIds(log, now)
    ensures IdSet(RequestIds(ExpiredAmong(Pending(log), now))) == SweptIds(log, now)
  {
    hide Pending, ExpiryReason;
    PendingDistinct(log);
    SweepIs(Pending(log), now);
    var ops := SweepOps(Pending(log), now);
    forall id | id in SweptIds(log, now) ensures id in SettledIds(ops) {
      var r :| r in Pending(log) && Expired(r, now) && r.id == id;
      assert Expiry(r, now) in ops;
    }
    var expired := ExpiredAmong(Pending(log), now);
    forall id | id in SweptIds(log, now) ensures id in IdSet(RequestIds(expired)) {
      var r :| r in expired && r.id == id;
      var i :| 0 <= i < |expired| && expired[i] == r;
      assert RequestIds(expired)[i] == id;
    }
    forall id | id in IdSet(RequestIds(expired)) ensures id in SweptIds(log, now) {
      var i :| 0 <= i < |expired| && RequestIds(expired)[i] == id;
      assert expired[i] in expired;
    }
  }

  // --------------------------------------------------------- the responses

  /** What a handled response performs concerns the submitted, still pending request. */
  lemma JudgedIsEnabled(log: Log, s: Snapshot, sub: Submission)
    requires s.requested == Requests(log) && s.resolved == ResolvedIds(log)
    requires Judge(s, sub).op.Some?
    ensures var op := Judge(s, sub).op.value;
            && Resolves(op) && RequestIdOf(op) == sub.requestId && Enabled(log, op)
            && sub.requestId !in s.justExpired && sub.requestId in s.requested
  {
    hide ResolveCall, Requests, ResolvedIds;
  }

  /** The i-th response is the one an operation comes from. */
  ghost predicate ComesFrom(s: Snapshot, sub: Submission, op: Operation) {
    Judge(s, sub).op == Some(op)
  }

  lemma {:induction false} RespondOps(log: Log, s: Snapshot, subs: seq<Submission>, n: nat)
    requires s.requested == Requests(log) && s.resolved == ResolvedIds(log)
    requires DistinctSubmissions(subs) && n <= |subs|
    ensures DistinctRequests(Respond(s, subs, n).ops) && AllEnabled(log, Respond(s, subs, n).ops)
    ensures forall op :: op in Respond(s, subs, n).ops ==> exists i :: 0 <= i < n && ComesFrom(s, subs[i], op)
    ensures !Respond(s, subs, n).escaped ==>
              forall i :: 0 <= i < n && Judge(s, subs[i]).op.Some? ==>
                Judge(s, subs[i]).op.value in Respond(s, subs, n).ops
  {
    hide Judge, Enabled, Escapes, Requests, ResolvedIds;
    if n > 0 {
      RespondOps(log, s, subs, n - 1);
      var b, v := Respond(s, subs, n - 1), Judge(s, subs[n - 1]);
      if !b.escaped && v.op.Some? {
        var op := v.op.value;
        JudgedIsEnabled(log, s, subs[n - 1]);
        forall i | 0 <= i < |b.ops| ensures RequestIdOf(b.ops[i]) != RequestIdOf(op) {
          assert b.ops[i] in b.ops;
          var j :| 0 <= j < n - 1 && ComesFrom(s, subs[j], b.ops[i]);
          JudgedIsEnabled(log, s, subs[j]);
          assert subs[j].requestId != subs[n - 1].requestId;
        }
        assert ComesFrom(s, subs[n - 1], op);
        assert Respond(s, subs, n).ops == b.ops + [op];
        assert forall o :: o in Respond(s, subs, n).ops <==> o in b.ops || o == op;
      } else {
        assert Respond(s, subs, n).ops == b.ops;
      }
    }
  }

  lemma {:induction false} DistinctConcat(a: seq<Operation>, b: seq<Operation>)
    requires DistinctRequests(a) && DistinctRequests(b)
    requires forall x, y :: x in a && y in b ==> RequestIdOf(x) != RequestIdOf(y)
    ensures DistinctRequests(a + b)
  {
    hide RequestIdOf, Resolves;
    var c := a + b;
    forall i | 0 <= i < |c| ensures Resolves(c[i]) {
      if i < |a| { assert c[i] == a[i]; } else { assert c[i] == b[i - |a|]; }
    }
    forall i, j | 0 <= i < j < |c| ensures RequestIdOf(c[i]) != RequestIdOf(c[j]) {
      if j < |a| {
        assert c[i] == a[i] && c[j] == a[j];
      } else if i >= |a| {
        assert c[i] == b[i - |a|] && c[j] == b[j - |a|];
      } else {
        assert c[i] in a && c[j] in b;
      }
    }
  }

  /** The whole plan is lawful: distinct pending requests, each enabled in its turn. */
  lemma ResolvePlanLawful(w: World, subs: seq<Submission>, tools: map<string, AgentTool>, now: int, limit: Option<int>)
    requires Inv(w) && DistinctSubmissions(subs)
    ensures var ops := ResolveOps(w.log, subs, tools, now, limit);
            && DistinctRequests(ops) && AllEnabled(w.log, ops) && InTurn(w, ops) && Inv(PerformAll(w, ops))
  {
    hide Inv, Pending, PerformAll, InTurn, Respond, Requests, ResolvedIds, RequestOrder, MessagesOf, SettledIds,
      SweepOps;
    var log := w.log;
    var s := TakeSnapshot(log, tools, now, limit);
    var sweep, answers := SweepOps(Pending(log), now), Answers(log, subs, tools, now, limit).ops;
    PendingDistinct(log);
    SweepIs(Pending(log), now);
    SweptIdsAre(log, now);
    RespondOps(log, s, subs, |subs|);
    forall op | op in sweep ensures Enabled(log, op) { PendingIff(log, op.request); }
    forall x, y | x in sweep && y in answers ensures RequestIdOf(x) != RequestIdOf(y) {
      var i :| 0 <= i < |subs| && ComesFrom(s, subs[i], y);
      JudgedIsEnabled(log, s, subs[i]);
      assert RequestIdOf(x) in SweptIds(log, now);
    }
    DistinctConcat(sweep, answers);
    AllEnabledConcat(log, sweep, answers);
    SettleAll(w, sweep + answers);
  }

  lemma AllEnabledConcat(log: Log, a: seq<Operation>, b: seq<Operation>)
    requires (forall op :: op in a ==> Enabled(log, op)) && AllEnabled(log, b)
    ensures AllEnabled(log, a + b)
  {
    hide Enabled;
  }

  // ------------------------------------------------- splitting into several calls

  /** No response's executor parks its own call again. */
  ghost predicate NoEscapes(s: Snapshot, subs: seq<Submission>) {
    forall sub :: sub in subs && Judge(s, sub).op.Some? ==> !Escapes(Judge(s, sub).op.value)
  }

  lemma {:induction false} NeverEscapes(s: Snapshot, subs: seq<Submission>, n: nat)
    requires NoEscapes(s, subs) && n <= |subs|
    ensures !Respond(s, subs, n).escaped
  {
    hide Judge, Escapes;
    if n > 0 {
      NeverEscapes(s, subs, n - 1);
      assert subs[n - 1] in subs;
    }
  }

  lemma {:induction false} RespondSplit(s: Snapshot, t: Snapshot, a: seq<Submission>, b: seq<Submission>, n: nat)
    requires NoEscapes(s, a + b) && n <= |b|
    requires forall sub :: sub in b ==> Judge(t, sub).op == Judge(s, sub).op
    ensures Respond(s, a + b, |a| + n).ops == Respond(s, a, |a|).ops + Respond(t, b, n).ops
    ensures !Respond(t, b, n).escaped
  {
    hide Judge, Escapes;
    NeverEscapes(s, a + b, |a| + n);
    if n == 0 {
      RespondPrefix(s, a, b, |a|);
    } else {
      RespondSplit(s, t, a, b, n - 1);
      NeverEscapes(s, a + b, |a| + n - 1);
      assert (a + b)[|a| + n - 1] == b[n - 1];
      assert b[n - 1] in b && b[n - 1] in a + b;
    }
  }

  lemma {:induction false} RespondPrefix(s: Snapshot, a: seq<Submission>, b: seq<Submission>, n: nat)
    requires n <= |a|
    ensures Respond(s, a + b, n) == Respond(s, a, n)
  {
    hide Judge, Record;
    if n > 0 {
      RespondPrefix(s, a, b, n - 1);
      assert (a + b)[n - 1] == a[n - 1];
    }
  }

  /** Appending results does not change which call a request resolves to. */
  lemma {:induction false} FindToolCallStable(ms: seq<AgentMessage>, rs: seq<AgentMessage>, id: string)
    requires forall r :: r in rs ==> r.ToolResultMessage?
    ensures FindToolCall(ms + rs, id) == FindToolCall(ms, id)
  {
    if rs == [] {
      assert ms + rs == ms;
    } else {
      var init, last := rs[..|rs| - 1], rs[|rs| - 1];
      assert (ms + rs)[..|ms + rs| - 1] == ms + init;
      FindToolCallStable(ms, init, id);
      assert last in rs && CallsOf(last) == [];
    }
  }

  /** A later snapshot: the earlier responses are resolved, nothing is left to expire. */
  ghost predicate Later(s: Snapshot, t: Snapshot, settled: set<string>) {
    && t.requested == s.requested && t.tools == s.tools && t.limit == s.limit && t.justExpired == {}
    && t.resolved == s.resolved + s.justExpired + settled
    && (forall id :: FindToolCall(t.messages, id) == FindToolCall(s.messages, id))
  }

  /** It judges the responses to other requests to the same operations. */
  lemma LaterJudgesAlike(s: Snapshot, t: Snapshot, settled: set<string>, sub: Submission)
    requires Later(s, t, settled) && sub.requestId !in settled
    ensures Judge(t, sub).op == Judge(s, sub).op
  {
    hide FindToolCall;
  }

  ghost function ResolveInputsOn(w: World, subs: seq<Submission>, tools: map<string, AgentTool>, now: int,
                                 limit: Option<int>): World {
    PerformAll(w, ResolveOps(w.log, subs, tools, now, limit))
  }

  /** What a first call leaves for a later one that finds nothing to expire. */
  lemma SnapshotAfter(w: World, a: seq<Submission>, tools: map<string, AgentTool>, now: int, later: int,
                      limit: Option<int>)
    requires Inv(w) && DistinctSubmissions(a) && NoEscapes(TakeSnapshot(w.log, tools, now, limit), a)
    requires SweepOps(Pending(ResolveInputsOn(w, a, tools, now, limit).log), later) == []
    ensures var s := TakeSnapshot(w.log, tools, now, limit);
            var v := ResolveInputsOn(w, a, tools, now, limit);
            Later(s, TakeSnapshot(v.log, tools, later, limit), SettledIds(Respond(s, a, |a|).ops))
  {
    hide Inv, Pending, PerformAll, InTurn, Respond, Requests, ResolvedIds, RequestOrder, MessagesOf, SweepOps,
      FindToolCall, AllEnabled, DistinctRequests, ExpiryReason, Judge, Escapes;
    var s := TakeSnapshot(w.log, tools, now, limit);
    var sweep, answers := SweepOps(Pending(w.log), now), Respond(s, a, |a|).ops;
    var ops := sweep + answers;
    ResolvePlanLawful(w, a, tools, now, limit);
    SettleAll(w, ops);
    SweptIdsAre(w.log, now);
    assert SettledIds(ops) == SettledIds(sweep) + SettledIds(answers);
    var v := PerformAll(w, ops);
    SweptIdsAre(v.log, later);
    assert AllRunnable(ops) by { PlanRunnable(w, a, tools, now, limit); }
    SettleAllMessages(w, ops);
    assert WellFormed(w.log) by { InvLogs(w); }
    ResultIdsDistinct(w.log, ops);
    forall id ensures FindToolCall(MessagesOf(v.log), id) == FindToolCall(MessagesOf(w.log), id) {
      FindToolCallStable(MessagesOf(w.log), ResultsOfAll(ops), id);
    }
  }

  lemma InvLogs(w: World)
    requires Inv(w)
    ensures WellFormed(w.log)
  {
  }

  lemma PlanRunnable(w: World, a: seq<Submission>, tools: map<string, AgentTool>, now: int, limit: Option<int>)
    requires Inv(w) && DistinctSubmissions(a) && NoEscapes(TakeSnapshot(w.log, tools, now, limit), a)
    ensures AllRunnable(ResolveOps(w.log, a, tools, now, limit))
  {
    hide Inv, Pending, Respond, Requests, ResolvedIds, RequestOrder, MessagesOf, SweepOps, Judge, Escapes, Enabled;
    var s := TakeSnapshot(w.log, tools, now, limit);
    PendingDistinct(w.log);
    SweepIs(Pending(w.log), now);
    RespondOps(w.log, s, a, |a|);
    var answers := Respond(s, a, |a|).ops;
    forall i | 0 <= i < |answers| ensures Runnable(answers[i]) {
      assert answers[i] in answers;
      var j :| 0 <= j < |a| && ComesFrom(s, a[j], answers[i]);
      assert a[j] in a;
      EnabledApproveRuns(w.log, answers[i]);
    }
  }

  lemma EnabledApproveRuns(log: Log, op: Operation)
    requires Enabled(log, op) && Resolves(op) && !Escapes(op)
    ensures Runnable(op)
  {
  }

  /** One call with all the responses does what two calls do, if the second finds nothing
      to expire. */
  lemma SplitCall(w: World, a: seq<Submission>, b: seq<Submission>, tools: map<string, AgentTool>, now: int, later: int,
                  limit: Option<int>)
    requires Inv(w) && DistinctSubmissions(a + b) && NoEscapes(TakeSnapshot(w.log, tools, now, limit), a + b)
    requires SweepOps(Pending(ResolveInputsOn(w, a, tools, now, limit).log), later) == []
    ensures ResolveInputsOn(ResolveInputsOn(w, a, tools, now, limit), b, tools, later, limit)
         == ResolveInputsOn(w, a + b, tools, now, limit)
  {
    hide Inv, Pending, PerformAll, Respond, Requests, ResolvedIds, RequestOrder, MessagesOf, SweepOps, Judge, Escapes,
      TakeSnapshot, Later;
    var s := TakeSnapshot(w.log, tools, now, limit);
    assert forall i :: 0 <= i < |a| ==> a[i] == (a + b)[i] && a[i] in a + b;
    assert NoEscapes(s, a);
    SnapshotAfter(w, a, tools, now, later, limit);
    var v := ResolveInputsOn(w, a, tools, now, limit);
    var t := TakeSnapshot(v.log, tools, later, limit);
    var firsts := Respond(s, a, |a|).ops;
    assert s.requested == Requests(w.log) && s.resolved == ResolvedIds(w.log) by {
      SnapshotFields(w.log, tools, now, limit);
    }
    RespondOps(w.log, s, a, |a|);
    forall sub | sub in b ensures Judge(t, sub).op == Judge(s, sub).op {
      var k :| 0 <= k < |b| && b[k] == sub;
      assert (a + b)[|a| + k] == sub;
      forall op | op in firsts ensures RequestIdOf(op) != sub.requestId {
        var i :| 0 <= i < |a| && ComesFrom(s, a[i], op);
        JudgedIsEnabled(w.log, s, a[i]);
        assert (a + b)[i] == a[i];
      }
      LaterJudgesAlike(s, t, SettledIds(firsts), sub);
    }
    RespondSplit(s, t, a, b, |b|);
    var sweep := SweepOps(Pending(w.log), now);
    assert ResolveOps(w.log, a + b, tools, now, limit) == sweep + firsts + Respond(t, b, |b|).ops;
    assert ResolveOps(v.log, b, tools, later, limit) == [] + Respond(t, b, |b|).ops == Respond(t, b, |b|).ops;
    PerformConcat(w, sweep + firsts, Respond(t, b, |b|).ops);
  }

  lemma SnapshotFields(log: Log, tools: map<string, AgentTool>, now: int, limit: Option<int>)
    ensures var s := TakeSnapshot(log, tools, now, limit);
            s.requested == Requests(log) && s.resolved == ResolvedIds(log)
  {
  }

  /** One call of `resolve_inputs`: the clock it reads, and its responses. */
  datatype TimedCall = TimedCall(now: int, subs: seq<Submission>)

  function Flatten(calls: seq<TimedCall>): seq<Submission> {
    if calls == [] then [] else Flatten(calls[..|calls| - 1]) + calls[|calls| - 1].subs
  }

  /** Several calls, one after another. */
  ghost function ResolveCalls(w: World, calls: seq<TimedCall>, tools: map<string, AgentTool>,
                              limit: Option<int>): World {
    if calls == [] then w
    else
      var last := calls[|calls| - 1];
      ResolveInputsOn(ResolveCalls(w, calls[..|calls| - 1], tools, limit), last.subs, tools, last.now, limit)
  }

  /** No call but the first finds anything to expire. */
  ghost predicate QuietCalls(w: World, calls: seq<TimedCall>, tools: map<string, AgentTool>, limit: Option<int>) {
    |calls| <= 1 || (
      && QuietCalls(w, calls[..|calls| - 1], tools, limit)
      && SweepOps(Pending(ResolveCalls(w, calls[..|calls| - 1], tools, limit).log), calls[|calls| - 1].now) == [])
  }

  /** Then they are one call at the first one's time. */
  lemma {:induction false} CallsAreOne(w: World, calls: seq<TimedCall>, tools: map<string, AgentTool>,
                                       limit: Option<int>)
    requires calls != [] && Inv(w) && DistinctSubmissions(Flatten(calls)) && QuietCalls(w, calls, tools, limit)
    requires NoEscapes(TakeSnapshot(w.log, tools, calls[0].now, limit), Flatten(calls))
    ensures ResolveCalls(w, calls, tools, limit) == ResolveInputsOn(w, Flatten(calls), tools, calls[0].now, limit)
  {
    hide Inv, ResolveInputsOn, TakeSnapshot, Judge, Escapes, SweepOps, Pending;
    var init, last := calls[..|calls| - 1], calls[|calls| - 1];
    if init == [] {
      assert Flatten(calls) == [] + last.subs == last.subs;
    } else {
      var a := Flatten(init);
      assert forall i :: 0 <= i < |a| ==> a[i] == (a + last.subs)[i] && a[i] in a + last.subs;
      CallsAreOne(w, init, tools, limit);
      SplitCall(w, a, last.subs, tools, calls[0].now, last.now, limit);
    }
  }

  // --------------------------------------------- when a ttl runs out in between

  const SYSTEM := "system:expiry"

  /** How many requests the log says have expired. */
  function Expiries(log: Log): nat {
    if log == [] then 0
    else
      var e := log[|log| - 1];
      Expiries(log[..|log| - 1]) + if e.ResolvedEntry? && e.resolution.resolvedBy == SYSTEM then 1 else 0
  }

  lemma ExpiriesSnoc(log: Log, e: Entry)
    ensures Expiries(log + [e]) ==
            Expiries(log) + if e.ResolvedEntry? && e.resolution.resolvedBy == SYSTEM then 1 else 0
  {
    assert (log + [e])[..|log|] == log;
  }

  /** Nobody answers in the sweep's name. */
  ghost predicate NotTheSystem(subs: seq<Submission>) { forall s :: s in subs ==> s.response.resolvedBy != SYSTEM }

  lemma OneExpiry(w: World, op: Operation)
    requires Resolves(op)
    ensures Expiries(PerformAll(w, [op]).log) == Expiries(w.log) + if op.resolvedBy == SYSTEM then 1 else 0
  {
    hide ExecuteTool, Expiries;
    var acts, n := Actions(op), |Actions(op)|;
    assert [op][..0] == [] && PerformAll(w, [op]) == ActUpTo(w, acts, n);
    var w1 := Act(w, acts[0]);
    var w2 := Act(w1, acts[1]);
    assert ActUpTo(w, acts, 0) == w && ActUpTo(w, acts, 1) == w1;
    assert ActUpTo(w, acts, 2) == Act(ActUpTo(w, acts, 1), acts[1]) == w2;
    ExpiriesSnoc(w.log, acts[0].entry);
    ExpiriesSnoc(w1.log, acts[1].entry);
    if op.Approve? {
      var w3 := Act(w2, acts[2]);
      assert ActUpTo(w, acts, 3) == Act(ActUpTo(w, acts, 2), acts[2]) == w3;
      if n == 4 {
        ExpiriesSnoc(w3.log, acts[3].entry);
        assert ActUpTo(w, acts, 4) == Act(ActUpTo(w, acts, 3), acts[3]);
      }
    }
  }

  /** Operations of one kind: all of them expiries, or none. */
  lemma {:induction false} ManyExpiries(w: World, ops: seq<Operation>, swept: bool)
    requires forall op :: op in ops ==> Resolves(op) && (op.resolvedBy == SYSTEM <==> swept)
    ensures Expiries(PerformAll(w, ops).log) == Expiries(w.log) + if swept then |ops| else 0
  {
    hide Expiries, PerformAll, Resolves;
    if ops == [] {
      PerformNone(w);
    } else {
      var init, last := ops[..|ops| - 1], ops[|ops| - 1];
      assert last in ops && forall op :: op in init ==> op in ops;
      ManyExpiries(w, init, swept);
      PerformLast(w, ops);
      OneExpiry(PerformAll(w, init), last);
    }
  }

  lemma {:induction false} SweptBySystem(pending: seq<PendingInputRequest>, now: int)
    ensures forall op :: op in SweepOps(pending, now) ==> Resolves(op) && op.resolvedBy == SYSTEM
  {
    hide ExpiryReason;
    if pending != [] { SweptBySystem(pending[..|pending| - 1], now); }
  }

  lemma JudgedBy(s: Snapshot, sub: Submission)
    requires sub.response.resolvedBy != SYSTEM && Judge(s, sub).op.Some?
    ensures Resolves(Judge(s, sub).op.value) && Judge(s, sub).op.value.resolvedBy != SYSTEM
  {
    hide ResolveCall;
  }

  lemma {:induction false} AnsweredByOthers(s: Snapshot, subs: seq<Submission>, n: nat)
    requires NotTheSystem(subs) && n <= |subs|
    ensures forall op :: op in Respond(s, subs, n).ops ==> Resolves(op) && op.resolvedBy != SYSTEM
  {
    hide Judge, Escapes, Resolves;
    if n > 0 {
      AnsweredByOthers(s, subs, n - 1);
      assert subs[n - 1] in subs;
      if Judge(s, subs[n - 1]).op.Some? { JudgedBy(s, subs[n - 1]); }
    }
  }

  /** A call adds to the log as many expiries as it finds. */
  lemma CallExpiries(w: World, subs: seq<Submission>, tools: map<string, AgentTool>, now: int, limit: Option<int>)
    requires NotTheSystem(subs)
    ensures Expiries(ResolveInputsOn(w, subs, tools, now, limit).log)
            == Expiries(w.log) + |SweepOps(Pending(w.log), now)|
  {
    hide Expiries, PerformAll, Resolves, SweepOps, Pending, TakeSnapshot, Respond, NotTheSystem;
    var sweep, answers := SweepOps(Pending(w.log), now), Answers(w.log, subs, tools, now, limit).ops;
    SweptBySystem(Pending(w.log), now);
    AnsweredByOthers(TakeSnapshot(w.log, tools, now, limit), subs, |subs|);
    ManyExpiries(w, sweep, true);
    ManyExpiries(PerformAll(w, sweep), answers, false);
    PerformConcat(w, sweep, answers);
  }

  lemma {:induction false} CallsExpiries(w: World, calls: seq<TimedCall>, tools: map<string, AgentTool>,
                                         limit: Option<int>)
    requires calls != [] && NotTheSystem(Flatten(calls))
    ensures var found := Expiries(ResolveCalls(w, calls, tools, limit).log);
            var first := Expiries(w.log) + |SweepOps(Pending(w.log), calls[0].now)|;
            found >= first && (found == first <==> QuietCalls(w, calls, tools, limit))
  {
    hide Expiries, SweepOps, Pending, ResolveInputsOn;
    var init, last := calls[..|calls| - 1], calls[|calls| - 1];
    var u := ResolveCalls(w, init, tools, limit);
    assert NotTheSystem(last.subs) && NotTheSystem(Flatten(init)) by { SubsOf(Flatten(init), last.subs); }
    if init != [] { CallsExpiries(w, init, tools, limit); }
    CallExpiries(u, last.subs, tools, last.now, limit);
  }

  lemma SubsOf(a: seq<Submission>, b: seq<Submission>)
    requires NotTheSystem(a + b)
    ensures NotTheSystem(a) && NotTheSystem(b)
  {
    assert forall s :: s in a || s in b ==> s in a + b;
  }

  /** Calls are one call at the first one's time if and only if no later call finds
      anything to expire. */
  lemma CallsAreOneIff(w: World, calls: seq<TimedCall>, tools: map<string, AgentTool>, limit: Option<int>)
    requires calls != [] && Inv(w) && DistinctSubmissions(Flatten(calls)) && NotTheSystem(Flatten(calls))
    requires NoEscapes(TakeSnapshot(w.log, tools, calls[0].now, limit), Flatten(calls))
    ensures ResolveCalls(w, calls, tools, limit) == ResolveInputsOn(w, Flatten(calls), tools, calls[0].now, limit)
       <==> QuietCalls(w, calls, tools, limit)
  {
    hide Inv, ResolveInputsOn, TakeSnapshot, Expiries, NotTheSystem, QuietCalls, ResolveCalls, NoEscapes, SweepOps,
      Pending;
    if QuietCalls(w, calls, tools, limit) { CallsAreOne(w, calls, tools, limit); }
    CallsExpiries(w, calls, tools, limit);
    CallExpiries(w, Flatten(calls), tools, calls[0].now, limit);
  }

  lemma {:induction false} NothingToSweep(pending: seq<PendingInputRequest>, now: int)
    requires forall r :: r in pending ==> !Expired(r, now)
    ensures SweepOps(pending, now) == []
  {
    if pending != [] { NothingToSweep(pending[..|pending| - 1], now); }
  }

  /** No request pending at the start expires between the first call and another. */
  ghost predicate NothingExpires(log: Log, calls: seq<TimedCall>) {
    forall r, c :: r in Pending(log) && c in calls && Expired(r, c.now) ==> Expired(r, calls[0].now)
  }

  /** After the first call the requests that had expired are resolved, and stay so. */
  lemma {:induction false} CallsResolve(w: World, calls: seq<TimedCall>, tools: map<string, AgentTool>,
                                        limit: Option<int>)
    requires Inv(w) && DistinctSubmissions(Flatten(calls))
    ensures var v := ResolveCalls(w, calls, tools, limit);
            && Inv(v) && Requests(v.log) == Requests(w.log) && ResolvedIds(w.log) <= ResolvedIds(v.log)
            && (calls != [] ==> SweptIds(w.log, calls[0].now) <= ResolvedIds(v.log))
  {
    hide Inv, Requests, ResolvedIds, Pending, SweepOps, Respond, TakeSnapshot, PerformAll, DistinctRequests, AllEnabled,
      InTurn, Expired;
    if calls != [] {
      var init, last := calls[..|calls| - 1], calls[|calls| - 1];
      var a := Flatten(init);
      assert forall i :: 0 <= i < |a| ==> a[i] == (a + last.subs)[i];
      assert forall i :: 0 <= i < |last.subs| ==> last.subs[i] == (a + last.subs)[|a| + i];
      CallsResolve(w, init, tools, limit);
      var u := ResolveCalls(w, init, tools, limit);
      ResolvePlanLawful(u, last.subs, tools, last.now, limit);
      SettleAll(u, ResolveOps(u.log, last.subs, tools, last.now, limit));
      SweptIdsAre(u.log, last.now);
    }
  }

  /** So no call but the first finds anything to expire. */
  lemma {:induction false} NothingExpiresQuiet(w: World, calls: seq<TimedCall>, tools: map<string, AgentTool>,
                                               limit: Option<int>)
    requires calls != [] && Inv(w) && DistinctSubmissions(Flatten(calls)) && NothingExpires(w.log, calls)
    ensures QuietCalls(w, calls, tools, limit)
  {
    hide Inv, Requests, ResolvedIds, Pending, SweepOps, Expired, ResolveCalls;
    var init, last := calls[..|calls| - 1], calls[|calls| - 1];
    if init != [] {
      var a := Flatten(init);
      assert forall i :: 0 <= i < |a| ==> a[i] == (a + last.subs)[i];
      assert last in calls && forall c :: c in init ==> c in calls;
      NothingExpiresQuiet(w, init, tools, limit);
      CallsResolve(w, init, tools, limit);
      var v, first := ResolveCalls(w, init, tools, limit), calls[0].now;
      assert first == init[0].now;
      forall r | r in Pending(v.log) ensures !Expired(r, last.now) {
        PendingIff(v.log, r);
        PendingIff(w.log, r);
        assert Expired(r, first) ==> r.id in SweptIds(w.log, first);
      }
      NothingToSweep(Pending(v.log), last.now);
    }
  }

  lemma AnswersSame(w: World, a: seq<Submission>, b: seq<Submission>, tools: map<string, AgentTool>, now: int,
                    limit: Option<int>)
    requires Inv(w) && DistinctSubmissions(a) && DistinctSubmissions(b)
    requires forall sub :: sub in a ==> sub in b
    requires NoEscapes(TakeSnapshot(w.log, tools, now, limit), b)
    ensures forall op :: op in ResolveOps(w.log, a, tools, now, limit) ==> op in ResolveOps(w.log, b, tools, now, limit)
  {
    hide Inv, Pending, Respond, Requests, ResolvedIds, RequestOrder, MessagesOf, SweepOps, Judge, Escapes, TakeSnapshot;
    var s := TakeSnapshot(w.log, tools, now, limit);
    SnapshotFields(w.log, tools, now, limit);
    RespondOps(w.log, s, a, |a|);
    RespondOps(w.log, s, b, |b|);
    NeverEscapes(s, b, |b|);
    forall op | op in Respond(s, a, |a|).ops ensures op in Respond(s, b, |b|).ops {
      var i :| 0 <= i < |a| && ComesFrom(s, a[i], op);
      assert a[i] in a;
      var j :| 0 <= j < |b| && b[j] == a[i];
    }
  }

  /** Times at which the same is swept make the same plan. */
  lemma SameSweepSamePlan(w: World, subs: seq<Submission>, tools: map<string, AgentTool>, now: int, later: int,
                          limit: Option<int>)
    requires SweepOps(Pending(w.log), now) == SweepOps(Pending(w.log), later)
    ensures ResolveOps(w.log, subs, tools, now, limit) == ResolveOps(w.log, subs, tools, later, limit)
    ensures TakeSnapshot(w.log, tools, now, limit) == TakeSnapshot(w.log, tools, later, limit)
  {
    hide Pending, SweepOps, Respond, Requests, ResolvedIds, MessagesOf;
    SweptIdsAre(w.log, now);
    SweptIdsAre(w.log, later);
  }

  /** Confluence of resolutions: the same responses to the same parked requests, in any
      order and grouped into any calls, leave the same pending set and the same provider
      context, if the first calls expire the same and later ones find nothing to expire. */
  lemma ResolutionsConfluent(w: World, xs: seq<TimedCall>, ys: seq<TimedCall>, tools: map<string, AgentTool>,
                             limit: Option<int>)
    requires Inv(w) && xs != [] && ys != [] && QuietCalls(w, xs, tools, limit) && QuietCalls(w, ys, tools, limit)
    requires SweepOps(Pending(w.log), xs[0].now) == SweepOps(Pending(w.log), ys[0].now)
    requires DistinctSubmissions(Flatten(xs)) && DistinctSubmissions(Flatten(ys))
    requires forall sub :: sub in Flatten(xs) <==> sub in Flatten(ys)
    requires NoEscapes(TakeSnapshot(w.log, tools, xs[0].now, limit), Flatten(xs))
    ensures var a, b := ResolveCalls(w, xs, tools, limit), ResolveCalls(w, ys, tools, limit);
            Pending(a.log) == Pending(b.log) && ProviderContext(MessagesOf(a.log)) == ProviderContext(MessagesOf(b.log))
  {
    hide Inv, Pending, PerformAll, TakeSnapshot, Judge, Escapes, ProviderContext, ResolveOps, Flatten, ResolveCalls,
      AllEnabled, DistinctRequests, InTurn, AllRunnable, QuietCalls, SweepOps;
    var a, b, now := Flatten(xs), Flatten(ys), xs[0].now;
    SameSweepSamePlan(w, b, tools, now, ys[0].now, limit);
    CallsAreOne(w, xs, tools, limit);
    CallsAreOne(w, ys, tools, limit);
    ResolvePlanLawful(w, a, tools, now, limit);
    ResolvePlanLawful(w, b, tools, now, limit);
    PlanRunnable(w, a, tools, now, limit);
    AnswersSame(w, a, b, tools, now, limit);
    AnswersSame(w, b, a, tools, now, limit);
    SettlementConfluent(w, ResolveOps(w.log, a, tools, now, limit), ResolveOps(w.log, b, tools, now, limit));
  }
}
