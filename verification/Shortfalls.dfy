/** Inputs at which a promise with a condition fails. */
module Shortfalls {
  import opened Messages
  import opened Events
  import opened Tools
  import opened ToolMatching
  import opened ToolHistory
  import opened RepairCounts
  import opened RepairCanonical
  import opened SessionLog
  import opened Protocol
  import opened ResumePlan
  import opened Settlement
  import opened Readiness
  import opened ResolveBatches
  import opened RepairAppend
  import opened Interruptions

  // --------------------------------------------- an answer one call too late

  const CALL := ToolCall("call_1", "ask", Opaque("{}"))
  const ASKS := AssistantMessage([Call(CALL)], ToolUse, None)

  /** A question that expires after a second. */
  const QUESTION := PendingInputRequest("request_1", Question, "call_1", "ask", Opaque("{}"), 0, Some(1))
  const ANSWER := Submission("request_1", AnswerResponse("ann", "yes"))

  const START := World([MessageEntry(ASKS)] + [RequestedEntry(QUESTION)], [])

  lemma OneMessage()
    ensures var log := [MessageEntry(ASKS)];
            && WellFormed(log) && Requests(log) == map[] && RequestOrder(log) == [] && ResolvedIds(log) == {}
            && MessagesOf(log) == [ASKS]
  {
    var log := [MessageEntry(ASKS)];
    assert log[..0] == [];
    assert [Call(CALL)][1..] == [] && BlockCalls([]) == [];
    assert CallsOf(ASKS) == [CALL];
    assert MessagesOf([]) == [] && CallIdSet([]) == {};
    assert WellFormed([]) && Legal([], MessageEntry(ASKS));
  }

  lemma Raised(log: Log, q: PendingInputRequest)
    requires q.id !in Requests(log)
    ensures var after := log + [RequestedEntry(q)];
            && after[..|log|] == log && Requests(after) == Requests(log)[q.id := q]
            && RequestOrder(after) == RequestOrder(log) + [q.id]
            && ResolvedIds(after) == ResolvedIds(log) && MessagesOf(after) == MessagesOf(log)
  {
    hide MessagesOf, Requests;
    AppendMessages(log, RequestedEntry(q));
    RaisedRequests(log, q);
  }

  lemma RaisedRequests(log: Log, q: PendingInputRequest)
    ensures Requests(log + [RequestedEntry(q)]) == Requests(log)[q.id := q]
  {
    AppendMessages(log, RequestedEntry(q));
  }

  lemma OneUnresolved(q: PendingInputRequest)
    ensures Unresolved([] + [q.id], map[][q.id := q], {}) == [q]
  {
    var ids, requests := [] + [q.id], map[][q.id := q];
    assert ids[..0] == [] && ids[0] == q.id;
    assert Unresolved([], requests, {}) == [];
  }

  lemma StartIsLegal()
    ensures Legal([MessageEntry(ASKS)], RequestedEntry(QUESTION))
  {
    hide CallsOf;
    OneMessage();
    assert [ASKS][..0] == [] && ResultMap([]) == map[];
  }

  lemma StartIs()
    ensures Inv(START) && Pending(START.log) == [QUESTION] && ResolvedIds(START.log) == {}
            && MessagesOf(START.log) == [ASKS]
    ensures Requests(START.log) == map["request_1" := QUESTION]
  {
    hide CallsOf, Legal, Requests, RequestOrder, ResolvedIds, MessagesOf, Unresolved;
    OneMessage();
    StartIsLegal();
    Raised([MessageEntry(ASKS)], QUESTION);
    OneUnresolved(QUESTION);
  }

  /** One operation that settles the question. */
  lemma Settled(op: Operation)
    requires (op.Deny? || op.Answer?) && op.request == QUESTION
    ensures var v := PerformAll(START, [op]);
            && Pending(v.log) == [] && MessagesOf(v.log) == [ASKS] + [ResultOf(op)]
            && ResultMap(MessagesOf(v.log)) == map["call_1" := ResultOf(op)]
  {
    hide MessagesOf, Pending, ResolvedIds, Requests, RequestOrder, PerformAll;
    StartIs();
    assert IsPending(START.log, QUESTION);
    SettleEffect(START, op);
    var v := PerformAll(START, [op]);
    forall r ensures r !in Pending(v.log) { PendingIff(v.log, r); }
    assert Pending(v.log) == [] by { NoneMeansEmpty(Pending(v.log)); }
    assert ([ASKS] + [ResultOf(op)])[..1] == [ASKS] && [ASKS][..0] == [] && ResultMap([]) == map[];
  }

  /** Answered in one call at time 0; or after an empty call at 0, in one at 2000. */
  lemma InTimeOrTooLate()
    ensures Inv(START)
    ensures var inTime := ResolveCalls(START, [TimedCall(0, [ANSWER])], map[], None);
            var tooLate := ResolveCalls(START, [TimedCall(0, []), TimedCall(2000, [ANSWER])], map[], None);
            && "call_1" in ResultMap(MessagesOf(inTime.log)) && "call_1" in ResultMap(MessagesOf(tooLate.log))
            && ResultMap(MessagesOf(inTime.log))["call_1"] == ResultOf(Answer(QUESTION, "ann", "yes"))
            && ResultMap(MessagesOf(tooLate.log))["call_1"] == ResultOf(Expiry(QUESTION, 2000))
  {
    hide MessagesOf, Pending, ResolvedIds, Requests, RequestOrder, PerformAll, ResultMap, ResolveInputsOn, ExpiryReason;
    StartIs();
    var answer, expiry := Answer(QUESTION, "ann", "yes"), Expiry(QUESTION, 2000);
    Settled(answer);
    Settled(expiry);
    PlansAre();
    assert ResolveInputsOn(START, [ANSWER], map[], 0, None) == PerformAll(START, [answer]);
    assert ResolveInputsOn(START, [], map[], 0, None) == START;
    assert ResolveInputsOn(START, [ANSWER], map[], 2000, None) == PerformAll(START, [expiry]);
    var one, two := [TimedCall(0, [ANSWER])], [TimedCall(0, []), TimedCall(2000, [ANSWER])];
    assert one[..0] == [] && two[..1][..0] == [] && two[..1][0] == TimedCall(0, []);
  }

  lemma Sweeps(now: int)
    ensures SweepOps([QUESTION], now) == if now >= 1000 then [Expiry(QUESTION, now)] else []
    ensures ExpiredAmong([QUESTION], now) == if now >= 1000 then [QUESTION] else []
  {
    hide ExpiryReason;
    assert [QUESTION][..0] == [];
    assert SweepOps([], now) == [] && ExpiredAmong([], now) == [];
  }

  lemma JudgedInTime()
    ensures ResolveOps(START.log, [ANSWER], map[], 0, None) == [Answer(QUESTION, "ann", "yes")]
    ensures ResolveOps(START.log, [], map[], 0, None) == []
  {
    hide MessagesOf, Pending, ResolvedIds, Requests;
    StartIs();
    Sweeps(0);
    var s := TakeSnapshot(START.log, map[], 0, None);
    assert IdSet([]) == {};
    assert Respond(s, [ANSWER], 0).ops == [];
    assert Judge(s, ANSWER) == Verdict(Some(Answer(QUESTION, "ann", "yes")), Resolved);
    assert Respond(s, [ANSWER], 1).ops == [] + [Answer(QUESTION, "ann", "yes")];
  }

  lemma JudgedTooLate()
    ensures ResolveOps(START.log, [ANSWER], map[], 2000, None) == [Expiry(QUESTION, 2000)]
  {
    hide MessagesOf, Pending, ResolvedIds, Requests, ExpiryReason;
    StartIs();
    Sweeps(2000);
    var s := TakeSnapshot(START.log, map[], 2000, None);
    assert [QUESTION][..0] == [] && RequestIds([]) == [];
    assert RequestIds([QUESTION]) == [] + ["request_1"] == ["request_1"];
    assert "request_1" in IdSet(["request_1"]);
    assert Respond(s, [ANSWER], 0).ops == [];
    assert Judge(s, ANSWER) == Verdict(None, Rejected("expired"));
  }

  lemma PlansAre()
    ensures ResolveInputsOn(START, [ANSWER], map[], 0, None) == PerformAll(START, [Answer(QUESTION, "ann", "yes")])
    ensures ResolveInputsOn(START, [], map[], 0, None) == START
    ensures ResolveInputsOn(START, [ANSWER], map[], 2000, None) == PerformAll(START, [Expiry(QUESTION, 2000)])
  {
    hide ResolveOps, ExpiryReason, PerformAll;
    JudgedInTime();
    JudgedTooLate();
    PerformNone(START);
  }

  // ------------------------------------------- a decision without its result

  /** A crash right behind the recorded answer: nothing is pending, there is no window, and
      the session is not ready. */
  lemma AnswerWithoutResult()
    ensures var op := Answer(QUESTION, "ann", "yes");
            var log := ActUpTo(START, Actions(op), 1).log;
            && Inv(START) && Enabled(START.log, op)
            && !IsPending(log, QUESTION) && !IsWindow(log, QUESTION.id) && !ReadyToContinue(log)
  {
    hide MessagesOf, Pending, ResolvedIds, Requests, Inv;
    StartIs();
    var op := Answer(QUESTION, "ann", "yes");
    assert Enabled(START.log, op);
    CallAsked();
    DecisionWithoutResultStrands(START, op);
  }

  lemma CallAsked()
    ensures CALL in LastCalls([ASKS])
  {
    AsksOnce();
  }

  // ----------------------------------------------- an id called twice, unanswered

  lemma AsksOnce()
    ensures CallsOf(ASKS) == [CALL]
  {
    assert [Call(CALL)][1..] == [] && BlockCalls([]) == [];
  }

  /** One interruption is appended for the two calls, so repair has one to synthesize. */
  lemma RepeatedIdStaysOpen()
    ensures AppendedAll([ASKS, ASKS]) == [Interruption(CALL)]
    ensures Repair(AppendInterrupted([ASKS, ASKS])).synthesizedResults != 0
  {
    hide Repair, AppendInterrupted, Interruption, AppendedAll, CallsOf;
    AsksOnce();
    OneInterruption(ASKS, CALL);
    TwoCalls(ASKS, CALL);
    AppendSufficesIff([ASKS, ASKS]);
  }

  lemma TwoCalls(m: AgentMessage, c: ToolCall)
    requires CallsOf(m) == [c] && m.AssistantMessage?
    ensures |CallKeys([m, m], c.id)| >= 2 && ResultsOf([m, m], c.id) == {}
  {
    hide CallsOf, KeysBelow, CallKeys;
    CallAsKey(m, c, 0);
    CallAsKey(m, c, 1);
    var two := {Key(0, 1), Key(1, 1)};
    assert |two| == 2;
    SubsetCount(two, CallKeys([m, m], c.id));
  }

  lemma CallAsKey(m: AgentMessage, c: ToolCall, i: nat)
    requires CallsOf(m) == [c] && i < 2
    ensures Key(i, 1) in CallKeys([m, m], c.id)
  {
    hide CallsOf, KeysBelow;
    var ms := [m, m];
    assert ms[i] == m;
    KeysComplete(ms, 2, Key(i, 1));
  }

  lemma OneInterruption(m: AgentMessage, c: ToolCall)
    requires CallsOf(m) == [c] && m.AssistantMessage?
    ensures AppendedAll([m, m]) == [Interruption(c)]
  {
    hide CallsOf, AppendedAll, InterruptionsFor, ResultMap, AllCalls;
    AppendedAllIs([m, m]);
    CallsAndResults(m, c);
    OneOfTwo(c);
  }

  lemma CallsAndResults(m: AgentMessage, c: ToolCall)
    requires CallsOf(m) == [c] && m.AssistantMessage?
    ensures AllCalls([m, m]) == [c, c] && ResultMap([m, m]) == map[]
  {
    hide CallsOf;
    var ms := [m, m];
    assert ms[..1][..0] == [] && ms[..1][0] == m;
    assert AllCalls(ms[..1]) == AllCalls([]) + [c] == [c];
    assert AllCalls(ms) == [c] + [c] == [c, c];
    assert ResultMap(ms[..1]) == map[];
  }

  lemma OneOfTwo(c: ToolCall)
    ensures InterruptionsFor([c, c], map[]) == [Interruption(c)]
  {
    var calls, one := [c, c], Interruption(c);
    assert calls[..1][..0] == [] && calls[..1][0] == c && ResultMap([]) == map[];
    assert InterruptionsFor(calls[..0], map[]) == [];
    assert InterruptionsFor(calls[..1], map[]) == [] + [one];
    assert [one][..0] == [] && one.toolCallId == c.id;
    assert c.id in ResultMap([one]);
  }
}
