/** What a climb up a chain of parked sessions does to each ancestor: one resolution
    and one result each, and no resumption before its last child is done. */
module ChainSafety {
  import opened Messages
  import opened Events
  import opened RepairCanonical
  import opened SessionLog
  import opened Protocol
  import opened ResumePlan
  import opened Settlement
  import opened Readiness
  import opened Store
  import opened Runtime

  /** A session durably parked on a call's child: exactly its request is pending for the call. */
  ghost predicate ParkedOn(log: Log, r: PendingInputRequest, toolCallId: string) {
    WellFormed(log) && IsPending(log, r) && r.kind.ChildSession? && r.toolCallId == toolCallId
  }

  lemma {:induction false} ParkForFinds(pending: seq<PendingInputRequest>, r: PendingInputRequest)
    requires r in pending && r.kind.ChildSession?
    requires forall q :: q in pending && q.toolCallId == r.toolCallId ==> q == r
    ensures ParkFor(pending, r.toolCallId) == Some(r)
  {
    if pending[0] != r { ParkForFinds(pending[1..], r); }
  }

  /** The park is found. */
  lemma ParkFound(log: Log, r: PendingInputRequest, toolCallId: string)
    requires ParkedOn(log, r, toolCallId)
    ensures ParkFor(Pending(log), toolCallId) == Some(r)
  {
    hide WellFormed, Pending;
    PendingIff(log, r);
    forall q | q in Pending(log) && q.toolCallId == r.toolCallId ensures q == r {
      PendingIff(log, q);
      ParkedOnce(log, q.id, r.id);
    }
    ParkForFinds(Pending(log), r);
  }

  /** The result that tells a parent how its child ended: the text of its last message; an
      error with what went wrong, if that message failed or was aborted; nothing, if the
      child's last message is not the model's. */
  ghost predicate TellsEnd(m: AgentMessage, r: PendingInputRequest, child: seq<AgentMessage>) {
    && m.ToolResultMessage? && m.toolCallId == r.toolCallId && m.toolName == r.toolName
    && if child == [] || !child[|child| - 1].AssistantMessage? then !m.isError && m.content == []
       else
         var last := child[|child| - 1];
         if last.stopReason.Error? || last.stopReason.Aborted? then
           && m.isError
           && MediaText(m.content) ==
              if last.errorMessage.Some? && last.errorMessage.value != "" then last.errorMessage.value
              else if last.stopReason.Aborted? then "delegation aborted"
              else "subagent run failed"
         else !m.isError && MediaText(m.content) == AssistantText(last.blocks)
  }

  /** A child's completion gives its parent exactly one new resolution, an approval of the
      park, and one result, for the delegation call, that tells how the child ended; all
      else stays as it was. */
  lemma CompletionSettlesPark(log: Log, r: PendingInputRequest, childId: string, toolCallId: string,
                              childMessages: seq<AgentMessage>)
    requires ParkedOn(log, r, toolCallId)
    ensures var entries := CompletionEntries(log, childId, toolCallId, childMessages);
            var after := log + entries;
            && |entries| == 2 && IsApprovalOf(entries[0], r.id)
            && entries[1].MessageEntry? && entries[1].message.ToolResultMessage?
            && entries[1].message.toolCallId == toolCallId && TellsEnd(entries[1].message, r, childMessages)
            && WellFormed(after) && HasResult(after, toolCallId)
            && (forall q :: IsPending(after, q) <==> IsPending(log, q) && q != r)
            && MessagesOf(after) == MessagesOf(log) + [entries[1].message]
  {
    hide WellFormed, Pending, Requests, ResolvedIds, MessagesOf, RequestOrder;
    ParkFound(log, r, toolCallId);
    var entries := CompletionEntries(log, childId, toolCallId, childMessages);
    var first, second := log + [entries[0]], (log + [entries[0]]) + [entries[1]];
    assert log + entries == second;
    ChildResultAnswers(r, childMessages);
    AfterResolution(log, r, Approved, "system:child:" + childId, None);
    ResultLegal(first, entries[1].message);
    WellFormedNext(first, entries[1]);
    AppendDerived(log, entries[0]);
    AppendDerived(first, entries[1]);
    ResultMapAppend(MessagesOf(first), entries[1].message);
    assert ResolvedIds(second) == ResolvedIds(log) + {r.id};
    assert forall q :: IsPending(log, q) && q.id == r.id ==> q == r;
  }

  lemma WellFormedNext(log: Log, e: Entry)
    requires WellFormed(log) && Legal(log, e)
    ensures WellFormed(log + [e])
  {
    assert (log + [e])[..|log|] == log;
  }

  lemma ChildResultAnswers(r: PendingInputRequest, childMessages: seq<AgentMessage>)
    ensures var m := ChildResult(r, childMessages); m.ToolResultMessage? && m.toolCallId == r.toolCallId
    ensures TellsEnd(ChildResult(r, childMessages), r, childMessages)
  {
    hide AssistantText;
    assert MediaText([]) == "";
    forall text ensures MediaText([TextBlock(text)]) == text { assert [TextBlock(text)][1..] == []; }
  }

  /** A parent with several parked children is resumed only after the last of them. */
  lemma OthersStillAwaited(log: Log, r: PendingInputRequest, q: PendingInputRequest, childId: string,
                           toolCallId: string, childMessages: seq<AgentMessage>)
    requires ParkedOn(log, r, toolCallId) && IsPending(log, q) && q != r
    ensures !ReadyToContinue(log + CompletionEntries(log, childId, toolCallId, childMessages))
  {
    hide WellFormed, Pending, IsPending, CompletionEntries;
    CompletionSettlesPark(log, r, childId, toolCallId, childMessages);
    PendingIff(log + CompletionEntries(log, childId, toolCallId, childMessages), q);
  }

  /** ... and then it is: when the session was partitioned, as a run that parks leaves it. */
  lemma LastChildMakesReady(log: Log, r: PendingInputRequest, childId: string, toolCallId: string,
                            childMessages: seq<AgentMessage>)
    requires ParkedOn(log, r, toolCallId) && Partitioned(log)
    ensures var after := log + CompletionEntries(log, childId, toolCallId, childMessages);
            && Partitioned(after)
            && (ReadyToContinue(after) <==> forall q :: IsPending(log, q) ==> q == r)
  {
    hide WellFormed, Pending, IsPending, CompletionEntries, MessagesOf, LastCalls, ResultMap, ReadyToContinue;
    var after := log + CompletionEntries(log, childId, toolCallId, childMessages);
    CompletionSettlesPark(log, r, childId, toolCallId, childMessages);
    var m := CompletionEntries(log, childId, toolCallId, childMessages)[1].message;
    LastCallsOfResults(MessagesOf(log), [m]);
    forall c | c in LastCalls(MessagesOf(after)) ensures HasResult(after, c.id) <==> !Awaited(after, c.id) {
      ResultMapAppend(MessagesOf(log), m);
      AwaitedUnless(log, after, r, c.id);
    }
    ReadyIffNonePending(after);
    assert Pending(after) == [] <==> forall q :: IsPending(log, q) ==> q == r by {
      forall q ensures q in Pending(after) <==> IsPending(log, q) && q != r { PendingIff(after, q); }
      NoneMeansEmpty(Pending(after));
    }
  }

  lemma AwaitedUnless(log: Log, after: Log, r: PendingInputRequest, id: string)
    requires WellFormed(log) && IsPending(log, r) && forall q :: IsPending(after, q) <==> IsPending(log, q) && q != r
    ensures Awaited(after, id) <==> Awaited(log, id) && id != r.toolCallId
  {
    hide WellFormed;
    if Awaited(log, id) && id != r.toolCallId {
      var q :| IsPending(log, q) && q.toolCallId == id;
      assert IsPending(after, q);
    }
    if Awaited(after, id) {
      var q :| IsPending(after, q) && q.toolCallId == id;
      if id == r.toolCallId { ParkedOnce(log, q.id, r.id); }
    }
  }

  // ------------------------------------------------------------ a whole climb

  /** The ancestors on a path are durably parked on the sessions below them. */
  ghost predicate AllParked(sessions: map<string, SessionRecord>, logs: map<string, Log>, path: seq<string>,
                            parks: seq<PendingInputRequest>)
    requires Upward(sessions, path) && forall id :: id in path ==> id in logs
  {
    |parks| == |path| && forall i: nat :: 0 < i < |path| ==> ParkedAbove(sessions, logs, path, parks[i], i)
  }

  ghost predicate ParkedAbove(sessions: map<string, SessionRecord>, logs: map<string, Log>, path: seq<string>,
                              park: PendingInputRequest, i: nat)
    requires 0 < i < |path| && Upward(sessions, path) && forall id :: id in path ==> id in logs
  {
    && sessions[path[i - 1]].parentToolCallId.Some?
    && ParkedOn(logs[path[i]], park, sessions[path[i - 1]].parentToolCallId.value)
  }

  /** Every ancestor a climb steps into has, between its log as it was and its run, exactly
      the resolution of its park and one matching result, and was ready by then; so it
      was parked on nothing else. */
  lemma AncestorSettledOnce(sessions: map<string, SessionRecord>, logs: map<string, Log>, cs: string -> Continuation,
                            leaf: string, path: seq<string>, above: Option<string>, parks: seq<PendingInputRequest>,
                            i: nat)
    requires Chain(sessions, logs, cs, leaf, path, above) && 0 < i < |Top(path, above)|
    requires AllParked(sessions, logs, Top(path, above), parks)
    ensures var top := Top(path, above);
            var before := BeforeResume(sessions, logs, cs, top[..i + 1]);
            && |before| == |logs[top[i]]| + 2 && logs[top[i]] == before[..|logs[top[i]]|]
            && IsApprovalOf(before[|before| - 2], parks[i].id)
            && before[|before| - 1].MessageEntry? && before[|before| - 1].message.ToolResultMessage?
            && before[|before| - 1].message.toolCallId == parks[i].toolCallId
            && WellFormed(before) && !IsPending(before, parks[i]) && HasResult(before, parks[i].toolCallId)
            && (i < |path| ==> ReadyToContinue(before) && forall q :: IsPending(logs[top[i]], q) ==> q == parks[i])
  {
    hide ReadyToContinue, CompletionEntries, MessagesOf, WellFormed, ContinuedEntries, IsPending, HasResult;
    var top := Top(path, above);
    var sub := top[..i + 1];
    UpwardPrefix(sessions, top, i + 1);
    UpwardPrefix(sessions, top, i);
    assert ParkedAbove(sessions, logs, top, parks[i], i);
    assert sub[..|sub| - 1] == top[..i];
    var below := top[..i];
    var childMessages := MessagesOf(AfterResume(sessions, logs, cs, below));
    var callId := sessions[top[i - 1]].parentToolCallId.value;
    CompletionSettlesPark(logs[top[i]], parks[i], top[i - 1], callId, childMessages);
    assert BeforeResume(sessions, logs, cs, sub)
           == logs[top[i]] + CompletionEntries(logs[top[i]], top[i - 1], callId, childMessages);
    if i < |path| {
      assert sub == path[..i + 1];
      forall q | IsPending(logs[top[i]], q) ensures q == parks[i] {
        if q != parks[i] { OthersStillAwaited(logs[top[i]], parks[i], q, top[i - 1], callId, childMessages); }
      }
    }
  }

  /** ... and that result tells how the session below it ended. */
  lemma AncestorTold(sessions: map<string, SessionRecord>, logs: map<string, Log>, cs: string -> Continuation,
                     top: seq<string>, park: PendingInputRequest, i: nat)
    requires 0 < i < |top| && Upward(sessions, top) && sessions.Keys == logs.Keys
    requires ParkedAbove(sessions, logs, top, park, i) && Upward(sessions, top[..i]) && Upward(sessions, top[..i + 1])
    ensures var before := BeforeResume(sessions, logs, cs, top[..i + 1]);
            && before != [] && before[|before| - 1].MessageEntry?
            && TellsEnd(before[|before| - 1].message, park, MessagesOf(AfterResume(sessions, logs, cs, top[..i])))
  {
    hide CompletionEntries, MessagesOf, WellFormed, ContinuedEntries, IsPending, HasResult, TellsEnd;
    var below := top[..i];
    assert top[..i + 1][..i] == below;
    var childMessages := MessagesOf(AfterResume(sessions, logs, cs, below));
    CompletionSettlesPark(logs[top[i]], park, top[i - 1], sessions[top[i - 1]].parentToolCallId.value, childMessages);
  }

  /** No session appears twice on a path upward in a forest, so none is resumed twice. */
  lemma {:induction false} PathRises(sessions: map<string, SessionRecord>, ranks: map<string, nat>, path: seq<string>,
                                     i: nat, j: nat)
    requires Rooted(sessions, ranks) && Upward(sessions, path) && i < j < |path|
    ensures path[i] in sessions && path[j] in sessions && ranks[path[j]] < ranks[path[i]]
  {
    if j > i + 1 { PathRises(sessions, ranks, path, i, j - 1); }
    assert sessions[path[j - 1]].parentSessionId == Some(path[j]);
  }
}
