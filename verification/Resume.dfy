/** The resume write path on the store: every method appends exactly what its
    operation says, in order, to one session and nothing else. */
module Resume {
  import opened Messages
  import opened Events
  import opened Tools
  import opened RepairCanonical
  import opened SessionLog
  import opened Protocol
  import opened ResumePlan
  import opened Store

  // ------------------------------------------------------------ reading a log

  /** `derive_state`: one pass with a list, an ordered dictionary and a set. */
  method DeriveStateFrom(entries: Log) returns (state: DerivedState)
    ensures state == DeriveState(entries)
  {
    var messages: seq<AgentMessage>, requested: map<string, PendingInputRequest>, order: seq<string>,
      resolved: set<string> :=
      [], map[], [], {};
    for i := 0 to |entries|
      invariant messages == MessagesOf(entries[..i])
      invariant requested == Requests(entries[..i]) && order == RequestOrder(entries[..i])
      invariant resolved == ResolvedIds(entries[..i])
    {
      assert entries[..i + 1][..i] == entries[..i];
      match entries[i] {
        case MessageEntry(m) => messages := messages + [m];
        case RequestedEntry(r) =>
          if r.id !in requested { order := order + [r.id]; }
          requested := requested[r.id := r];
        case ResolvedEntry(res) => resolved := resolved + {res.requestId};
        case _ =>
      }
    }
    assert entries[..|entries|] == entries;
    var pending: seq<PendingInputRequest> := [];
    for i := 0 to |order|
      invariant pending == Unresolved(order[..i], requested, resolved)
    {
      assert order[..i + 1][..i] == order[..i];
      if order[i] !in resolved { pending := pending + [requested[order[i]]]; }
    }
    assert order[..|order|] == order;
    state := DerivedState(if pending != [] then Waiting else Idle, pending, messages);
  }

  method Rehydrate(store: SessionStore, id: string) returns (state: DerivedState)
    ensures state == DeriveState(store.LogOf(id))
  {
    var entries := store.Entries(id);
    state := DeriveStateFrom(entries);
  }

  /** `_load_request_index` */
  method LoadRequestIndex(entries: Log) returns (requested: map<string, PendingInputRequest>, resolved: set<string>)
    ensures requested == Requests(entries) && resolved == ResolvedIds(entries)
  {
    requested, resolved := map[], {};
    for i := 0 to |entries|
      invariant requested == Requests(entries[..i]) && resolved == ResolvedIds(entries[..i])
    {
      assert entries[..i + 1][..i] == entries[..i];
      match entries[i] {
        case RequestedEntry(r) => requested := requested[r.id := r];
        case ResolvedEntry(res) => resolved := resolved + {res.requestId};
        case _ =>
      }
    }
    assert entries[..|entries|] == entries;
  }

  lemma {:induction false} FoundEarlier(ms: seq<AgentMessage>, n: nat, id: string)
    requires n <= |ms| && FindToolCall(ms[..n], id).Some?
    ensures FindToolCall(ms, id) == FindToolCall(ms[..n], id)
  {
    if n < |ms| {
      assert ms[..|ms| - 1][..n] == ms[..n];
      FoundEarlier(ms[..|ms| - 1], n, id);
    } else {
      assert ms[..n] == ms;
    }
  }

  method FindCall(messages: seq<AgentMessage>, toolCallId: string) returns (found: Option<ToolCall>)
    ensures found == FindToolCall(messages, toolCallId)
  {
    hide CallsOf;
    for i := 0 to |messages|
      invariant FindToolCall(messages[..i], toolCallId) == None
    {
      assert messages[..i + 1][..i] == messages[..i];
      var calls := CallsOf(messages[i]);
      for j := 0 to |calls|
        invariant FindIn(calls, toolCallId) == FindIn(calls[j..], toolCallId)
      {
        if calls[j].id == toolCallId {
          FoundEarlier(messages, i + 1, toolCallId);
          return Some(calls[j]);
        }
      }
    }
    assert messages[..|messages|] == messages;
    found := None;
  }

  method ResultIds(messages: seq<AgentMessage>) returns (ids: set<string>)
    ensures ids == ResultMap(messages).Keys
  {
    ids := {};
    for i := 0 to |messages|
      invariant ids == ResultMap(messages[..i]).Keys
    {
      assert messages[..i + 1][..i] == messages[..i];
      if messages[i].ToolResultMessage? { ids := ids + {messages[i].toolCallId}; }
    }
    assert messages[..|messages|] == messages;
  }

  /** `_last_tool_calls_resolved` */
  method LastCallsResolved(messages: seq<AgentMessage>) returns (all: bool)
    ensures all == LastToolCallsResolved(messages)
  {
    hide CallsOf;
    var ids := ResultIds(messages);
    var last: seq<ToolCall> := [];
    for i := 0 to |messages|
      invariant last == LastCalls(messages[..i])
    {
      assert messages[..i + 1][..i] == messages[..i];
      if CallsOf(messages[i]) != [] { last := CallsOf(messages[i]); }
    }
    assert messages[..|messages|] == messages;
    all := true;
    for j := 0 to |last|
      invariant all <==> forall c :: c in last[..j] ==> c.id in ids
    {
      assert last[..j + 1] == last[..j] + [last[j]];
      if last[j].id !in ids { all := false; }
    }
    assert last[..|last|] == last;
  }

  method IsReadyToContinue(store: SessionStore, id: string) returns (ready: bool)
    ensures ready == ReadyToContinue(store.LogOf(id))
  {
    hide LastToolCallsResolved;
    var derived := Rehydrate(store, id);
    if derived.pendingRequests != [] { return false; }
    ready := LastCallsResolved(derived.messages);
  }

  // --------------------------------------------------------------- the writers

  /** An operation carried out to its end. */
  function Done(w: World, op: Operation): World {
    ActUpTo(w, Actions(op), |Actions(op)|)
  }

  lemma DoneTwo(w: World, op: Operation)
    requires |Actions(op)| == 2
    ensures Done(w, op) == Act(Act(w, Actions(op)[0]), Actions(op)[1])
  {
    var acts := Actions(op);
    assert ActUpTo(w, acts, 0) == w && ActUpTo(w, acts, 1) == Act(w, acts[0]);
  }

  lemma DoneThreeOrFour(w: World, op: Operation)
    requires |Actions(op)| in {3, 4}
    ensures var three := Act(Act(Act(w, Actions(op)[0]), Actions(op)[1]), Actions(op)[2]);
            Done(w, op) == if |Actions(op)| == 3 then three else Act(three, Actions(op)[3])
  {
    hide Actions;
    var acts := Actions(op);
    assert ActUpTo(w, acts, 0) == w && ActUpTo(w, acts, 1) == Act(w, acts[0]);
    assert ActUpTo(w, acts, 2) == Act(ActUpTo(w, acts, 1), acts[1]);
    assert ActUpTo(w, acts, 3) == Act(ActUpTo(w, acts, 2), acts[2]);
  }

  lemma PerformNext(w: World, ops: seq<Operation>, op: Operation)
    ensures PerformAll(w, ops + [op]) == Done(PerformAll(w, ops), op)
  {
    assert (ops + [op])[..|ops|] == ops;
  }

  /** A resolution and then a message: denial, answer and child completion. */
  method WriteTwo(store: SessionStore, id: string, ghost op: Operation, resolution: Entry, message: AgentMessage)
    requires store.Valid() && id in store.sessions
    requires Actions(op) == [Append(resolution), Append(MessageEntry(message))]
    modifies store
    ensures store.Valid() && store.OnlyWrote(id) && store.WorldOf(id) == Done(old(store.WorldOf(id)), op)
  {
    DoneTwo(store.WorldOf(id), op);
    var _ := store.AppendEntry(id, resolution);
    var _ := store.AppendEntry(id, MessageEntry(message));
  }

  /** `_write_denial` */
  method WriteDenial(store: SessionStore, id: string, request: PendingInputRequest, resolvedBy: string, reason: string)
    requires store.Valid() && id in store.sessions
    modifies store
    ensures store.Valid() && store.OnlyWrote(id)
    ensures store.WorldOf(id) == Done(old(store.WorldOf(id)), Deny(request, resolvedBy, reason))
  {
    WriteTwo(store, id, Deny(request, resolvedBy, reason), Resolution(request, Denied, resolvedBy, Some(reason)),
             ErrorText(request.toolCallId, request.toolName, "User denied: " + reason));
  }

  /** `write_child_completion` */
  method WriteChildCompletion(store: SessionStore, id: string, request: PendingInputRequest, resolvedBy: string,
                              result: AgentMessage)
    requires store.Valid() && id in store.sessions
    modifies store
    ensures store.Valid() && store.OnlyWrote(id)
    ensures store.WorldOf(id) == Done(old(store.WorldOf(id)), CompleteChild(request, resolvedBy, result))
  {
    WriteTwo(store, id, CompleteChild(request, resolvedBy, result), Resolution(request, Approved, resolvedBy, None),
             result);
  }

  /** `_sweep_expired` */
  method SweepExpired(store: SessionStore, id: string, pending: seq<PendingInputRequest>, now: int)
    returns (expired: seq<PendingInputRequest>)
    requires store.Valid() && (pending != [] ==> id in store.sessions)
    modifies store
    ensures store.Valid() && store.OnlyWrote(id)
    ensures store.WorldOf(id) == PerformAll(old(store.WorldOf(id)), SweepOps(pending, now))
    ensures expired == ExpiredAmong(pending, now)
  {
    hide ExpiryReason, Actions;
    expired := [];
    ghost var w := store.WorldOf(id);
    for i := 0 to |pending|
      invariant store.Valid() && store.OnlyWrote(id)
      invariant store.WorldOf(id) == PerformAll(w, SweepOps(pending[..i], now))
      invariant expired == ExpiredAmong(pending[..i], now)
    {
      assert pending[..i + 1][..i] == pending[..i];
      var request := pending[i];
      if request.ttlSeconds.Some? && request.createdAt + request.ttlSeconds.value * 1000 <= now {
        PerformNext(w, SweepOps(pending[..i], now), Expiry(request, now));
        WriteDenial(store, id, request, "system:expiry", ExpiryReason(request, now));
        expired := expired + [request];
      }
    }
    assert pending[..|pending|] == pending;
  }

  // -------------------------------------------------------------- the handlers

  /** What a handler is called with; the executor may park the call again, and then
      the handler does not return a disposition. */
  ghost predicate Handled(before: World, after: World, v: Verdict, d: Option<Disposition>) {
    && after == (if v.op.Some? then Done(before, v.op.value) else before)
    && d == (if v.op.Some? && Escapes(v.op.value) then None else Some(v.disposition))
  }

  /** The approve path: approval, start, and after the run its result. */
  method Approve3(store: SessionStore, id: string, request: PendingInputRequest, actor: string, note: Option<string>,
                  tool: AgentTool, call: ToolCall, limit: Option<int>) returns (escaped: bool)
    requires store.Valid() && id in store.sessions && tool.executor.Some?
    modifies store
    ensures store.Valid() && store.OnlyWrote(id)
    ensures store.WorldOf(id) == Done(old(store.WorldOf(id)), Approve(request, actor, note, tool, call, limit))
    ensures escaped == Escapes(Approve(request, actor, note, tool, call, limit))
  {
    hide ExecuteTool;
    ghost var op := Approve(request, actor, note, tool, call, limit);
    DoneThreeOrFour(store.WorldOf(id), op);
    var _ := store.AppendEntry(id, Resolution(request, Approved, actor, note));
    var _ := store.AppendEntry(id, Start(request));
    store.RecordRun(id, request.id, request.toolCallId, request.toolName, tool.idempotent, false);
    var execution := ExecuteTool(tool, call, limit);
    if execution.ParkedCall? { return true; }
    var _ := store.AppendEntry(id,
        MessageEntry(ResultMessage(request.toolCallId, request.toolName, execution.result, execution.isError)));
    escaped := false;
  }

  /** `_resolve_tool_approval` */
  method ResolveToolApproval(store: SessionStore, id: string, request: PendingInputRequest, response: Response,
                             s: Snapshot)
    returns (d: Option<Disposition>)
    requires store.Valid() && id in store.sessions && request.kind.ToolApproval?
    modifies store
    ensures store.Valid() && store.OnlyWrote(id)
    ensures Handled(old(store.WorldOf(id)), store.WorldOf(id), Handle(request, response, s), d)
  {
    hide Actions, ExecuteTool, FindToolCall;
    match response {
      case DenyResponse(actor, reason) =>
        WriteDenial(store, id, request, actor, reason);
        return Some(Resolved);
      case AnswerResponse(_, _) => return Some(Rejected("invalid_response_type"));
      case ApproveResponse(actor, note) =>
        if request.toolName !in s.tools || s.tools[request.toolName].executor.None? {
          WriteDenial(store, id, request, "system:revalidation", UnavailableReason(request.toolName));
          return Some(Invalidated);
        }
        var found := FindCall(s.messages, request.toolCallId);
        var call := if found.Some? then found.value
          else ToolCall(request.toolCallId, request.toolName, request.payload);
        var escaped := Approve3(store, id, request, actor, note, s.tools[request.toolName], call, s.limit);
        return if escaped then None else Some(Resolved);
    }
  }

  /** `_resolve_question` */
  method ResolveQuestion(store: SessionStore, id: string, request: PendingInputRequest, response: Response,
                         ghost s: Snapshot)
    returns (d: Option<Disposition>)
    requires store.Valid() && id in store.sessions && request.kind.Question?
    modifies store
    ensures store.Valid() && store.OnlyWrote(id)
    ensures Handled(old(store.WorldOf(id)), store.WorldOf(id), Handle(request, response, s), d)
  {
    match response {
      case DenyResponse(actor, reason) =>
        WriteDenial(store, id, request, actor, reason);
      case ApproveResponse(_, _) => return Some(Rejected("invalid_response_type"));
      case AnswerResponse(actor, text) =>
        WriteTwo(store, id, Answer(request, actor, text), Resolution(request, Approved, actor, None),
                 ToolResultMessage(request.toolCallId, request.toolName, [TextBlock(text)], NO_DETAILS, false));
    }
    d := Some(Resolved);
  }

  /** The registry of handlers by request kind. */
  method HandleResponse(store: SessionStore, id: string, request: PendingInputRequest, response: Response, s: Snapshot)
    returns (d: Option<Disposition>)
    requires store.Valid() && id in store.sessions
    modifies store
    ensures store.Valid() && store.OnlyWrote(id)
    ensures Handled(old(store.WorldOf(id)), store.WorldOf(id), Handle(request, response, s), d)
  {
    hide Done, Escapes, ResolveCall;
    match request.kind {
      case ToolApproval => d := ResolveToolApproval(store, id, request, response, s);
      case Question => d := ResolveQuestion(store, id, request, response, s);
      case ChildSession => d := Some(Rejected("child_session"));
      case Authorization => d := Some(Rejected("unsupported_kind:authorization"));
    }
  }

  // ------------------------------------------------------------- entry points

  lemma {:induction false} RequestsNeedEntries(store: SessionStore, id: string)
    requires store.Valid() && store.LogOf(id) != []
    ensures id in store.sessions
  {
    LogNeedsRow(store.rows, id);
  }

  lemma {:induction false} LogNeedsRow(rows: seq<Row>, id: string)
    requires LogIn(rows, id) != []
    ensures exists r :: r in rows && r.sessionId == id
  {
    var last := rows[|rows| - 1];
    if last.sessionId == id {
      assert last in rows;
    } else {
      LogNeedsRow(rows[..|rows| - 1], id);
      var r :| r in rows[..|rows| - 1] && r.sessionId == id;
      assert r in rows;
    }
  }

  /** One response: rejected outright, or handed to its request's handler. */
  method RespondTo(store: SessionStore, id: string, sub: Submission, s: Snapshot, ghost log: Log)
    returns (d: Option<Disposition>)
    requires store.Valid() && s.requested == Requests(log) && (log != [] ==> id in store.sessions)
    modifies store
    ensures store.Valid() && store.OnlyWrote(id)
    ensures Handled(old(store.WorldOf(id)), store.WorldOf(id), Judge(s, sub), d)
  {
    hide Handle, Done, Escapes;
    if sub.requestId !in s.requested { return Some(Rejected("unknown")); }
    if sub.requestId in s.justExpired { return Some(Rejected("expired")); }
    if sub.requestId in s.resolved { return Some(Rejected("already_resolved")); }
    d := HandleResponse(store, id, s.requested[sub.requestId], sub.response, s);
  }

  /** The loop over the responses, filling the outcome's lists. */
  method RespondAll(store: SessionStore, id: string, responses: seq<Submission>, s: Snapshot, ghost log: Log,
                    ghost w: World, ghost sweep: seq<Operation>) returns (b: Batch)
    requires store.Valid() && s.requested == Requests(log) && (log != [] ==> id in store.sessions)
    requires store.WorldOf(id) == PerformAll(w, sweep)
    modifies store
    ensures store.Valid() && store.OnlyWrote(id)
    ensures b.(ops := Respond(s, responses, |responses|).ops) == Respond(s, responses, |responses|)
    ensures store.WorldOf(id) == PerformAll(w, sweep + Respond(s, responses, |responses|).ops)
  {
    hide Requests, Judge, PerformAll, Escapes, Done, LogIn;
    var resolved: seq<string>, rejected: seq<Rejection>, invalidated: seq<string> := [], [], [];
    assert sweep + [] == sweep;
    for i := 0 to |responses|
      invariant store.Valid() && store.OnlyWrote(id)
      invariant Respond(s, responses, i) == Batch(Respond(s, responses, i).ops, resolved, rejected, invalidated, false)
      invariant store.WorldOf(id) == PerformAll(w, sweep + Respond(s, responses, i).ops)
    {
      ghost var ops, v := Respond(s, responses, i).ops, Judge(s, responses[i]);
      var d := RespondTo(store, id, responses[i], s, log);
      if v.op.Some? {
        PerformNext(w, sweep + ops, v.op.value);
        assert sweep + (ops + [v.op.value]) == (sweep + ops) + [v.op.value];
      }
      if d.None? {
        EscapedStays(s, responses, i + 1, |responses|);
        return Batch([], resolved, rejected, invalidated, true);
      }
      match d.value {
        case Resolved => resolved := resolved + [responses[i].requestId];
        case Invalidated => invalidated := invalidated + [responses[i].requestId];
        case Rejected(reason) => rejected := rejected + [Rejection(responses[i].requestId, reason)];
      }
    }
    b := Batch([], resolved, rejected, invalidated, false);
  }

  /** `resolve_inputs`: performs exactly its plan and reports it; an executor that
      parks its own approved call ends it there, without an outcome. */
  method ResolveInputs(store: SessionStore, id: string, responses: seq<Submission>, tools: map<string, AgentTool>,
                       now: int, limit: Option<int>) returns (outcome: Option<ResolveOutcome>)
    requires store.Valid()
    modifies store
    ensures store.Valid() && store.OnlyWrote(id)
    ensures var log := old(store.LogOf(id));
            store.WorldOf(id) == PerformAll(old(store.WorldOf(id)), ResolveOps(log, responses, tools, now, limit))
    ensures var log := old(store.LogOf(id));
            var b := Answers(log, responses, tools, now, limit);
            outcome == if b.escaped then None
                       else Some(ResolveOutcome(b.resolved, b.rejected, RequestIds(ExpiredAmong(Pending(log), now)),
                                                b.invalidated, ReadyToContinue(store.LogOf(id))))
  {
    hide Pending, Requests, ResolvedIds, MessagesOf, Judge, ExpiredAmong, SweepOps, PerformAll, ReadyToContinue,
      Escapes, Done, ResolveOps, Answers, TakeSnapshot, LogIn;
    var entries := store.Entries(id);
    ghost var log, w := entries, store.WorldOf(id);
    var requested, resolvedIds := LoadRequestIndex(entries);
    var derived := DeriveStateFrom(entries);
    if log != [] { RequestsNeedEntries(store, id); }
    NothingInEmpty();
    var justExpired := SweepExpired(store, id, derived.pendingRequests, now);
    var expired := IdsOf(justExpired);
    var s := Snapshot(requested, resolvedIds, IdSet(expired), derived.messages, tools, limit);
    PlanIs(log, responses, tools, now, limit, s);
    var b := RespondAll(store, id, responses, s, log, w, SweepOps(Pending(log), now));
    if b.escaped { return None; }
    var ready := IsReadyToContinue(store, id);
    outcome := Some(ResolveOutcome(b.resolved, b.rejected, expired, b.invalidated, ready));
  }

  lemma PlanIs(log: Log, subs: seq<Submission>, tools: map<string, AgentTool>, now: int, limit: Option<int>,
               s: Snapshot)
    requires s == Snapshot(Requests(log), ResolvedIds(log), IdSet(RequestIds(ExpiredAmong(Pending(log), now))),
                           MessagesOf(log), tools, limit)
    ensures Answers(log, subs, tools, now, limit) == Respond(s, subs, |subs|)
    ensures ResolveOps(log, subs, tools, now, limit) == SweepOps(Pending(log), now) + Respond(s, subs, |subs|).ops
  {
  }

  lemma NothingInEmpty()
    ensures Requests([]) == map[] && Pending([]) == []
  {
  }

  lemma {:induction false} EscapedStays(s: Snapshot, subs: seq<Submission>, n: nat, m: nat)
    requires n <= m <= |subs| && Respond(s, subs, n).escaped
    ensures Respond(s, subs, m) == Respond(s, subs, n)
  {
    hide Judge, Record;
    if n < m { EscapedStays(s, subs, n, m - 1); }
  }

  method IdsOf(requests: seq<PendingInputRequest>) returns (ids: seq<string>)
    ensures ids == RequestIds(requests)
  {
    ids := [];
    for i := 0 to |requests|
      invariant ids == RequestIds(requests[..i])
    {
      assert requests[..i + 1][..i] == requests[..i];
      ids := ids + [requests[i].id];
    }
    assert requests[..|requests|] == requests;
  }

  /** `expire_pending` */
  method ExpirePending(store: SessionStore, id: string, now: int) returns (expired: seq<PendingInputRequest>)
    requires store.Valid()
    modifies store
    ensures store.Valid() && store.OnlyWrote(id)
    ensures store.WorldOf(id) == PerformAll(old(store.WorldOf(id)), SweepOps(Pending(old(store.LogOf(id))), now))
    ensures expired == ExpiredAmong(Pending(old(store.LogOf(id))), now)
  {
    hide Pending, ExpiredAmong, SweepOps, PerformAll;
    if store.LogOf(id) != [] { RequestsNeedEntries(store, id); }
    NothingInEmpty();
    var derived := Rehydrate(store, id);
    expired := SweepExpired(store, id, derived.pendingRequests, now);
  }

  /** `current_state`: sweep, then derive. */
  method CurrentState(store: SessionStore, id: string, now: int) returns (state: DerivedState)
    requires store.Valid()
    modifies store
    ensures store.Valid() && store.OnlyWrote(id)
    ensures store.WorldOf(id) == PerformAll(old(store.WorldOf(id)), SweepOps(Pending(old(store.LogOf(id))), now))
    ensures state == DeriveState(store.LogOf(id))
  {
    var _ := ExpirePending(store, id, now);
    state := Rehydrate(store, id);
  }

  // --------------------------------------------------------------- crash repair

  /** `detect_crash_windows`: four collections from one pass, then the approvals in order. */
  method DetectCrashWindows(store: SessionStore, id: string) returns (windows: seq<CrashWindow>)
    ensures windows == Windows(store.LogOf(id))
  {
    var entries := store.Entries(id);
    var requests: map<string, PendingInputRequest>, starts: map<string, ExecutionStarted> := map[], map[];
    var approvals: set<string>, order: seq<string> := {}, [];
    var resultIds: set<string> := {};
    for i := 0 to |entries|
      invariant requests == Requests(entries[..i]) && starts == Starts(entries[..i])
      invariant approvals == Approvals(entries[..i]).Keys && order == ApprovalOrder(entries[..i])
      invariant resultIds == ResultMap(MessagesOf(entries[..i])).Keys
    {
      assert entries[..i + 1][..i] == entries[..i];
      match entries[i] {
        case RequestedEntry(r) => requests := requests[r.id := r];
        case ResolvedEntry(res) =>
          if res.decision.Approved? {
            if res.requestId !in approvals { order := order + [res.requestId]; }
            approvals := approvals + {res.requestId};
          }
        case StartedEntry(s) => starts := starts[s.requestId := s];
        case MessageEntry(m) =>
          ResultMapAppend(MessagesOf(entries[..i]), m);
          if m.ToolResultMessage? { resultIds := resultIds + {m.toolCallId}; }
        case OtherEntry(_) =>
      }
    }
    assert entries[..|entries|] == entries;
    windows := [];
    for i := 0 to |order|
      invariant windows == WindowsAmong(entries, order[..i])
    {
      assert order[..i + 1][..i] == order[..i];
      var requestId := order[i];
      if requestId in starts && starts[requestId].toolCallId !in resultIds
         && (requestId in requests ==> requests[requestId].kind.ToolApproval?)
      {
        windows := windows + [CrashWindow(requestId, starts[requestId].toolCallId, starts[requestId].toolName)];
      }
    }
    assert order[..|order|] == order;
  }

  /** One re-execution: start, run, result. */
  method RerunOne(store: SessionStore, id: string, w: CrashWindow, tool: AgentTool, call: ToolCall)
    returns (escaped: bool)
    requires store.Valid() && id in store.sessions && tool.executor.Some?
    modifies store
    ensures store.Valid() && store.OnlyWrote(id)
    ensures store.WorldOf(id) == Done(old(store.WorldOf(id)), Rerun(w, tool, call))
    ensures escaped == RerunEscapes(Rerun(w, tool, call))
  {
    hide ExecuteTool;
    ghost var op, before := Rerun(w, tool, call), store.WorldOf(id);
    ghost var acts := Actions(op);
    assert ActUpTo(before, acts, 0) == before && ActUpTo(before, acts, 1) == Act(before, acts[0]);
    assert ActUpTo(before, acts, 2) == Act(ActUpTo(before, acts, 1), acts[1]);
    var _ := store.AppendEntry(id, StartedEntry(ExecutionStarted(w.requestId, w.toolCallId, w.toolName)));
    store.RecordRun(id, w.requestId, w.toolCallId, w.toolName, tool.idempotent, true);
    var execution := ExecuteTool(tool, call, None);
    if execution.ParkedCall? { return true; }
    var _ := store.AppendEntry(id,
        MessageEntry(ResultMessage(w.toolCallId, w.toolName, execution.result, execution.isError)));
    escaped := false;
  }

  /** `repair_crash_windows`: performs exactly its plan and reports it. */
  method RepairCrashWindows(store: SessionStore, id: string, tools: map<string, AgentTool>)
    returns (report: Option<RepairReport>)
    requires store.Valid()
    modifies store
    ensures store.Valid() && store.OnlyWrote(id)
    ensures store.WorldOf(id) == PerformAll(old(store.WorldOf(id)), RepairOf(old(store.LogOf(id)), tools).ops)
    ensures report ==
            if RepairOf(old(store.LogOf(id)), tools).escaped then None
            else Some(RepairOf(old(store.LogOf(id)), tools).report)
  {
    hide Windows, MessagesOf, PerformAll, FindToolCall, Actions, ExecuteTool, Done, RerunEscapes, LogIn;
    ghost var log, w := store.LogOf(id), store.WorldOf(id);
    var windows := DetectCrashWindows(store, id);
    var derived := Rehydrate(store, id);
    var messages := derived.messages;
    if log != [] { RequestsNeedEntries(store, id); }
    NoWindowsInEmpty();
    assert PerformAll(w, []) == w by { PerformedNone(w); }
    var repaired: seq<CrashWindow>, needsOperator: seq<CrashWindow> := [], [];
    for i := 0 to |windows|
      invariant store.Valid() && store.OnlyWrote(id)
      invariant var p := PlanRepair(messages, tools, windows, i);
                !p.escaped && p.report == RepairReport(repaired, needsOperator)
                  && store.WorldOf(id) == PerformAll(w, p.ops)
    {
      var window := windows[i];
      if window.toolName in tools && tools[window.toolName].idempotent && tools[window.toolName].executor.Some? {
        var found := FindCall(messages, window.toolCallId);
        var call := if found.Some? then found.value else ToolCall(window.toolCallId, window.toolName, Opaque("{}"));
        PerformNext(w, PlanRepair(messages, tools, windows, i).ops, Rerun(window, tools[window.toolName], call));
        var escaped := RerunOne(store, id, window, tools[window.toolName], call);
        if escaped {
          EscapedRepairStays(messages, tools, windows, i + 1, |windows|);
          return None;
        }
        repaired := repaired + [window];
      } else {
        needsOperator := needsOperator + [window];
      }
    }
    report := Some(RepairReport(repaired, needsOperator));
  }

  lemma NoWindowsInEmpty()
    ensures Windows([]) == []
  {
  }

  lemma PerformedNone(w: World)
    ensures PerformAll(w, []) == w
  {
  }

  lemma {:induction false} EscapedRepairStays(ms: seq<AgentMessage>, tools: map<string, AgentTool>,
                                              ws: seq<CrashWindow>, n: nat, m: nat)
    requires n <= m <= |ws| && PlanRepair(ms, tools, ws, n).escaped
    ensures PlanRepair(ms, tools, ws, m) == PlanRepair(ms, tools, ws, n)
  {
    hide Rerunnable, Recovery, RerunEscapes;
    if n < m { EscapedRepairStays(ms, tools, ws, n, m - 1); }
  }

  /** `operator_skip`: one error result, named after the last start for the call. */
  method OperatorSkip(store: SessionStore, id: string, toolCallId: string, by_: string, reason: string)
    requires store.Valid() && id in store.sessions
    modifies store
    ensures store.Valid() && store.OnlyWrote(id)
    ensures store.WorldOf(id)
         == Done(old(store.WorldOf(id)),
                 Skip(toolCallId, StartedToolName(old(store.LogOf(id)), toolCallId), by_, reason))
  {
    var entries := store.Entries(id);
    var toolName := "unknown";
    for i := 0 to |entries|
      invariant toolName == StartedToolName(entries[..i], toolCallId)
    {
      assert entries[..i + 1][..i] == entries[..i];
      if entries[i].StartedEntry? && entries[i].started.toolCallId == toolCallId {
        toolName := entries[i].started.toolName;
      }
    }
    assert entries[..|entries|] == entries;
    ghost var w, op := store.WorldOf(id), Skip(toolCallId, toolName, by_, reason);
    assert ActUpTo(w, Actions(op), 0) == w;
    var _ := store.AppendEntry(id, Actions(Skip(toolCallId, toolName, by_, reason))[0].entry);
  }
}
