/** How a run leaves its session: lawfully extended, and when it parked, partitioned
    into answered and awaited calls. */
module RunParking {
  import opened Messages
  import opened StreamEvents
  import opened Events
  import opened ToolMatching
  import opened ToolHistory
  import opened RepairCanonical
  import opened RepairAppend
  import opened Decisions
  import opened ToolPhase
  import opened PhaseOutcomes
  import opened AgentLoop
  import opened SessionLog
  import opened Persistence
  import opened Protocol
  import opened Readiness
  import opened Harness
  import opened RunInvariants
  import opened RestartTransparency
  import opened RunLegality
  import Settlement

  ghost function ParkedIds(log: Log): set<string> {
    set id | id in Requests(log) :: Requests(log)[id].toolCallId
  }

  /** Calls that no request of the log has parked, and request ids that are new. */
  ghost predicate FreshTurn(cfg: LoopConfig, log: Log, s: TurnScript) {
    var phase, calls := PhaseConfigAt(cfg, s), CallsOf(AssistantOf(s));
    && Ids(calls) !! ParkedIds(log)
    && (forall c :: c in calls && AnswerOf(phase, c).Awaits? ==> AnswerOf(phase, c).request.id !in Requests(log))
    && (forall c, d ::
          c in calls && d in calls && c != d && AnswerOf(phase, c).Awaits? && AnswerOf(phase, d).Awaits? ==>
            AnswerOf(phase, c).request.id != AnswerOf(phase, d).request.id)
  }

  ghost predicate FreshRun(cfg: LoopConfig, log: Log, scripts: seq<TurnScript>) {
    forall i :: 0 <= i < |scripts| ==> FreshTurn(cfg, log, scripts[i])
  }

  // ------------------------------------------------- the turn that parked

  /** What the turn that parks a run adds to the transcript and to memory. */
  lemma ParkedTranscript(cfg: LoopConfig, logged: seq<AgentMessage>, u: LoopState, s: TurnScript)
    requires Terminals(s.stream) <= 1
    requires var m := AssistantOf(s);
             !m.stopReason.Error? && !m.stopReason.Aborted? && CallsOf(m) != [] && !s.cancelledAfterTools
               && TurnPhase(cfg, s).parked != []
    ensures var x := Respond(cfg, Ask(Deliver(u, s), s), s);
            && Transcript(logged, x) == (Transcript(logged, u) + u.pending + [AssistantOf(s)])
                 + Ended(TurnPhase(cfg, s).events)
            && x.messages == (u.messages + u.pending + [AssistantOf(s)]) + TurnPhase(cfg, s).results
  {
    hide CallsOf, AssistantOf, TurnPhase, TriageOf, Ended, AssistantEvents, ProviderContext;
    var d := Deliver(u, s);
    var a := Ask(d, s);
    var p, m := TurnPhase(cfg, s), AssistantOf(s);
    var x := Respond(cfg, a, s);
    EndedDelivered(u, s);
    EndedMore(logged, d.events, AssistantEvents(s));
    EndedAsk(s);
    EndedMore(logged, a.events, p.events);
    EndedSilent(logged, a.events + p.events, TurnEnd(m, p.results));
    EndedSilent(logged, (a.events + p.events) + [TurnEnd(m, p.results)],
                AgentEnd(WaitingInput, x.newMessages, p.parked));
    assert logged + (Ended(u.events) + u.pending) == (logged + Ended(u.events)) + u.pending;
  }

  ghost predicate AnswersInPhase(after: seq<AgentMessage>, p: Phase, calls: seq<ToolCall>) {
    forall c :: c in calls ==> (c.id in ResultMap(after) <==> HasReply(p, c))
  }

  /** After such a turn, the calls with a result are those the phase answered. */
  lemma AnswersAfter(cfg: LoopConfig, before: seq<AgentMessage>, s: TurnScript)
    requires FeasibleTurn(cfg, s) && CallsOf(AssistantOf(s)) != []
    requires var calls := CallsOf(AssistantOf(s));
             DistinctIds(calls) && AllParkOwnCalls(PhaseConfigAt(cfg, s), calls) && Ids(calls) !! KnownIds(before)
    ensures var m, p := AssistantOf(s), TurnPhase(cfg, s);
            && AnswersInPhase((before + [m]) + Ended(p.events), p, CallsOf(m))
            && AnswersInPhase((before + [m]) + p.results, p, CallsOf(m))
            && LastCalls((before + [m]) + Ended(p.events)) == CallsOf(m)
            && CallIdSet((before + [m]) + p.results) == CallIdSet(before) + Ids(CallsOf(m))
  {
    hide CallsOf, AssistantOf, Ended, PhaseOf, Feasible, AllParkOwnCalls, FreshCalls, SingleResults, NonResults,
      LastCalls;
    var m, p := AssistantOf(s), TurnPhase(cfg, s);
    var calls := CallsOf(m);
    PhaseResults(PhaseConfigAt(cfg, s), calls, s.arrivals);
    Snoc(before, m);
    forall c | c in calls
      ensures c.id in ResultMap((before + [m]) + Ended(p.events)) <==> HasReply(p, c)
      ensures c.id in ResultMap((before + [m]) + p.results) <==> HasReply(p, c)
    {
      assert c.id in Ids(calls);
      Settlement.ResultMapOfResults(before + [m], Ended(p.events), c.id);
      Settlement.ResultMapOfResults(before + [m], p.results, c.id);
    }
    LastCallsOfResults(before + [m], Ended(p.events));
    LastCallsSnoc(before, m);
    CallIdsOfResults(before + [m], p.results);
  }

  lemma LastCallsSnoc(ms: seq<AgentMessage>, m: AgentMessage)
    requires CallsOf(m) != []
    ensures LastCalls(ms + [m]) == CallsOf(m)
  {
    assert (ms + [m])[..|ms|] == ms;
  }

  lemma {:induction false} CallIdsOfResults(ms: seq<AgentMessage>, rs: seq<AgentMessage>)
    requires forall r :: r in rs ==> r.ToolResultMessage?
    ensures CallIdSet(ms + rs) == CallIdSet(ms)
  {
    hide CallsOf;
    if rs == [] {
      assert ms + rs == ms;
    } else {
      var init, last := rs[..|rs| - 1], rs[|rs| - 1];
      assert ms + rs == (ms + init) + [last];
      CallIdsOfResults(ms, init);
      Snoc(ms + init, last);
      ResultsHaveNoCalls(last);
    }
  }

  /** The parked requests are new, each for its own unanswered call. */
  lemma ParkedAreNew(cfg: LoopConfig, log: Log, mid: Log, s: TurnScript)
    requires FeasibleTurn(cfg, s) && FreshTurn(cfg, log, s) && Requests(mid) == Requests(log)
    requires var calls := CallsOf(AssistantOf(s)); DistinctIds(calls) && AllParkOwnCalls(PhaseConfigAt(cfg, s), calls)
    requires AnswersInPhase(MessagesOf(mid), TurnPhase(cfg, s), CallsOf(AssistantOf(s)))
    ensures NewRequests(mid, TurnPhase(cfg, s).parked)
  {
    hide CallsOf, AssistantOf, PhaseOf, Feasible, AnswerOf, Heard, Requests, ResultMap, MessagesOf, HasReply,
      DistinctIds;
    var phase, calls, p := PhaseConfigAt(cfg, s), CallsOf(AssistantOf(s)), TurnPhase(cfg, s);
    PhaseParks(phase, calls, s.arrivals);
    forall q | q in p.parked
      ensures q.id !in Requests(mid) && NeverParked(mid, q.toolCallId) && !HasResult(mid, q.toolCallId)
      ensures exists c :: c in calls && AnswerOf(phase, c) == Awaits(q) && q.toolCallId == c.id
    {
      var c :| HasAnswer(phase, calls, s.arrivals, c, Awaits(q));
      assert ParksOwnCall(phase, c);
      OneOutcomePerCall(phase, calls, s.arrivals, c);
      assert c.id in Ids(calls);
    }
    forall i, j | 0 <= i < j < |p.parked|
      ensures p.parked[i].id != p.parked[j].id && p.parked[i].toolCallId != p.parked[j].toolCallId {
      var c :| c in calls && AnswerOf(phase, c) == Awaits(p.parked[i]) && p.parked[i].toolCallId == c.id;
      var d :| d in calls && AnswerOf(phase, d) == Awaits(p.parked[j]) && p.parked[j].toolCallId == d.id;
    }
  }

  /** Once the requests are in the log too, each call is answered or awaited, not both. */
  lemma ParkedIsPartitioned(cfg: LoopConfig, mid: Log, s: TurnScript)
    requires FeasibleTurn(cfg, s) && !s.cancelledAfterTools && WellFormed(mid) && NothingAwaited(mid)
    requires var calls := CallsOf(AssistantOf(s)); DistinctIds(calls) && AllParkOwnCalls(PhaseConfigAt(cfg, s), calls)
    requires AnswersInPhase(MessagesOf(mid), TurnPhase(cfg, s), CallsOf(AssistantOf(s)))
    requires LastCalls(MessagesOf(mid)) == CallsOf(AssistantOf(s)) && NewRequests(mid, TurnPhase(cfg, s).parked)
    ensures var after := mid + RequestEntries(TurnPhase(cfg, s).parked);
            && WellFormed(after) && Partitioned(after)
            && (forall q :: IsPending(after, q) <==> q in TurnPhase(cfg, s).parked)
            && LastCalls(MessagesOf(after)) == CallsOf(AssistantOf(s))
  {
    hide CallsOf, AssistantOf, PhaseOf, Feasible, AnswerOf, Heard, Requests, ResolvedIds, ResultMap, MessagesOf,
      WellFormed, LastCalls, DistinctIds, AllParkOwnCalls;
    var phase, calls, p := PhaseConfigAt(cfg, s), CallsOf(AssistantOf(s)), TurnPhase(cfg, s);
    var after := mid + RequestEntries(p.parked);
    RequestsLegal(mid, p.parked);
    assert ResolvedIds(mid) <= Requests(mid).Keys by { WellFormedReferences(mid); }
    forall q ensures IsPending(after, q) <==> q in p.parked { }
    forall c | c in LastCalls(MessagesOf(after)) ensures HasResult(after, c.id) <==> !Awaited(after, c.id) {
      OneOutcomePerCall(phase, calls, s.arrivals, c);
      assert Awaited(after, c.id) <==> HasRequest(p, c);
      assert HasResult(after, c.id) <==> HasReply(p, c);
    }
  }

  // -------------------------------------------------------------- whole runs

  /** The log after a run that was not cancelled. */
  ghost function LogAfter(log: Log, st: LoopState): Log { log + Persisted(st.events) }

  lemma UpToMessages(cfg: LoopConfig, log: Log, st: LoopState, parked: seq<PendingInputRequest>)
    requires WellFormed(log) && NothingAwaited(log) && RunInv(MessagesOf(log), st) && EndsRight(st, parked)
    ensures var mid := log + MessageEntries(Ended(st.events));
            && WellFormed(mid) && NothingAwaited(mid) && Requests(mid) == Requests(log)
            && MessagesOf(mid) == Transcript(MessagesOf(log), st)
            && LogAfter(log, st) == (if st.outcome == Some(WaitingInput) then mid + RequestEntries(parked) else mid)
  {
    hide WellFormed, Ended, FreshCalls, SingleResults, MessagesOf, Requests, ResolvedIds, Persisted, ViewOf, EndsRight,
      AllPlain;
    MessagesLegal(log, Ended(st.events));
    RunPersists(st, parked);
    var mid := log + MessageEntries(Ended(st.events));
    assert mid + [] == mid && log + (MessageEntries(Ended(st.events)) + RequestEntries(parked))
           == mid + RequestEntries(parked);
  }

  /** A run that parked: lawful, partitioned, and exactly its requests pending. */
  lemma ParkedRun(cfg: LoopConfig, log: Log, st0: LoopState, scripts: seq<TurnScript>, n: nat, k: nat)
    requires n <= |scripts| && WellFormed(log) && NothingAwaited(log)
    requires RunInv(MessagesOf(log), st0) && RunOk(cfg, MessagesOf(log), st0, scripts, n) && FreshRun(cfg, log, scripts)
    requires ParkedAt(cfg, st0, scripts, n, k) && RunUpTo(cfg, st0, scripts, n).outcome == Some(WaitingInput)
    requires EndsRight(RunUpTo(cfg, st0, scripts, n), TurnPhase(cfg, scripts[k]).parked)
    ensures var x, p := RunUpTo(cfg, st0, scripts, n), TurnPhase(cfg, scripts[k]);
            var after := LogAfter(log, x);
            && WellFormed(after) && Partitioned(after)
            && p.parked != [] && (forall q :: IsPending(after, q) <==> q in p.parked)
            && LastCalls(MessagesOf(after)) == CallsOf(AssistantOf(scripts[k]))
            && AnswersInPhase(x.messages, p, CallsOf(AssistantOf(scripts[k])))
            && Ids(CallsOf(AssistantOf(scripts[k]))) <= CallIdSet(x.messages)
            && (forall q :: q in p.parked ==> exists c ::
                 c in CallsOf(AssistantOf(scripts[k])) && c.id == q.toolCallId && !HasReply(p, c))
  {
    hide WellFormed, NothingAwaited, RunInv, Ended, MessagesOf, FeasibleTurn, CallsOf, AssistantOf, TurnPhase, Respond,
      Ask, Deliver, FreshTurn, DistinctIds, AllParkOwnCalls, KnownIds, Transcript, EndsRight, LastCalls, Partitioned,
      NewRequests, IsPending, AnswersInPhase, Requests;
    var logged, s := MessagesOf(log), scripts[k];
    var u, x, p := RunUpTo(cfg, st0, scripts, k), RunUpTo(cfg, st0, scripts, n), TurnPhase(cfg, s);
    RunOkAt(cfg, logged, st0, scripts, n, k);
    RunOkPrefix(cfg, logged, st0, scripts, n, k);
    RunKeeps(cfg, logged, st0, scripts, k);
    RunKeeps(cfg, logged, st0, scripts, n);
    ParkedTranscript(cfg, logged, u, s);
    DeliverKeeps(logged, u, s);
    var mid := log + MessageEntries(Ended(x.events));
    UpToMessages(cfg, log, x, p.parked);
    AnswersAfter(cfg, Transcript(logged, u) + u.pending, s) by { DeliveredKnown(logged, u, s); }
    MemoryKnown(logged, Deliver(u, s));
    AnswersAfter(cfg, u.messages + u.pending, s) by { DeliveredMemory(u, s); }
    ParkedAreNew(cfg, log, mid, s);
    ParkedIsPartitioned(cfg, mid, s);
    ParkedNames(cfg, s);
  }

  lemma {:induction false} RunOkAt(cfg: LoopConfig, logged: seq<AgentMessage>, st: LoopState, scripts: seq<TurnScript>,
                                   n: nat, k: nat)
    requires k < n <= |scripts| && RunOk(cfg, logged, st, scripts, n) && RunUpTo(cfg, st, scripts, k).outcome.None?
    ensures TurnOk(cfg, KnownIds(Transcript(logged, RunUpTo(cfg, st, scripts, k))), scripts[k])
  {
    hide TurnOk, TurnStep, KnownIds, Transcript, RunUpTo;
    if k < n - 1 { RunOkAt(cfg, logged, st, scripts, n - 1, k); }
  }

  lemma {:induction false} RunOkPrefix(cfg: LoopConfig, logged: seq<AgentMessage>, st: LoopState,
                                       scripts: seq<TurnScript>, n: nat, k: nat)
    requires k <= n <= |scripts| && RunOk(cfg, logged, st, scripts, n)
    ensures RunOk(cfg, logged, st, scripts, k)
  {
    hide TurnOk, TurnStep, KnownIds, Transcript, RunUpTo;
    if k < n { RunOkPrefix(cfg, logged, st, scripts, n - 1, k); }
  }

  lemma DeliveredKnown(logged: seq<AgentMessage>, u: LoopState, s: TurnScript)
    requires RunInv(logged, u) && AllPlain(s.steered) && AllPlain(s.followed)
    ensures KnownIds(Transcript(logged, u) + u.pending) == KnownIds(Transcript(logged, u))
  {
    hide RunInv, Ended, KnownIds, Deliver;
    DeliverKeeps(logged, u, s);
  }

  lemma DeliveredMemory(u: LoopState, s: TurnScript)
    ensures Deliver(u, s).messages == u.messages + u.pending
  {
  }

  /** Memory and transcript know the same ids. */
  lemma MemoryKnown(logged: seq<AgentMessage>, st: LoopState)
    requires RunInv(logged, st)
    ensures KnownIds(st.messages) == KnownIds(Transcript(logged, st))
  {
    hide Ended, ResultMap, CallIdSet, FreshCalls, SingleResults, AllPlain, NonResults, Transcript;
    AgreeCallIds(Transcript(logged, st), st.messages);
  }

  lemma ParkedNames(cfg: LoopConfig, s: TurnScript)
    requires FeasibleTurn(cfg, s)
    requires var calls := CallsOf(AssistantOf(s)); DistinctIds(calls) && AllParkOwnCalls(PhaseConfigAt(cfg, s), calls)
    ensures forall q :: q in TurnPhase(cfg, s).parked ==>
              exists c :: c in CallsOf(AssistantOf(s)) && c.id == q.toolCallId && !HasReply(TurnPhase(cfg, s), c)
  {
    hide CallsOf, AssistantOf, PhaseOf, Feasible, AnswerOf, Heard, DistinctIds, HasReply;
    var phase, calls, p := PhaseConfigAt(cfg, s), CallsOf(AssistantOf(s)), TurnPhase(cfg, s);
    PhaseParks(phase, calls, s.arrivals);
    forall q | q in p.parked ensures exists c :: c in calls && c.id == q.toolCallId && !HasReply(p, c) {
      var c :| HasAnswer(phase, calls, s.arrivals, c, Awaits(q));
      assert ParksOwnCall(phase, c);
      OneOutcomePerCall(phase, calls, s.arrivals, c);
    }
  }

  // ------------------------------------------------ and after a cancellation

  /** The interruptions appended after a cancellation answer every call without a result. */
  lemma TailAnswers(ms: seq<AgentMessage>, id: string)
    requires id in CallIdSet(ms) && id !in ResultMap(ms)
    ensures exists m :: m in AppendedAll(ms) && m.ToolResultMessage? && m.toolCallId == id
  {
    hide CallsOf, AppendedAll, ResultMap;
    AppendedFacts(ms);
    var k := KeyOf(ms, id);
    MissingMeans(ms, id);
    var rs := AppendedAll(ms);
    assert id in ResultMap(rs);
    var p := ResultMapFrom(rs, id);
    assert rs[p] in rs;
  }

  lemma {:induction false} KeyOf(ms: seq<AgentMessage>, id: string) returns (k: Key)
    requires id in CallIdSet(ms)
    ensures IsKey(ms, k) && CallAt(ms, k).id == id
  {
    hide CallsOf;
    var init, last := ms[..|ms| - 1], ms[|ms| - 1];
    if c :| c in CallsOf(last) && c.id == id {
      var o :| 0 <= o < |CallsOf(last)| && CallsOf(last)[o] == c;
      k := Key(|ms| - 1, o + 1);
    } else {
      assert id !in Ids(CallsOf(last));
      k := KeyOf(init, id);
    }
  }

  lemma {:induction false} EntriesAnswer(log: Log, ms: seq<AgentMessage>, m: AgentMessage)
    requires m in ms && m.ToolResultMessage?
    ensures HasResult(log + MessageEntries(ms), m.toolCallId)
    ensures Requests(log + MessageEntries(ms)) == Requests(log)
            && ResolvedIds(log + MessageEntries(ms)) == ResolvedIds(log)
    ensures MessagesOf(log + MessageEntries(ms)) == MessagesOf(log) + ms
  {
    hide Requests, ResolvedIds, MessagesOf, ResultMap;
    EntriesDerived(log, ms);
    HasResultIn(MessagesOf(log) + ms, m);
  }

  lemma {:induction false} EntriesDerived(log: Log, ms: seq<AgentMessage>)
    ensures Requests(log + MessageEntries(ms)) == Requests(log)
            && ResolvedIds(log + MessageEntries(ms)) == ResolvedIds(log)
    ensures MessagesOf(log + MessageEntries(ms)) == MessagesOf(log) + ms
  {
    hide Requests, ResolvedIds, MessagesOf;
    if ms == [] {
      assert log + MessageEntries(ms) == log && MessagesOf(log) + ms == MessagesOf(log);
    } else {
      var init, last := ms[..|ms| - 1], ms[|ms| - 1];
      EntriesDerived(log, init);
      assert log + MessageEntries(ms) == (log + MessageEntries(init)) + [MessageEntry(last)];
      MessageDerived(log + MessageEntries(init), last);
      assert MessagesOf(log) + ms == (MessagesOf(log) + init) + [last];
    }
  }

  lemma HasResultIn(ms: seq<AgentMessage>, m: AgentMessage)
    requires m in ms && m.ToolResultMessage?
    ensures m.toolCallId in ResultMap(ms)
  {
    hide ResultMap;
    var p :| 0 <= p < |ms| && ms[p] == m;
    assert IsResult(ms, m.toolCallId, p);
    ResultMapHas(ms, m.toolCallId, p);
  }

  /** The environment's assumptions for one run on a log. */
  ghost predicate Environment(cfg: LoopConfig, log: Log, memory: seq<AgentMessage>, steering: seq<AgentMessage>,
                              followUps: seq<AgentMessage>, prompts: seq<AgentMessage>, scripts: seq<TurnScript>)
  {
    && WellFormed(log) && NothingAwaited(log)
    && Agree(MessagesOf(log), memory)
    && HarnessOk(cfg, MessagesOf(log), memory, steering, followUps, prompts, scripts)
    && FeasibleRun(cfg, scripts) && FreshRun(cfg, log, scripts)
  }

  /** A run on a session with nothing pending extends its log lawfully, with one
      exception: one cancelled after it parked, whose late interruptions answer calls
      that are also awaited.  A parked run that was not is partitioned, with exactly
      its requests pending; a run that did not park leaves nothing pending. */
  lemma RunIsLawful(cfg: LoopConfig, log: Log, memory: seq<AgentMessage>, steering: seq<AgentMessage>,
                    followUps: seq<AgentMessage>, prompts: seq<AgentMessage>, scripts: seq<TurnScript>, cancelled: bool)
    requires Environment(cfg, log, memory, steering, followUps, prompts, scripts)
    ensures var r := RunHarness(cfg, memory, steering, followUps, prompts, scripts, cancelled);
            var after, waiting := log + Persisted(r.Notified()), r.state.outcome == Some(WaitingInput);
            && (WellFormed(after) <==> !(waiting && cancelled))
            && (waiting ==> (Partitioned(after) <==> !cancelled) && Pending(after) != [])
            && (!waiting ==> NothingAwaited(after))
            && (waiting && !cancelled ==> forall q :: IsPending(after, q) <==> q in PendingAfter([], r.state.events))
  {
    hide WellFormed, NothingAwaited, RunInv, MessagesOf, FeasibleTurn, Opening, FreshTurn, RunUpTo, Agree, Partitioned,
      IsPending, EndsRight, Persisted, AppendedAll, Pending, ParkedAt, Announce, PendingAfter, TurnPhase, RunOk,
      PlainInputs;
    var st0 := Opening(cfg, memory, steering, followUps, prompts);
    var n := |scripts|;
    OpeningKeeps(cfg, MessagesOf(log), memory, steering, followUps, prompts);
    BeginRight(cfg, memory, steering, followUps, prompts);
    var parked, k := RunRight(cfg, st0, scripts, n);
    var x := RunUpTo(cfg, st0, scripts, n);
    var tail := if cancelled then AppendedAll(x.messages) else [];
    RunKeeps(cfg, MessagesOf(log), st0, scripts, n);
    TailPersisted(log, x, tail);
    if x.outcome == Some(WaitingInput) {
      assert k < n && RunUpTo(cfg, st0, scripts, n).outcome == Some(WaitingInput) by {
        ParkedAtMeans(cfg, st0, scripts, n, k);
      }
      ParkedRun(cfg, log, st0, scripts, n, k);
      PendingIs(x, parked);
      LatePark(cfg, log, x, scripts[k], parked, cancelled);
    } else {
      UpToMessages(cfg, log, x, parked);
      QuietEnd(log, x, tail, cancelled);
    }
  }

  lemma ParkedAtMeans(cfg: LoopConfig, st: LoopState, scripts: seq<TurnScript>, n: nat, k: nat)
    requires n <= |scripts| && ParkedAt(cfg, st, scripts, n, k)
    ensures k < n
  {
  }

  lemma TailPersisted(log: Log, x: LoopState, tail: seq<AgentMessage>)
    ensures log + Persisted(x.events + Announce(tail)) == LogAfter(log, x) + MessageEntries(tail)
  {
    hide Persisted, Announce, Ended;
    PersistedConcat(x.events, Announce(tail));
    AnnouncedNoEnd(tail);
    PersistedMessages(Announce(tail));
    EndedAnnounced(tail);
    assert log + (Persisted(x.events) + MessageEntries(tail)) == (log + Persisted(x.events)) + MessageEntries(tail);
  }

  lemma PendingIs(x: LoopState, parked: seq<PendingInputRequest>)
    requires EndsRight(x, parked) && x.outcome == Some(WaitingInput)
    ensures PendingAfter([], x.events) == parked
  {
  }

  /** The end of a run that did not park. */
  lemma QuietEnd(log: Log, x: LoopState, tail: seq<AgentMessage>, cancelled: bool)
    requires WellFormed(log) && NothingAwaited(log) && RunInv(MessagesOf(log), x)
    requires tail == if cancelled then AppendedAll(x.messages) else []
    requires WellFormed(LogAfter(log, x)) && NothingAwaited(LogAfter(log, x))
    requires MessagesOf(LogAfter(log, x)) == Transcript(MessagesOf(log), x)
    ensures WellFormed(LogAfter(log, x) + MessageEntries(tail))
            && NothingAwaited(LogAfter(log, x) + MessageEntries(tail))
  {
    hide WellFormed, MessagesOf, Agree, Persisted, AppendedAll, Ended, Requests, ResolvedIds, AllPlain, FreshCalls,
      SingleResults;
    var mid := LogAfter(log, x);
    if cancelled {
      RepairsAgree(Transcript(MessagesOf(log), x), x.messages);
      AgreeIsSound(Transcript(MessagesOf(log), x) + tail, AppendInterrupted(x.messages));
      MessagesLegal(mid, tail);
    } else {
      assert mid + MessageEntries(tail) == mid;
    }
  }

  lemma AgreeIsSound(log: seq<AgentMessage>, memory: seq<AgentMessage>)
    requires Agree(log, memory)
    ensures FreshCalls(log) && SingleResults(log)
  {
  }

  /** The end of a run that parked, cancelled afterwards or not. */
  lemma LatePark(cfg: LoopConfig, log: Log, x: LoopState, s: TurnScript, parked: seq<PendingInputRequest>,
                 cancelled: bool)
    requires var after, p := LogAfter(log, x), TurnPhase(cfg, s);
             && WellFormed(after) && Partitioned(after) && parked == p.parked != []
             && (forall q :: IsPending(after, q) <==> q in parked)
             && LastCalls(MessagesOf(after)) == CallsOf(AssistantOf(s))
             && AnswersInPhase(x.messages, p, CallsOf(AssistantOf(s)))
             && Ids(CallsOf(AssistantOf(s))) <= CallIdSet(x.messages)
             && (forall q :: q in parked ==> exists c ::
                  c in CallsOf(AssistantOf(s)) && c.id == q.toolCallId && !HasReply(p, c))
    ensures var tail: seq<AgentMessage> := if cancelled then AppendedAll(x.messages) else [];
            var after := LogAfter(log, x) + MessageEntries(tail);
            && (WellFormed(after) <==> !cancelled) && (Partitioned(after) <==> !cancelled) && Pending(after) != []
            && (!cancelled ==> forall q :: IsPending(after, q) <==> q in parked)
  {
    hide WellFormed, MessagesOf, Persisted, AppendedAll, CallsOf, AssistantOf, TurnPhase, HasReply, LastCalls,
      ResultMap, CallIdSet, Requests, ResolvedIds, Pending;
    var mid, q := LogAfter(log, x), parked[0];
    assert q in parked;
    var tail: seq<AgentMessage> := if cancelled then AppendedAll(x.messages) else [];
    var after := mid + MessageEntries(tail);
    if cancelled {
      var c :| c in CallsOf(AssistantOf(s)) && c.id == q.toolCallId && !HasReply(TurnPhase(cfg, s), c);
      assert c.id in Ids(CallsOf(AssistantOf(s)));
      TailAnswers(x.messages, c.id);
      var m :| m in tail && m.ToolResultMessage? && m.toolCallId == c.id;
      EntriesAnswer(mid, tail, m);
      assert IsPending(after, q);
      PendingIff(after, q);
      if WellFormed(after) { PendingUnanswered(after, q); }
      TailKeepsLastCalls(MessagesOf(mid), x.messages);
      assert Awaited(after, c.id) && HasResult(after, c.id);
    } else {
      assert after == mid;
      PendingIff(after, q);
    }
  }

  lemma TailKeepsLastCalls(logged: seq<AgentMessage>, ms: seq<AgentMessage>)
    ensures LastCalls(logged + AppendedAll(ms)) == LastCalls(logged)
  {
    hide LastCalls, AppendedAll;
    AppendedFacts(ms);
    LastCallsOfResults(logged, AppendedAll(ms));
  }

  lemma {:induction false} NoEndPending(before: seq<PendingInputRequest>, events: seq<AgentEvent>)
    requires NoEnd(events)
    ensures PendingAfter(before, events) == before
  {
    if events != [] {
      assert events[|events| - 1] in events;
      NoEndPending(before, events[..|events| - 1]);
    }
  }

  /** What a harness reports as pending when a run is over is what the run logged as
      requested: nothing, unless it waits. */
  lemma PendingIsLogged(cfg: LoopConfig, memory: seq<AgentMessage>, steering: seq<AgentMessage>,
                        followUps: seq<AgentMessage>, prompts: seq<AgentMessage>, scripts: seq<TurnScript>,
                        before: seq<PendingInputRequest>)
    requires FeasibleRun(cfg, scripts)
    ensures var st := RunUpTo(cfg, Opening(cfg, memory, steering, followUps, prompts), scripts, |scripts|);
            var pending := PendingAfter(before, st.events);
            && (st.outcome.None? ==> pending == before)
            && (st.outcome.Some? && st.outcome != Some(WaitingInput) ==> pending == [])
            && (st.outcome == Some(WaitingInput) ==> pending != [])
            && (st.outcome.Some? ==>
                  Persisted(st.events) == MessageEntries(Ended(st.events)) + RequestEntries(pending))
  {
    hide RunUpTo, Opening, Persisted, Ended, NoEnd, TurnPhase, FeasibleTurn;
    var st0, n := Opening(cfg, memory, steering, followUps, prompts), |scripts|;
    BeginRight(cfg, memory, steering, followUps, prompts);
    var parked, k := RunRight(cfg, st0, scripts, n);
    var st := RunUpTo(cfg, st0, scripts, n);
    RunPersists(st, parked);
    if st.outcome.None? { NoEndPending(before, st.events); }
  }
}
