/** What every pass of the loop keeps: the harness's memory and the transcript its
    events persist look the same to a provider. */
module RunInvariants {
  import opened Messages
  import opened StreamEvents
  import opened Events
  import opened Tools
  import opened ToolHistory
  import opened RepairCanonical
  import opened RepairAppend
  import opened Decisions
  import opened ToolPhase
  import opened PhaseOutcomes
  import opened AgentLoop
  import Settlement
  import Protocol

  // ----------------------------------------------------- transcripts that agree

  /** Two transcripts a provider cannot tell apart, now or after growing alike. */
  ghost predicate Agree(log: seq<AgentMessage>, memory: seq<AgentMessage>) {
    && ViewOf(log) == ViewOf(memory)
    && FreshCalls(log) && FreshCalls(memory)
    && SingleResults(log) && SingleResults(memory)
  }

  lemma AgreeShows(log: seq<AgentMessage>, memory: seq<AgentMessage>)
    requires Agree(log, memory)
    ensures ProviderContext(log) == ProviderContext(memory)
  {
    ContextFromView(log, memory);
  }

  /** A message nobody has to answer and that answers nothing. */
  predicate Plain(m: AgentMessage) { !m.ToolResultMessage? && CallsOf(m) == [] }

  ghost predicate AllPlain(ms: seq<AgentMessage>) { forall m :: m in ms ==> Plain(m) }

  lemma Snoc(ms: seq<AgentMessage>, m: AgentMessage)
    ensures NonResults(ms + [m]) == if m.ToolResultMessage? then NonResults(ms) else NonResults(ms) + [m]
    ensures ResultMap(ms + [m]) == if m.ToolResultMessage? then ResultMap(ms)[m.toolCallId := m] else ResultMap(ms)
    ensures CallIdSet(ms + [m]) == CallIdSet(ms) + Ids(CallsOf(m))
    ensures FreshCalls(ms + [m]) <==> FreshCalls(ms) && DistinctIds(CallsOf(m)) && Ids(CallsOf(m)) !! CallIdSet(ms)
    ensures SingleResults(ms + [m]) <==> SingleResults(ms) && (m.ToolResultMessage? ==> m.toolCallId !in ResultMap(ms))
  {
    hide CallsOf;
    assert (ms + [m])[..|ms|] == ms;
  }

  /** The call ids of a transcript are those of its non-result messages. */
  lemma {:induction false} CallIdsOfSpine(ms: seq<AgentMessage>)
    ensures CallIdSet(NonResults(ms)) == CallIdSet(ms)
  {
    hide CallsOf;
    if ms != [] {
      var init, last := ms[..|ms| - 1], ms[|ms| - 1];
      CallIdsOfSpine(init);
      if last.ToolResultMessage? {
        ResultsHaveNoCalls(last);
      } else {
        assert (NonResults(init) + [last])[..|NonResults(init)|] == NonResults(init);
      }
    }
  }

  lemma AgreeCallIds(log: seq<AgentMessage>, memory: seq<AgentMessage>)
    requires ViewOf(log) == ViewOf(memory)
    ensures CallIdSet(log) == CallIdSet(memory)
  {
    CallIdsOfSpine(log);
    CallIdsOfSpine(memory);
  }

  /** A message with new call ids, appended to both. */
  lemma AgreeSpine(log: seq<AgentMessage>, memory: seq<AgentMessage>, m: AgentMessage)
    requires Agree(log, memory) && !m.ToolResultMessage?
    requires DistinctIds(CallsOf(m)) && Ids(CallsOf(m)) !! CallIdSet(log)
    ensures Agree(log + [m], memory + [m])
    ensures ResultMap(log + [m]) == ResultMap(log) && CallIdSet(log + [m]) == CallIdSet(log) + Ids(CallsOf(m))
  {
    hide CallsOf, FreshCalls, SingleResults, ResultMap, NonResults;
    AgreeCallIds(log, memory);
    Snoc(log, m);
    Snoc(memory, m);
  }

  lemma {:induction false} AgreePlain(log: seq<AgentMessage>, memory: seq<AgentMessage>, ms: seq<AgentMessage>)
    requires Agree(log, memory) && AllPlain(ms)
    ensures Agree(log + ms, memory + ms)
    ensures ResultMap(log + ms) == ResultMap(log) && CallIdSet(log + ms) == CallIdSet(log)
  {
    hide CallsOf, FreshCalls, SingleResults, ResultMap, NonResults;
    if ms == [] {
      assert log + ms == log && memory + ms == memory;
    } else {
      var init, last := ms[..|ms| - 1], ms[|ms| - 1];
      assert AllPlain(init) && Plain(last);
      AgreePlain(log, memory, init);
      AgreeSpine(log + init, memory + init, last);
      assert log + ms == (log + init) + [last] && memory + ms == (memory + init) + [last];
    }
  }

  /** Results for unanswered calls, in one order in the log and another in memory. */
  lemma AgreeResults(log: seq<AgentMessage>, memory: seq<AgentMessage>, logged: seq<AgentMessage>,
                     kept: seq<AgentMessage>)
    requires Agree(log, memory) && DistinctResultIds(logged) && DistinctResultIds(kept)
    requires forall m :: m in logged <==> m in kept
    requires forall m :: m in kept ==> m.ToolResultMessage? && m.toolCallId !in ResultMap(log)
    ensures Agree(log + logged, memory + kept)
    ensures CallIdSet(log + logged) == CallIdSet(log)
  {
    hide FreshCalls, SingleResults, ResultMap, NonResults, ViewOf;
    SameResultsSameView(log, memory, logged, kept);
    GrowByResults(log, logged);
    GrowByResults(memory, kept);
  }

  lemma SameResultsSameView(log: seq<AgentMessage>, memory: seq<AgentMessage>, logged: seq<AgentMessage>,
                            kept: seq<AgentMessage>)
    requires ViewOf(log) == ViewOf(memory) && DistinctResultIds(logged) && DistinctResultIds(kept)
    requires forall m :: m in logged <==> m in kept
    ensures ViewOf(log + logged) == ViewOf(memory + kept)
    ensures ResultMap(log) == ResultMap(memory)
  {
    hide ResultMap;
    Settlement.NonResultsOfResults(log, logged);
    Settlement.NonResultsOfResults(memory, kept);
    forall id
      ensures id in ResultMap(log + logged) <==> id in ResultMap(memory + kept)
      ensures id in ResultMap(log + logged) ==> ResultMap(log + logged)[id] == ResultMap(memory + kept)[id]
    {
      Settlement.ResultMapOfResults(log, logged, id);
      Settlement.ResultMapOfResults(memory, kept, id);
    }
    assert ResultMap(log + logged) == ResultMap(memory + kept);
  }

  lemma {:induction false} GrowByResults(ms: seq<AgentMessage>, rs: seq<AgentMessage>)
    requires FreshCalls(ms) && SingleResults(ms) && DistinctResultIds(rs)
    requires forall m :: m in rs ==> m.toolCallId !in ResultMap(ms)
    ensures FreshCalls(ms + rs) && SingleResults(ms + rs) && CallIdSet(ms + rs) == CallIdSet(ms)
  {
    hide CallsOf, FreshCalls, SingleResults, ResultMap, DistinctResultIds;
    if rs == [] {
      assert ms + rs == ms;
    } else {
      var init, last := rs[..|rs| - 1], rs[|rs| - 1];
      LastIsNew(rs);
      GrowByResults(ms, init);
      assert ms + rs == (ms + init) + [last];
      Settlement.ResultMapOfResults(ms, init, last.toolCallId);
      Snoc(ms + init, last);
      ResultsHaveNoCalls(last);
    }
  }

  lemma LastIsNew(rs: seq<AgentMessage>)
    requires rs != [] && DistinctResultIds(rs)
    ensures var init, last := rs[..|rs| - 1], rs[|rs| - 1];
            && DistinctResultIds(init) && last.ToolResultMessage? && last in rs
            && (forall m :: m in init ==> m in rs && m.ToolResultMessage? && m.toolCallId != last.toolCallId)
            && (forall i, j :: 0 <= i < j < |init| ==> init[i].toolCallId != init[j].toolCallId)
  {
  }

  // -------------------------------------------------- what the events persist

  lemma {:induction false} EndedAnnounced(ms: seq<AgentMessage>)
    ensures Ended(Announce(ms)) == ms
  {
    if ms != [] {
      var init, last := ms[..|ms| - 1], ms[|ms| - 1];
      EndedAnnounced(init);
      EndedConcat(Announce(init), [MessageStart(last), MessageEnd(last)]);
      assert Ended([MessageStart(last), MessageEnd(last)]) == [last] by { EndedPair(last); }
    }
  }

  lemma EndedPair(m: AgentMessage)
    ensures Ended([MessageStart(m), MessageEnd(m)]) == [m]
  {
    EndedConcat([MessageStart(m)], [MessageEnd(m)]);
    EndedOne(MessageStart(m));
    EndedOne(MessageEnd(m));
    assert [MessageStart(m), MessageEnd(m)] == [MessageStart(m)] + [MessageEnd(m)];
  }

  lemma EndedOne(e: AgentEvent)
    ensures Ended([e]) == if e.MessageEnd? then [e.message] else []
  {
    assert [e][..0] == [];
  }

  /** A stream with at most one terminal ends at most that message. */
  lemma {:induction false} EndedRelay(stream: seq<StreamEvent>)
    requires Terminals(stream) <= 1
    ensures Ended(Relay(stream)) == if LastMessage(stream).Some? then [LastMessage(stream).value] else []
    ensures LastMessage(stream).Some? <==> Terminals(stream) == 1
  {
    hide Ended, Started;
    if stream == [] {
      EndedNothing();
    } else {
      var init, e := stream[..|stream| - 1], stream[|stream| - 1];
      EndedRelay(init);
      match e {
        case StreamStart(partial) => EndedConcat(Relay(init), [MessageStart(partial)]); EndedOne(MessageStart(partial));
        case StreamDone(_, m) => RelayedTerminal(init, m);
        case StreamError(_, m) => RelayedTerminal(init, m);
        case _ => EndedConcat(Relay(init), [MessageUpdate(e.partial)]); EndedOne(MessageUpdate(e.partial));
      }
    }
  }

  lemma RelayedTerminal(init: seq<StreamEvent>, m: AgentMessage)
    ensures Ended(Relay(init) + (if Started(init) then [MessageEnd(m)] else [MessageStart(m), MessageEnd(m)]))
            == Ended(Relay(init)) + [m]
  {
    EndedConcat(Relay(init), [MessageEnd(m)]);
    EndedConcat(Relay(init), [MessageStart(m), MessageEnd(m)]);
    EndedOne(MessageEnd(m));
    EndedPair(m);
  }

  lemma EndedAsk(s: TurnScript)
    requires Terminals(s.stream) <= 1
    ensures Ended(AssistantEvents(s)) == [AssistantOf(s)]
  {
    EndedRelay(s.stream);
    if LastMessage(s.stream).None? {
      EndedConcat(Relay(s.stream), Announce([AssistantOf(s)]));
      EndedAnnounced([AssistantOf(s)]);
    }
  }

  // ------------------------------------------------------ the assumptions

  /** What a turn's environment is assumed to keep, where the transcript has the ids
      `known` and requests the ids `raised`. */
  ghost predicate TurnOk(cfg: LoopConfig, known: set<string>, s: TurnScript) {
    var phase, calls := PhaseConfigAt(cfg, s), CallsOf(AssistantOf(s));
    && FeasibleTurn(cfg, s)
    && Terminals(s.stream) <= 1
    && AllPlain(s.steered) && AllPlain(s.followed)
    && DistinctIds(calls) && Ids(calls) !! known
    && AllParkOwnCalls(phase, calls)
  }

  ghost function KnownIds(ms: seq<AgentMessage>): set<string> {
    CallIdSet(ms) + ResultMap(ms).Keys
  }

  // ------------------------------------------------------------- the invariant

  /** The transcript so far: what the log held, and what has ended since. */
  ghost function Transcript(logged: seq<AgentMessage>, st: LoopState): seq<AgentMessage> {
    logged + Ended(st.events)
  }

  ghost predicate RunInv(logged: seq<AgentMessage>, st: LoopState) {
    && Agree(Transcript(logged, st), st.messages)
    && AllPlain(st.pending) && AllPlain(st.steering) && AllPlain(st.followUps)
  }

  lemma EndedMore(logged: seq<AgentMessage>, events: seq<AgentEvent>, more: seq<AgentEvent>)
    ensures logged + Ended(events + more) == (logged + Ended(events)) + Ended(more)
  {
    EndedConcat(events, more);
  }

  lemma EndedDelivered(st: LoopState, s: TurnScript)
    ensures Ended(Deliver(st, s).events) == Ended(st.events) + st.pending
  {
    hide Ended;
    var opening: seq<AgentEvent> := if st.firstTurn then [] else [TurnStart];
    EndedOne(TurnStart);
    EndedNothing();
    EndedConcat(st.events, opening);
    EndedConcat(st.events + opening, Announce(st.pending));
    EndedAnnounced(st.pending);
  }

  lemma PlainConcat(a: seq<AgentMessage>, b: seq<AgentMessage>)
    requires AllPlain(a) && AllPlain(b)
    ensures AllPlain(a + b)
  {
  }

  lemma DeliverKeeps(logged: seq<AgentMessage>, st: LoopState, s: TurnScript)
    requires RunInv(logged, st) && AllPlain(s.steered) && AllPlain(s.followed)
    ensures RunInv(logged, Deliver(st, s))
    ensures Transcript(logged, Deliver(st, s)) == Transcript(logged, st) + st.pending
    ensures KnownIds(Transcript(logged, Deliver(st, s))) == KnownIds(Transcript(logged, st))
  {
    hide Agree, Plain, Ended, AllPlain, Announce;
    EndedDelivered(st, s);
    var t := Transcript(logged, st);
    assert logged + (Ended(st.events) + st.pending) == t + st.pending;
    AgreePlain(t, st.messages, st.pending);
    PlainConcat(st.steering, s.steered);
    PlainConcat(st.followUps, s.followed);
    assert AllPlain([]) by { NothingPlain(); }
  }

  lemma NothingPlain()
    ensures AllPlain([])
  {
  }

  lemma EndedNothing()
    ensures Ended([]) == []
  {
  }

  /** Events that end no message leave the transcript as it is. */
  lemma EndedSilent(logged: seq<AgentMessage>, events: seq<AgentEvent>, e: AgentEvent)
    requires !e.MessageEnd?
    ensures logged + Ended(events + [e]) == logged + Ended(events)
  {
    EndedConcat(events, [e]);
    EndedOne(e);
  }

  lemma EndKeeps(logged: seq<AgentMessage>, st: LoopState, outcome: RunOutcome, parked: seq<PendingInputRequest>)
    requires RunInv(logged, st)
    ensures RunInv(logged, EndWith(st, outcome, parked))
    ensures Transcript(logged, EndWith(st, outcome, parked)) == Transcript(logged, st)
  {
    hide Agree, Ended;
    EndedSilent(logged, st.events, AgentEnd(outcome, st.newMessages, parked));
  }

  lemma StoppedIsPlain(reason: StopReason, text: string)
    ensures Plain(Stopped(reason, text))
  {
  }

  lemma EndErrorKeeps(logged: seq<AgentMessage>, st: LoopState, text: string)
    requires RunInv(logged, st)
    ensures RunInv(logged, EndWithError(st, text))
  {
    hide Agree, Ended, Plain;
    var m := Stopped(Error, text);
    StoppedIsPlain(Error, text);
    AgreePlain(Transcript(logged, st), st.messages, [m]);
    EndedMore(logged, st.events, [MessageStart(m), MessageEnd(m)]);
    EndedPair(m);
    EndedSilent(logged, st.events + [MessageStart(m), MessageEnd(m)], TurnEnd(m, []));
    var u := st.(messages := st.messages + [m], newMessages := st.newMessages + [m],
                 events := st.events + [MessageStart(m), MessageEnd(m), TurnEnd(m, [])]);
    assert u.events == (st.events + [MessageStart(m), MessageEnd(m)]) + [TurnEnd(m, [])];
    EndKeeps(logged, u, Failed, []);
  }

  lemma AskKeeps(cfg: LoopConfig, logged: seq<AgentMessage>, st: LoopState, s: TurnScript)
    requires RunInv(logged, st) && TurnOk(cfg, KnownIds(Transcript(logged, st)), s)
    ensures RunInv(logged, Ask(st, s))
    ensures Transcript(logged, Ask(st, s)) == Transcript(logged, st) + [AssistantOf(s)]
    ensures ResultMap(Transcript(logged, Ask(st, s))) == ResultMap(Transcript(logged, st))
  {
    hide Agree, Ended, Plain, CallsOf, FeasibleTurn, AllParkOwnCalls, AssistantEvents, AssistantOf, ProviderContext;
    EndedMore(logged, st.events, AssistantEvents(s));
    EndedAsk(s);
    AgreeSpine(Transcript(logged, st), st.messages, AssistantOf(s));
  }

  /** The replies to new calls are results for calls that have none. */
  lemma RepliesAreNew(cfg: PhaseConfig, calls: seq<ToolCall>, a: Arrivals, answered: set<string>)
    requires Feasible(cfg, calls, a) && DistinctIds(calls) && AllParkOwnCalls(cfg, calls) && Ids(calls) !! answered
    ensures forall m :: m in PhaseOf(cfg, calls, a.queue).results ==> m.ToolResultMessage? && m.toolCallId !in answered
  {
    hide Feasible, AllParkOwnCalls, PhaseOf, AnswerOf, Heard;
    PhaseResults(cfg, calls, a);
    forall m | m in PhaseOf(cfg, calls, a.queue).results ensures m.ToolResultMessage? && m.toolCallId !in answered {
      var c :| HasAnswer(cfg, calls, a, c, Replied(m));
      AnswerNamesCall(cfg, c);
      assert c.id in Ids(calls);
    }
  }

  lemma UseToolsKeeps(cfg: LoopConfig, logged: seq<AgentMessage>, st: LoopState, s: TurnScript)
    requires RunInv(logged, st) && FeasibleTurn(cfg, s)
    requires var calls := CallsOf(AssistantOf(s));
             DistinctIds(calls) && AllParkOwnCalls(PhaseConfigAt(cfg, s), calls)
               && Ids(calls) !! ResultMap(Transcript(logged, st)).Keys
    ensures RunInv(logged, UseTools(cfg, st, s))
  {
    hide Agree, Ended, Plain, CallsOf, Feasible, AllParkOwnCalls, AssistantOf, PhaseOf, TriageOf, DistinctResultIds;
    var phase, calls := PhaseConfigAt(cfg, s), CallsOf(AssistantOf(s));
    var p := PhaseOf(phase, calls, s.arrivals.queue);
    PhaseResults(phase, calls, s.arrivals);
    RepliesAreNew(phase, calls, s.arrivals, ResultMap(Transcript(logged, st)).Keys);
    EndedMore(logged, st.events, p.events);
    AgreeResults(Transcript(logged, st), st.messages, Ended(p.events), p.results);
  }

  lemma AdvanceKeeps(cfg: LoopConfig, logged: seq<AgentMessage>, st: LoopState, m: AgentMessage,
                     results: seq<AgentMessage>, more: bool)
    requires RunInv(logged, st)
    ensures RunInv(logged, Advance(cfg, st, m, results, more))
  {
    hide Agree, Ended, Plain;
    EndedSilent(logged, st.events, TurnEnd(m, results));
    var u := DrainSteering(cfg, st.(events := st.events + [TurnEnd(m, results)], turn := st.turn + 1));
    assert RunInv(logged, u);
    EndKeeps(logged, u, Completed, []);
  }

  lemma RespondKeeps(cfg: LoopConfig, logged: seq<AgentMessage>, st: LoopState, s: TurnScript)
    requires RunInv(logged, st) && FeasibleTurn(cfg, s)
    requires var calls := CallsOf(AssistantOf(s));
             DistinctIds(calls) && AllParkOwnCalls(PhaseConfigAt(cfg, s), calls)
               && Ids(calls) !! ResultMap(Transcript(logged, st)).Keys
    ensures RunInv(logged, Respond(cfg, st, s))
  {
    hide Agree, Ended, Plain, CallsOf, FeasibleTurn, AllParkOwnCalls, AssistantOf, UseTools, Advance, TurnPhase, RunInv,
      EndWith;
    var m, p, u := AssistantOf(s), TurnPhase(cfg, s), UseTools(cfg, st, s);
    UseToolsKeeps(cfg, logged, st, s);
    AdvanceKeeps(cfg, logged, st, m, [], false);
    AdvanceKeeps(cfg, logged, u, m, p.results, true);
    TurnEndKeeps(logged, st, m, []);
    TurnEndKeeps(logged, u, m, p.results);
    EndKeeps(logged, st.(events := st.events + [TurnEnd(m, [])]), Failed, []);
    EndKeeps(logged, st.(events := st.events + [TurnEnd(m, [])]), AbortedRun, []);
    EndKeeps(logged, u.(events := u.events + [TurnEnd(m, p.results)]), AbortedRun, []);
    EndKeeps(logged, u.(events := u.events + [TurnEnd(m, p.results)]), WaitingInput, p.parked);
  }

  lemma TurnEndKeeps(logged: seq<AgentMessage>, st: LoopState, m: AgentMessage, results: seq<AgentMessage>)
    requires RunInv(logged, st)
    ensures RunInv(logged, st.(events := st.events + [TurnEnd(m, results)]))
    ensures Transcript(logged, st.(events := st.events + [TurnEnd(m, results)])) == Transcript(logged, st)
  {
    hide Agree, Ended, Plain;
    EndedSilent(logged, st.events, TurnEnd(m, results));
  }

  /** A pass of the loop keeps memory and transcript in agreement. */
  lemma TurnKeeps(cfg: LoopConfig, logged: seq<AgentMessage>, st: LoopState, s: TurnScript)
    requires RunInv(logged, st) && TurnOk(cfg, KnownIds(Transcript(logged, st)), s)
    ensures RunInv(logged, TurnStep(cfg, st, s))
  {
    hide RunInv, Agree, Ended, Plain, CallsOf, FeasibleTurn, AllParkOwnCalls, AssistantOf, Deliver, Ask, Respond,
      EndWith, EndWithError, TooManyTurns, Transcript, KnownIds;
    var d := Deliver(st, s);
    DeliverKeeps(logged, st, s);
    EndKeeps(logged, d, AbortedRun, []);
    if cfg.maxTurns.Some? { EndErrorKeeps(logged, d, TooManyTurns(cfg.maxTurns.value)); }
    AskKeeps(cfg, logged, d, s);
    NewIdsUnanswered(Transcript(logged, d), Ids(CallsOf(AssistantOf(s))));
    RespondKeeps(cfg, logged, Ask(d, s), s);
  }

  lemma NewIdsUnanswered(ms: seq<AgentMessage>, ids: set<string>)
    requires ids !! KnownIds(ms)
    ensures ids !! ResultMap(ms).Keys && ids !! CallIdSet(ms)
  {
  }
}
