/** One pass of the loop, seen from outside: what it appends to history, what ends in its
    events, and that it depends on history only through what the provider is shown. */
module Passes {
  import opened Messages
  import opened StreamEvents
  import opened Events
  import opened Tools
  import opened ToolHistory
  import opened Decisions
  import opened ToolPhase
  import opened PhaseOutcomes
  import opened AgentLoop
  import opened RunInvariants

  // ---------------------------------------- the same pass on another history

  function With(st: LoopState, history: seq<AgentMessage>): LoopState { st.(messages := history) }

  /** What a pass appends to history. */
  function RespondAdds(cfg: LoopConfig, s: TurnScript): seq<AgentMessage> {
    var m := AssistantOf(s);
    if m.stopReason.Error? || m.stopReason.Aborted? || CallsOf(m) == [] then [] else TurnPhase(cfg, s).results
  }

  function PassAdds(cfg: LoopConfig, st: LoopState, s: TurnScript): seq<AgentMessage> {
    if s.cancelled then st.pending
    else if cfg.maxTurns.Some? && st.turn > cfg.maxTurns.value
      then st.pending + [Stopped(Error, TooManyTurns(cfg.maxTurns.value))]
    else st.pending + [AssistantOf(s)] + RespondAdds(cfg, s)
  }

  lemma AdvanceSame(cfg: LoopConfig, st: LoopState, h: seq<AgentMessage>, m: AgentMessage, results: seq<AgentMessage>,
                    more: bool)
    ensures Advance(cfg, With(st, h), m, results, more) == With(Advance(cfg, st, m, results, more), h)
    ensures Advance(cfg, st, m, results, more).messages == st.messages
            && Advance(cfg, st, m, results, more).newMessages == st.newMessages
  {
  }

  lemma RespondSame(cfg: LoopConfig, st: LoopState, h: seq<AgentMessage>, s: TurnScript)
    ensures var adds := RespondAdds(cfg, s);
            && Respond(cfg, With(st, h), s) == With(Respond(cfg, st, s), h + adds)
            && Respond(cfg, st, s).messages == st.messages + adds
            && Respond(cfg, st, s).newMessages == st.newMessages + adds
  {
    hide CallsOf, AssistantOf, TurnPhase, TriageOf, Advance, PhaseConfigAt;
    var p, m, u := TurnPhase(cfg, s), AssistantOf(s), UseTools(cfg, st, s);
    assert h + [] == h && st.messages + [] == st.messages && st.newMessages + [] == st.newMessages;
    AdvanceSame(cfg, st, h, m, [], false);
    AdvanceSame(cfg, u, h + p.results, m, p.results, true);
    assert UseTools(cfg, With(st, h), s) == With(u, h + p.results);
  }

  /** A pass depends on history only through the context it shows the provider. */
  lemma PassSame(cfg: LoopConfig, st: LoopState, h: seq<AgentMessage>, s: TurnScript)
    requires ProviderContext(h + st.pending) == ProviderContext(st.messages + st.pending)
    ensures var adds := PassAdds(cfg, st, s);
            && TurnStep(cfg, With(st, h), s) == With(TurnStep(cfg, st, s), h + adds)
            && TurnStep(cfg, st, s).messages == st.messages + adds
            && TurnStep(cfg, st, s).newMessages == st.newMessages + adds
  {
    hide AssistantOf, RespondAdds, Respond, ProviderContext, AssistantEvents, Announce, TooManyTurns;
    var d := Deliver(st, s);
    assert Deliver(With(st, h), s) == With(d, h + st.pending);
    RespondSame(cfg, Ask(d, s), (h + st.pending) + [AssistantOf(s)], s);
    assert Ask(With(d, h + st.pending), s) == With(Ask(d, s), (h + st.pending) + [AssistantOf(s)]);
  }

  // ------------------------------------------------ inputs and replies

  /** A message a person or a caller put in: neither the model's nor a tool's. */
  predicate IsInput(m: AgentMessage) { !m.AssistantMessage? && !m.ToolResultMessage? }

  /** The inputs among the messages, in order. */
  function Inputs(ms: seq<AgentMessage>): seq<AgentMessage> {
    if ms == [] then []
    else if IsInput(ms[|ms| - 1]) then Inputs(ms[..|ms| - 1]) + [ms[|ms| - 1]]
    else Inputs(ms[..|ms| - 1])
  }

  lemma {:induction false} InputsConcat(a: seq<AgentMessage>, b: seq<AgentMessage>)
    ensures Inputs(a + b) == Inputs(a) + Inputs(b)
  {
    if b == [] {
      assert a + b == a;
    } else {
      assert (a + b)[..|a + b| - 1] == a + b[..|b| - 1];
      InputsConcat(a, b[..|b| - 1]);
    }
  }

  ghost predicate AllReplies(ms: seq<AgentMessage>) { forall m :: m in ms ==> !IsInput(m) }

  ghost predicate AllInputs(ms: seq<AgentMessage>) { forall m :: m in ms ==> IsInput(m) }

  lemma {:induction false} InputsOf(ms: seq<AgentMessage>)
    ensures AllReplies(ms) ==> Inputs(ms) == []
    ensures AllInputs(ms) ==> Inputs(ms) == ms
  {
    if ms != [] {
      var init, last := ms[..|ms| - 1], ms[|ms| - 1];
      InputsOf(init);
      assert last in ms && forall m :: m in init ==> m in ms;
    }
  }

  lemma RepliesConcat(a: seq<AgentMessage>, b: seq<AgentMessage>)
    requires AllReplies(a) && AllReplies(b)
    ensures AllReplies(a + b)
  {
  }

  // ----------------------------------------------- the replies of a phase

  ghost predicate OnlyResults(results: map<string, AgentMessage>) {
    forall id :: id in results ==> results[id].ToolResultMessage?
  }

  lemma {:induction false} TriageResults(cfg: PhaseConfig, calls: seq<ToolCall>)
    ensures OnlyResults(TriageOf(cfg, calls).results) && AllReplies(Ended(TriageOf(cfg, calls).events))
  {
    hide FateOf, Ended, ImmediateEvents;
    if calls == [] {
      EndedNothing();
    } else {
      var init, last := calls[..|calls| - 1], calls[|calls| - 1];
      TriageResults(cfg, init);
      ParkNamesCall(cfg, last);
      if FateOf(cfg, last).Settled? {
        var m := FateOf(cfg, last).result;
        EndedConcat(TriageOf(cfg, init).events, ImmediateEvents(last, m));
        ImmediateEnds(last, m);
      }
    }
  }

  lemma {:induction false} DrainedResults(o: Outcomes, items: seq<QueueItem>)
    requires OnlyResults(o.results)
    ensures OnlyResults(Drained(o, items).results)
  {
    if items != [] { DrainedResults(o, items[..|items| - 1]); }
  }

  lemma {:induction false} OrderedResults(calls: seq<ToolCall>, results: map<string, AgentMessage>)
    requires OnlyResults(results)
    ensures AllReplies(Ordered(calls, results))
  {
    if calls != [] { OrderedResults(calls[..|calls| - 1], results); }
  }

  lemma {:induction false} QueuedResults(items: seq<QueueItem>)
    ensures AllReplies(ResultsIn(items))
  {
    if items != [] { QueuedResults(items[..|items| - 1]); }
  }

  /** A phase adds replies only, to history and to the events alike. */
  lemma PhaseReplies(cfg: PhaseConfig, calls: seq<ToolCall>, a: Arrivals)
    ensures AllReplies(PhaseOf(cfg, calls, a.queue).results)
    ensures Feasible(cfg, calls, a) ==> AllReplies(Ended(PhaseOf(cfg, calls, a.queue).events))
  {
    hide TriageOf, Drained, Ordered, Yielded, Ended, Feasible, AllReplies;
    var t := TriageOf(cfg, calls);
    TriageResults(cfg, calls);
    DrainedResults(Outcomes(t.results, t.parked), a.queue);
    OrderedResults(calls, Drained(Outcomes(t.results, t.parked), a.queue).results);
    EndedConcat(t.events, Yielded(a.queue));
    if Feasible(cfg, calls, a) {
      QueueEnds(cfg, calls, a);
      QueuedResults(a.queue);
      RepliesConcat(Ended(t.events), Ended(Yielded(a.queue)));
    }
  }

  /** What a pass adds to history is what was pending, in order, then replies. */
  lemma PassAddsReplies(cfg: LoopConfig, st: LoopState, s: TurnScript) returns (own: seq<AgentMessage>)
    ensures PassAdds(cfg, st, s) == st.pending + own && AllReplies(own)
  {
    hide CallsOf, AssistantOf, PhaseOf, TooManyTurns;
    PhaseReplies(PhaseConfigAt(cfg, s), CallsOf(AssistantOf(s)), s.arrivals);
    if s.cancelled {
      own := [];
      assert st.pending + own == st.pending;
    } else if cfg.maxTurns.Some? && st.turn > cfg.maxTurns.value {
      own := [Stopped(Error, TooManyTurns(cfg.maxTurns.value))];
    } else {
      own := [AssistantOf(s)] + RespondAdds(cfg, s);
      assert st.pending + own == st.pending + [AssistantOf(s)] + RespondAdds(cfg, s);
    }
  }

  // ------------------------------------------------ what ends in the events

  lemma {:induction false} RelayedReplies(stream: seq<StreamEvent>)
    ensures AllReplies(Ended(Relay(stream)))
  {
    hide Ended, Started;
    if stream == [] {
      EndedNothing();
    } else {
      var init, e := stream[..|stream| - 1], stream[|stream| - 1];
      RelayedReplies(init);
      match e {
        case StreamStart(partial) => EndedConcat(Relay(init), [MessageStart(partial)]); EndedOne(MessageStart(partial));
        case StreamDone(_, m) => RelayedTerminal(init, m);
        case StreamError(_, m) => RelayedTerminal(init, m);
        case _ => EndedConcat(Relay(init), [MessageUpdate(e.partial)]); EndedOne(MessageUpdate(e.partial));
      }
    }
  }

  lemma AskedReplies(s: TurnScript)
    ensures AllReplies(Ended(AssistantEvents(s)))
  {
    hide Ended, Relay, Announce;
    RelayedReplies(s.stream);
    EndedConcat(Relay(s.stream), Announce([AssistantOf(s)]));
    EndedAnnounced([AssistantOf(s)]);
  }

  /** Events that add replies only to what has ended. */
  ghost predicate AddsReplies(before: seq<AgentEvent>, after: seq<AgentEvent>) {
    exists more: seq<AgentEvent> :: after == before + more && AllReplies(Ended(more))
  }

  lemma AddsOne(before: seq<AgentEvent>, more: seq<AgentEvent>)
    requires AllReplies(Ended(more))
    ensures AddsReplies(before, before + more)
  {
  }

  lemma AddsTrans(a: seq<AgentEvent>, b: seq<AgentEvent>, c: seq<AgentEvent>)
    requires AddsReplies(a, b) && AddsReplies(b, c)
    ensures AddsReplies(a, c)
  {
    hide Ended;
    var x: seq<AgentEvent> :| b == a + x && AllReplies(Ended(x));
    var y: seq<AgentEvent> :| c == b + y && AllReplies(Ended(y));
    EndedConcat(x, y);
    assert c == a + (x + y);
  }

  lemma AddsSilent(before: seq<AgentEvent>, e: AgentEvent)
    requires !e.MessageEnd?
    ensures AddsReplies(before, before + [e])
  {
    EndedOne(e);
    AddsOne(before, [e]);
  }

  lemma AdvanceAdds(cfg: LoopConfig, st: LoopState, m: AgentMessage, results: seq<AgentMessage>, more: bool)
    ensures AddsReplies(st.events, Advance(cfg, st, m, results, more).events)
  {
    hide AddsReplies, Taken;
    var e := st.events + [TurnEnd(m, results)];
    AddsSilent(st.events, TurnEnd(m, results));
    AddsSilent(e, AgentEnd(Completed, st.newMessages, []));
    AddsTrans(st.events, e, e + [AgentEnd(Completed, st.newMessages, [])]);
  }

  lemma EndAdds(st: LoopState, m: AgentMessage, results: seq<AgentMessage>, outcome: RunOutcome,
                parked: seq<PendingInputRequest>)
    ensures AddsReplies(st.events, EndWith(st.(events := st.events + [TurnEnd(m, results)]), outcome, parked).events)
  {
    hide AddsReplies;
    var e := st.events + [TurnEnd(m, results)];
    AddsSilent(st.events, TurnEnd(m, results));
    AddsSilent(e, AgentEnd(outcome, st.newMessages, parked));
    AddsTrans(st.events, e, e + [AgentEnd(outcome, st.newMessages, parked)]);
  }

  lemma RespondAddsEvents(cfg: LoopConfig, st: LoopState, s: TurnScript)
    requires FeasibleTurn(cfg, s)
    ensures AddsReplies(st.events, Respond(cfg, st, s).events)
  {
    hide AddsReplies, CallsOf, AssistantOf, PhaseOf, Feasible, Advance, EndWith, TriageOf, Ended, AllReplies;
    var m, p, u := AssistantOf(s), TurnPhase(cfg, s), UseTools(cfg, st, s);
    PhaseReplies(PhaseConfigAt(cfg, s), CallsOf(m), s.arrivals);
    AddsOne(st.events, p.events);
    EndAdds(st, m, [], Failed, []);
    EndAdds(st, m, [], AbortedRun, []);
    AdvanceAdds(cfg, st, m, [], false);
    EndAdds(u, m, p.results, AbortedRun, []);
    EndAdds(u, m, p.results, WaitingInput, p.parked);
    AdvanceAdds(cfg, u, m, p.results, true);
    if !m.stopReason.Error? && !m.stopReason.Aborted? && CallsOf(m) != [] {
      AddsTrans(st.events, u.events, Respond(cfg, st, s).events);
    }
  }

  /** What ends in a pass's events is what was pending, in order, then replies. */
  lemma PassEnds(cfg: LoopConfig, st: LoopState, s: TurnScript) returns (own: seq<AgentMessage>)
    requires FeasibleTurn(cfg, s)
    ensures Ended(TurnStep(cfg, st, s).events) == Ended(st.events) + st.pending + own && AllReplies(own)
  {
    hide AssistantOf, Respond, Ended, AllReplies, AssistantEvents, Announce, TooManyTurns, FeasibleTurn, Deliver,
      EndWithError;
    var d, t := Deliver(st, s), TurnStep(cfg, st, s);
    EndedDelivered(st, s);
    AddsSilent(d.events, AgentEnd(AbortedRun, d.newMessages, []));
    if cfg.maxTurns.Some? { ErrorAdds(d, TooManyTurns(cfg.maxTurns.value)); }
    AskedReplies(s);
    AddsOne(d.events, AssistantEvents(s));
    RespondAddsEvents(cfg, Ask(d, s), s);
    AddsTrans(d.events, Ask(d, s).events, Respond(cfg, Ask(d, s), s).events);
    assert AddsReplies(d.events, t.events);
    var more: seq<AgentEvent> :| t.events == d.events + more && AllReplies(Ended(more));
    own := Ended(more);
    EndedConcat(d.events, more);
  }

  lemma ErrorAdds(st: LoopState, text: string)
    ensures AddsReplies(st.events, EndWithError(st, text).events)
  {
    hide AddsReplies, AllReplies;
    var m := Stopped(Error, text);
    var pair := [MessageStart(m), MessageEnd(m)];
    EndedPair(m);
    assert AllReplies([m]) by { StoppedIsReply(text); }
    AddsOne(st.events, pair);
    var u := st.(messages := st.messages + [m], newMessages := st.newMessages + [m], events := st.events + pair);
    EndAdds(u, m, [], Failed, []);
    assert st.events + pair + [TurnEnd(m, [])] == st.events + [MessageStart(m), MessageEnd(m), TurnEnd(m, [])];
    AddsTrans(st.events, u.events, EndWith(u.(events := u.events + [TurnEnd(m, [])]), Failed, []).events);
  }

  lemma StoppedIsReply(text: string)
    ensures AllReplies([Stopped(Error, text)])
  {
  }
}
