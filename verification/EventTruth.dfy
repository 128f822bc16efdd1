/** What the event stream tells of a pass is so: each execution's end says whether its
    result is an error, each turn's end carries the turn's message and results, and the
    run's end its outcome, its messages and the requests it waits on. */
module EventTruth {
  import opened Messages
  import opened StreamEvents
  import opened Events
  import opened Tools
  import opened RepairCanonical
  import opened Decisions
  import opened ToolPhase
  import opened PhaseOutcomes
  import opened AgentLoop
  import opened Passes

  // --------------------------------------------------------- in the tool phase

  /** Nothing but executions and messages, of the phase's calls, with their outcomes. */
  ghost predicate PhaseTruth(cfg: PhaseConfig, calls: seq<ToolCall>, e: AgentEvent) {
    match e
    case ToolExecutionStart(c) => c in calls && !FateOf(cfg, c).Parks?
    case ToolExecutionEnd(c, isError) =>
      && c in calls && AnswerOf(cfg, c).Replied?
      && AnswerOf(cfg, c).result.ToolResultMessage? && AnswerOf(cfg, c).result.isError == isError
    case TurnStart => false
    case TurnEnd(_, _) => false
    case AgentStart => false
    case AgentEnd(_, _, _) => false
    case _ => true
  }

  ghost predicate PhaseTrue(cfg: PhaseConfig, calls: seq<ToolCall>, events: seq<AgentEvent>) {
    forall e :: e in events ==> PhaseTruth(cfg, calls, e)
  }

  lemma SettledTrue(cfg: PhaseConfig, calls: seq<ToolCall>, c: ToolCall)
    requires c in calls && FateOf(cfg, c).Settled?
    ensures PhaseTrue(cfg, calls, ImmediateEvents(c, FateOf(cfg, c).result))
  {
  }

  lemma PhaseTruthGrows(cfg: PhaseConfig, a: seq<ToolCall>, b: seq<ToolCall>, e: AgentEvent)
    requires PhaseTruth(cfg, a, e) && forall c :: c in a ==> c in b
    ensures PhaseTruth(cfg, b, e)
  {
    hide FateOf, AnswerOf;
  }

  lemma {:induction false} TriageTrue(cfg: PhaseConfig, calls: seq<ToolCall>)
    ensures PhaseTrue(cfg, calls, TriageOf(cfg, calls).events)
    ensures forall r :: r in TriageOf(cfg, calls).runnable ==> r.call in calls && FateOf(cfg, r.call) == Runs(r.tool)
  {
    hide FateOf, PhaseTruth, ImmediateEvents;
    if calls != [] {
      var init, last := calls[..|calls| - 1], calls[|calls| - 1];
      assert last in calls && forall c :: c in init ==> c in calls;
      TriageTrue(cfg, init);
      forall e | e in TriageOf(cfg, init).events
        ensures PhaseTruth(cfg, calls, e) { PhaseTruthGrows(cfg, init, calls, e); }
      if FateOf(cfg, last).Settled? { SettledTrue(cfg, calls, last); }
    }
  }

  lemma TaskTrue(cfg: PhaseConfig, calls: seq<ToolCall>, t: Task, n: nat)
    requires t.run.tool.executor.Some? && (forall e :: e in t.chatter ==> IsChatter(e)) && n < |ItemsOf(t, cfg.limit)|
    requires t.run.call in calls && FateOf(cfg, t.run.call) == Runs(t.run.tool)
    ensures var b := ItemsOf(t, cfg.limit)[n]; b.Emitted? ==> PhaseTruth(cfg, calls, b.event)
  {
    hide ExecuteTool, FateOf;
    var a, b, c := [Emitted(ToolExecutionStart(t.run.call))], Chatter(t.chatter), Report(t.run, cfg.limit);
    assert ItemsOf(t, cfg.limit) == a + b + c;
    if 1 <= n < 1 + |b| {
      assert ItemsOf(t, cfg.limit)[n] == b[n - 1] == Emitted(t.chatter[n - 1]);
      assert t.chatter[n - 1] in t.chatter;
    } else if n >= 1 + |b| {
      assert ItemsOf(t, cfg.limit)[n] == c[n - 1 - |b|];
    }
  }

  lemma {:induction false} QueueTrue(cfg: PhaseConfig, calls: seq<ToolCall>, items: seq<QueueItem>, tasks: seq<Task>)
    requires Launchable(tasks) && Merge(items, tasks, cfg.limit)
    requires forall i :: 0 <= i < |tasks| ==>
               tasks[i].run.call in calls && FateOf(cfg, tasks[i].run.call) == Runs(tasks[i].run.tool)
    ensures PhaseTrue(cfg, calls, Yielded(items))
  {
    hide ItemsOf, Merge, ToolPhase.Counts, FateOf, PhaseTruth;
    if items != [] {
      var init, last := items[..|items| - 1], items[|items| - 1];
      MergePrefix(items, tasks, cfg.limit);
      QueueTrue(cfg, calls, init, tasks);
      CountingReports(items, tasks, cfg.limit);
      SourceKnown(items, tasks, cfg.limit);
      if last.source.Some? {
        TaskTrue(cfg, calls, tasks[last.source.value], |FromSource(init, last.source.value)|);
      } else {
        ControlTrue(cfg, calls, last.body);
      }
    }
  }

  lemma ControlTrue(cfg: PhaseConfig, calls: seq<ToolCall>, b: ItemBody)
    requires b.Emitted? && b.event.ControlPlane?
    ensures PhaseTruth(cfg, calls, b.event)
  {
  }

  /** Whatever a phase tells is so, however its tasks interleave. */
  lemma PhaseEventsTrue(cfg: PhaseConfig, calls: seq<ToolCall>, a: Arrivals)
    requires Feasible(cfg, calls, a)
    ensures PhaseTrue(cfg, calls, PhaseOf(cfg, calls, a.queue).events)
  {
    hide Merge, Complete, Yielded, TriageOf, PhaseTruth, FateOf;
    TriageTrue(cfg, calls);
    var runnable := TriageOf(cfg, calls).runnable;
    var tasks := Tasks(runnable, a.chatter);
    assert forall i :: 0 <= i < |tasks| ==> tasks[i].run in runnable;
    QueueTrue(cfg, calls, a.queue, tasks);
  }

  lemma {:induction false} TriageTells(cfg: PhaseConfig, calls: seq<ToolCall>, c: ToolCall)
    requires c in calls && FateOf(cfg, c).Settled?
    ensures forall e :: e in ImmediateEvents(c, FateOf(cfg, c).result) ==> e in TriageOf(cfg, calls).events
  {
    hide FateOf, ImmediateEvents;
    var init, last := calls[..|calls| - 1], calls[|calls| - 1];
    if c in init { TriageTells(cfg, init, c); } else { assert c == last; }
  }

  lemma {:induction false} SourceYielded(items: seq<QueueItem>, i: nat, b: ItemBody)
    requires b in FromSource(items, i) && b.Emitted?
    ensures b.event in Yielded(items)
  {
    var init, last := items[..|items| - 1], items[|items| - 1];
    if b in FromSource(init, i) { SourceYielded(init, i, b); }
  }

  lemma TaskTells(t: Task, limit: Option<int>)
    requires t.run.tool.executor.Some? && RunAnswer(t.run, limit).Replied?
    ensures var m := RunAnswer(t.run, limit).result;
            m.ToolResultMessage? && Emitted(ToolExecutionEnd(t.run.call, m.isError)) in ItemsOf(t, limit)
  {
    hide ExecuteTool;
    var a, b, c := [Emitted(ToolExecutionStart(t.run.call))], Chatter(t.chatter), Report(t.run, limit);
    assert ItemsOf(t, limit) == a + b + c;
    assert c[0] in c;
  }

  /** Every result of a call heard from is told with its execution's end. */
  lemma HeardIsTold(cfg: PhaseConfig, calls: seq<ToolCall>, a: Arrivals, c: ToolCall)
    requires Feasible(cfg, calls, a) && DistinctIds(calls) && c in calls
    requires Heard(cfg, calls, a, c) && AnswerOf(cfg, c).Replied?
    ensures AnswerOf(cfg, c).result.ToolResultMessage?
    ensures ToolExecutionEnd(c, AnswerOf(cfg, c).result.isError) in PhaseOf(cfg, calls, a.queue).events
  {
    hide Merge, Complete, Yielded, TriageOf, FateOf, RunAnswer, ItemsOf;
    AnswerNamesCall(cfg, c);
    SettledAnswer(cfg, c);
    if FateOf(cfg, c).Settled? {
      TriageTells(cfg, calls, c);
    } else {
      var tasks := Tasks(TriageOf(cfg, calls).runnable, a.chatter);
      var i: nat :| i in Reported(a.queue, tasks, cfg.limit) && tasks[i].run.call == c;
      TaskOf(cfg, calls, a, i);
      TaskTells(tasks[i], cfg.limit);
      SourceYielded(a.queue, i, Emitted(ToolExecutionEnd(c, AnswerOf(cfg, c).result.isError)));
    }
  }

  // -------------------------------------------------------------- in a pass

  /** What an event of a pass that leads to `t` says. */
  ghost predicate Truth(cfg: LoopConfig, s: TurnScript, t: LoopState, e: AgentEvent) {
    match e
    case ToolExecutionStart(_) => PhaseTruth(PhaseConfigAt(cfg, s), CallsOf(AssistantOf(s)), e)
    case ToolExecutionEnd(_, _) => PhaseTruth(PhaseConfigAt(cfg, s), CallsOf(AssistantOf(s)), e)
    case TurnEnd(m, results) =>
      || (m == AssistantOf(s) && results == RespondAdds(cfg, s))
      || (t.outcome == Some(Failed) && cfg.maxTurns.Some?
          && m == Stopped(Error, TooManyTurns(cfg.maxTurns.value)) && results == [])
    case AgentEnd(outcome, ms, parked) =>
      && t.outcome == Some(outcome) && ms == t.newMessages
      && parked == if outcome.WaitingInput? then TurnPhase(cfg, s).parked else []
    case AgentStart => false
    case _ => true
  }

  ghost predicate TrueBy(cfg: LoopConfig, s: TurnScript, t: LoopState, before: seq<AgentEvent>,
                         after: seq<AgentEvent>) {
    before <= after && forall i :: |before| <= i < |after| ==> Truth(cfg, s, t, after[i])
  }

  lemma TrueMore(cfg: LoopConfig, s: TurnScript, t: LoopState, before: seq<AgentEvent>, now: seq<AgentEvent>,
                 more: seq<AgentEvent>)
    requires TrueBy(cfg, s, t, before, now) && forall e :: e in more ==> Truth(cfg, s, t, e)
    ensures TrueBy(cfg, s, t, before, now + more)
  {
    hide Truth;
    var after := now + more;
    forall i | |before| <= i < |after| ensures Truth(cfg, s, t, after[i]) {
      if i < |now| { assert after[i] == now[i]; } else { assert after[i] == more[i - |now|]; }
    }
  }

  /** Messages only. */
  predicate IsMessageEvent(e: AgentEvent) { e.MessageStart? || e.MessageUpdate? || e.MessageEnd? }

  lemma {:induction false} AnnounceIsMessages(ms: seq<AgentMessage>)
    ensures forall e :: e in Announce(ms) ==> IsMessageEvent(e)
  {
    if ms != [] { AnnounceIsMessages(ms[..|ms| - 1]); }
  }

  lemma {:induction false} RelayIsMessages(stream: seq<StreamEvent>)
    ensures forall e :: e in Relay(stream) ==> IsMessageEvent(e)
  {
    hide Started;
    if stream != [] { RelayIsMessages(stream[..|stream| - 1]); }
  }

  lemma AskIsMessages(s: TurnScript)
    ensures forall e :: e in AssistantEvents(s) ==> IsMessageEvent(e)
  {
    hide Relay, Announce;
    RelayIsMessages(s.stream);
    AnnounceIsMessages([AssistantOf(s)]);
  }

  lemma PhaseIsTrue(cfg: LoopConfig, s: TurnScript, t: LoopState)
    requires FeasibleTurn(cfg, s)
    ensures forall e :: e in TurnPhase(cfg, s).events ==> Truth(cfg, s, t, e)
  {
    hide CallsOf, AssistantOf, PhaseOf, Feasible, FateOf, AnswerOf;
    PhaseEventsTrue(PhaseConfigAt(cfg, s), CallsOf(AssistantOf(s)), s.arrivals);
  }

  /** An event a turn may end with. */
  lemma EndingsTrue(cfg: LoopConfig, s: TurnScript, t: LoopState)
    ensures Truth(cfg, s, t, TurnEnd(AssistantOf(s), RespondAdds(cfg, s))) && Truth(cfg, s, t, TurnStart)
    ensures forall e :: IsMessageEvent(e) ==> Truth(cfg, s, t, e)
  {
    hide RespondAdds, AssistantOf, TurnPhase;
  }

  lemma AdvanceTrue(cfg: LoopConfig, s: TurnScript, st: LoopState, before: seq<AgentEvent>, results: seq<AgentMessage>,
                    more: bool, t: LoopState)
    requires t == Advance(cfg, st, AssistantOf(s), results, more) && results == RespondAdds(cfg, s) && st.outcome.None?
    requires TrueBy(cfg, s, t, before, st.events)
    ensures TrueBy(cfg, s, t, before, t.events)
  {
    hide Truth, RespondAdds, AssistantOf, Taken, TrueBy;
    EndingsTrue(cfg, s, t);
    TrueMore(cfg, s, t, before, st.events, [TurnEnd(AssistantOf(s), results)]);
    var u := st.events + [TurnEnd(AssistantOf(s), results)];
    if t.outcome.Some? {
      assert Truth(cfg, s, t, AgentEnd(Completed, st.newMessages, [])) by { EndTrue(cfg, s, t, Completed, []); }
      TrueMore(cfg, s, t, before, u, [AgentEnd(Completed, st.newMessages, [])]);
    }
  }

  lemma EndTrue(cfg: LoopConfig, s: TurnScript, t: LoopState, outcome: RunOutcome, parked: seq<PendingInputRequest>)
    requires t.outcome == Some(outcome) && parked == if outcome.WaitingInput? then TurnPhase(cfg, s).parked else []
    ensures Truth(cfg, s, t, AgentEnd(outcome, t.newMessages, parked))
  {
    hide TurnPhase;
  }

  lemma EndWithTrue(cfg: LoopConfig, s: TurnScript, st: LoopState, before: seq<AgentEvent>, outcome: RunOutcome,
                    parked: seq<PendingInputRequest>)
    requires var t := EndWith(st.(events := st.events + [TurnEnd(AssistantOf(s), RespondAdds(cfg, s))]), outcome,
                              parked);
             TrueBy(cfg, s, t, before, st.events)
    requires parked == if outcome.WaitingInput? then TurnPhase(cfg, s).parked else []
    ensures var t := EndWith(st.(events := st.events + [TurnEnd(AssistantOf(s), RespondAdds(cfg, s))]), outcome,
                             parked);
            TrueBy(cfg, s, t, before, t.events)
  {
    hide Truth, RespondAdds, AssistantOf, TrueBy, TurnPhase;
    var e := TurnEnd(AssistantOf(s), RespondAdds(cfg, s));
    var t := EndWith(st.(events := st.events + [e]), outcome, parked);
    EndingsTrue(cfg, s, t);
    EndTrue(cfg, s, t, outcome, parked);
    TrueMore(cfg, s, t, before, st.events, [e]);
    TrueMore(cfg, s, t, before, st.events + [e], [AgentEnd(outcome, st.newMessages, parked)]);
  }

  lemma RespondTrue(cfg: LoopConfig, st: LoopState, s: TurnScript, before: seq<AgentEvent>)
    requires FeasibleTurn(cfg, s) && st.outcome.None?
    requires TrueBy(cfg, s, Respond(cfg, st, s), before, st.events)
    ensures TrueBy(cfg, s, Respond(cfg, st, s), before, Respond(cfg, st, s).events)
  {
    hide CallsOf, AssistantOf, TurnPhase, TriageOf, Advance, EndWith, TrueBy, Truth, FeasibleTurn;
    var m, p, u, t := AssistantOf(s), TurnPhase(cfg, s), UseTools(cfg, st, s), Respond(cfg, st, s);
    PhaseIsTrue(cfg, s, t);
    TrueMore(cfg, s, t, before, st.events, p.events);
    if m.stopReason.Error? {
      EndWithTrue(cfg, s, st, before, Failed, []);
    } else if m.stopReason.Aborted? {
      EndWithTrue(cfg, s, st, before, AbortedRun, []);
    } else if CallsOf(m) == [] {
      AdvanceTrue(cfg, s, st, before, [], false, t);
    } else if s.cancelledAfterTools {
      EndWithTrue(cfg, s, u, before, AbortedRun, []);
    } else if p.parked != [] {
      EndWithTrue(cfg, s, u, before, WaitingInput, p.parked);
    } else {
      AdvanceTrue(cfg, s, u, before, p.results, true, t);
    }
  }

  /** Whatever a pass tells is so. */
  lemma PassTellsTruth(cfg: LoopConfig, st: LoopState, s: TurnScript)
    requires FeasibleTurn(cfg, s) && st.outcome.None?
    ensures TrueBy(cfg, s, TurnStep(cfg, st, s), st.events, TurnStep(cfg, st, s).events)
  {
    hide CallsOf, AssistantOf, Respond, TrueBy, Truth, FeasibleTurn, Announce, AssistantEvents, TooManyTurns,
      EndWithError;
    var d, t := Deliver(st, s), TurnStep(cfg, st, s);
    EndingsTrue(cfg, s, t);
    AnnounceIsMessages(st.pending);
    var opening: seq<AgentEvent> := if st.firstTurn then [] else [TurnStart];
    assert TrueBy(cfg, s, t, st.events, st.events) by { NothingTold(cfg, s, t, st.events); }
    TrueMore(cfg, s, t, st.events, st.events, opening);
    TrueMore(cfg, s, t, st.events, st.events + opening, Announce(st.pending));
    assert d.events == st.events + opening + Announce(st.pending);
    if s.cancelled {
      EndTrue(cfg, s, t, AbortedRun, []);
      TrueMore(cfg, s, t, st.events, d.events, [AgentEnd(AbortedRun, d.newMessages, [])]);
    } else if cfg.maxTurns.Some? && d.turn > cfg.maxTurns.value {
      LimitTrue(cfg, d, s, st.events);
    } else {
      AskIsMessages(s);
      TrueMore(cfg, s, t, st.events, d.events, AssistantEvents(s));
      RespondTrue(cfg, Ask(d, s), s, st.events);
    }
  }

  lemma NothingTold(cfg: LoopConfig, s: TurnScript, t: LoopState, events: seq<AgentEvent>)
    ensures TrueBy(cfg, s, t, events, events)
  {
  }

  lemma LimitTrue(cfg: LoopConfig, d: LoopState, s: TurnScript, before: seq<AgentEvent>)
    requires cfg.maxTurns.Some? && d.outcome.None?
    requires var t := EndWithError(d, TooManyTurns(cfg.maxTurns.value)); TrueBy(cfg, s, t, before, d.events)
    ensures var t := EndWithError(d, TooManyTurns(cfg.maxTurns.value)); TrueBy(cfg, s, t, before, t.events)
  {
    hide TrueBy, TooManyTurns, AssistantOf, TurnPhase, RespondAdds;
    var text := TooManyTurns(cfg.maxTurns.value);
    var m, t := Stopped(Error, text), EndWithError(d, text);
    var more := [MessageStart(m), MessageEnd(m), TurnEnd(m, [])];
    TrueMore(cfg, s, t, before, d.events, more);
    TrueMore(cfg, s, t, before, d.events + more, [AgentEnd(Failed, t.newMessages, [])]);
  }
}
