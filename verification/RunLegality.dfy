/** What a run persists is a lawful extension of a log with nothing pending, and a run
    that parks leaves each of its last calls answered or awaited, never both. */
module RunLegality {
  import opened Messages
  import opened StreamEvents
  import opened Events
  import opened Tools
  import opened ToolMatching
  import opened ToolHistory
  import opened RepairCanonical
  import opened RepairAppend
  import opened Interruptions
  import opened Decisions
  import opened ToolPhase
  import opened PhaseOutcomes
  import opened AgentLoop
  import opened SessionLog
  import opened Persistence
  import opened Protocol
  import opened Readiness
  import opened Harness
  import opened RunInvariants
  import opened RestartTransparency

  // --------------------------------------------------- where a run can end

  /** No run has ended yet in these events. */
  lemma NoEndConcat(a: seq<AgentEvent>, b: seq<AgentEvent>)
    ensures NoEnd(a + b) <==> NoEnd(a) && NoEnd(b)
  {
    assert forall e :: e in a + b <==> e in a || e in b;
  }

  lemma {:induction false} AnnouncedNoEnd(ms: seq<AgentMessage>)
    ensures NoEnd(Announce(ms))
  {
    if ms != [] {
      AnnouncedNoEnd(ms[..|ms| - 1]);
      NoEndConcat(Announce(ms[..|ms| - 1]), [MessageStart(ms[|ms| - 1]), MessageEnd(ms[|ms| - 1])]);
    }
  }

  lemma {:induction false} RelayedNoEnd(stream: seq<StreamEvent>)
    ensures NoEnd(Relay(stream))
  {
    hide Started;
    if stream != [] {
      RelayedNoEnd(stream[..|stream| - 1]);
    }
  }

  lemma AskedNoEnd(s: TurnScript)
    ensures NoEnd(AssistantEvents(s))
  {
    hide Relay, Announce;
    RelayedNoEnd(s.stream);
    AnnouncedNoEnd([AssistantOf(s)]);
    NoEndConcat(Relay(s.stream), Announce([AssistantOf(s)]));
  }

  lemma {:induction false} TriagedNoEnd(cfg: PhaseConfig, calls: seq<ToolCall>)
    ensures NoEnd(TriageOf(cfg, calls).events)
  {
    hide FateOf;
    if calls != [] {
      TriagedNoEnd(cfg, calls[..|calls| - 1]);
    }
  }

  lemma NoTaskEnds(t: Task, limit: Option<int>, n: nat)
    requires t.run.tool.executor.Some? && (forall e :: e in t.chatter ==> IsChatter(e)) && n < |ItemsOf(t, limit)|
    ensures var b := ItemsOf(t, limit)[n]; b.Emitted? ==> !b.event.AgentEnd?
  {
    hide ExecuteTool;
    var a, b, c := [Emitted(ToolExecutionStart(t.run.call))], Chatter(t.chatter), Report(t.run, limit);
    assert ItemsOf(t, limit) == a + b + c;
    if 1 <= n < 1 + |b| {
      assert ItemsOf(t, limit)[n] == b[n - 1] == Emitted(t.chatter[n - 1]);
      assert t.chatter[n - 1] in t.chatter;
    } else if n >= 1 + |b| {
      assert ItemsOf(t, limit)[n] == c[n - 1 - |b|];
    }
  }

  lemma {:induction false} QueuedNoEnd(items: seq<QueueItem>, tasks: seq<Task>, limit: Option<int>)
    requires Launchable(tasks) && Merge(items, tasks, limit)
    ensures NoEnd(Yielded(items))
  {
    hide ItemsOf, Merge, ToolPhase.Counts;
    if items != [] {
      var init, last := items[..|items| - 1], items[|items| - 1];
      MergePrefix(items, tasks, limit);
      QueuedNoEnd(init, tasks, limit);
      CountingReports(items, tasks, limit);
      SourceKnown(items, tasks, limit);
      if last.source.Some? { NoTaskEnds(tasks[last.source.value], limit, |FromSource(init, last.source.value)|); }
    }
  }

  lemma PhaseNoEnd(cfg: PhaseConfig, calls: seq<ToolCall>, a: Arrivals)
    requires Feasible(cfg, calls, a)
    ensures NoEnd(PhaseOf(cfg, calls, a.queue).events)
  {
    hide Merge, Complete, Yielded, TriageOf;
    TriagedNoEnd(cfg, calls);
    QueuedNoEnd(a.queue, Tasks(TriageOf(cfg, calls).runnable, a.chatter), cfg.limit);
    NoEndConcat(TriageOf(cfg, calls).events, Yielded(a.queue));
  }

  /** A run's events contain its end at most once, last, with its outcome; only a run
      that waits for input ends with requests. */
  ghost predicate EndsRight(st: LoopState, parked: seq<PendingInputRequest>) {
    match st.outcome
    case None => NoEnd(st.events)
    case Some(outcome) =>
      && st.events != [] && NoEnd(st.events[..|st.events| - 1])
      && st.events[|st.events| - 1] == AgentEnd(outcome, st.newMessages, parked)
      && (!outcome.WaitingInput? ==> parked == [])
  }

  lemma EndRight(st: LoopState, outcome: RunOutcome, parked: seq<PendingInputRequest>)
    requires NoEnd(st.events) && (!outcome.WaitingInput? ==> parked == [])
    ensures EndsRight(EndWith(st, outcome, parked), parked)
  {
    var e := EndWith(st, outcome, parked).events;
    assert e[..|e| - 1] == st.events;
  }

  lemma EndErrorRight(st: LoopState, text: string)
    requires NoEnd(st.events)
    ensures EndsRight(EndWithError(st, text), []) && EndWithError(st, text).outcome == Some(Failed)
  {
    var m := Stopped(Error, text);
    NoEndConcat(st.events, [MessageStart(m), MessageEnd(m), TurnEnd(m, [])]);
    EndRight(st.(messages := st.messages + [m], newMessages := st.newMessages + [m],
                 events := st.events + [MessageStart(m), MessageEnd(m), TurnEnd(m, [])]), Failed, []);
  }

  /** The requests a turn parks on, if it parks. */
  function ParkedBy(cfg: LoopConfig, s: TurnScript, outcome: Option<RunOutcome>): seq<PendingInputRequest> {
    if outcome == Some(WaitingInput) then TurnPhase(cfg, s).parked else []
  }

  lemma AdvanceRight(cfg: LoopConfig, st: LoopState, m: AgentMessage, results: seq<AgentMessage>, more: bool)
    requires NoEnd(st.events) && st.outcome.None?
    ensures EndsRight(Advance(cfg, st, m, results, more), [])
            && Advance(cfg, st, m, results, more).outcome != Some(WaitingInput)
  {
    hide NoEnd;
    assert NoEnd(st.events + [TurnEnd(m, results)]) by { TurnEndNoEnd(st.events, m, results); }
    var u := DrainSteering(cfg, st.(events := st.events + [TurnEnd(m, results)], turn := st.turn + 1));
    EndRight(u, Completed, []);
  }

  lemma TurnEndNoEnd(events: seq<AgentEvent>, m: AgentMessage, results: seq<AgentMessage>)
    requires NoEnd(events)
    ensures NoEnd(events + [TurnEnd(m, results)])
  {
  }

  lemma RespondRight(cfg: LoopConfig, st: LoopState, s: TurnScript)
    requires NoEnd(st.events) && st.outcome.None? && FeasibleTurn(cfg, s)
    ensures var t := Respond(cfg, st, s); EndsRight(t, ParkedBy(cfg, s, t.outcome))
    ensures Respond(cfg, st, s).outcome == Some(WaitingInput) ==>
              var m := AssistantOf(s);
              && !m.stopReason.Error? && !m.stopReason.Aborted? && CallsOf(m) != [] && !s.cancelledAfterTools
              && TurnPhase(cfg, s).parked != []
  {
    hide NoEnd, CallsOf, AssistantOf, PhaseOf, Feasible, Advance, EndWith, EndsRight;
    var m, p, u := AssistantOf(s), TurnPhase(cfg, s), UseTools(cfg, st, s);
    PhaseNoEnd(PhaseConfigAt(cfg, s), CallsOf(m), s.arrivals);
    NoEndConcat(st.events, p.events);
    TurnEndNoEnd(st.events, m, []);
    TurnEndNoEnd(u.events, m, p.results);
    AdvanceRight(cfg, st, m, [], false);
    AdvanceRight(cfg, u, m, p.results, true);
    var a, b := st.(events := st.events + [TurnEnd(m, [])]), u.(events := u.events + [TurnEnd(m, p.results)]);
    EndRight(a, Failed, []);
    EndRight(a, AbortedRun, []);
    EndRight(b, AbortedRun, []);
    EndRight(b, WaitingInput, p.parked);
    EndOutcomes(a, b, p.parked);
  }

  lemma EndOutcomes(a: LoopState, b: LoopState, parked: seq<PendingInputRequest>)
    ensures EndWith(a, Failed, []).outcome == Some(Failed) && EndWith(a, AbortedRun, []).outcome == Some(AbortedRun)
    ensures EndWith(b, AbortedRun, []).outcome == Some(AbortedRun)
            && EndWith(b, WaitingInput, parked).outcome == Some(WaitingInput)
  {
  }

  lemma TurnRight(cfg: LoopConfig, st: LoopState, s: TurnScript)
    requires NoEnd(st.events) && st.outcome.None? && FeasibleTurn(cfg, s)
    ensures var t := TurnStep(cfg, st, s); EndsRight(t, ParkedBy(cfg, s, t.outcome))
    ensures TurnStep(cfg, st, s).outcome == Some(WaitingInput) ==>
              var m := AssistantOf(s);
              && TurnStep(cfg, st, s) == Respond(cfg, Ask(Deliver(st, s), s), s)
              && !m.stopReason.Error? && !m.stopReason.Aborted? && CallsOf(m) != [] && !s.cancelledAfterTools
              && TurnPhase(cfg, s).parked != []
  {
    hide NoEnd, CallsOf, AssistantOf, Respond, EndsRight, TurnPhase, AssistantEvents, Announce, FeasibleTurn,
      EndWithError, TooManyTurns;
    var d := Deliver(st, s);
    var opening: seq<AgentEvent> := if st.firstTurn then [] else [TurnStart];
    assert NoEnd(opening) && NoEnd([TurnStart]) by { OpeningNoEnd(); }
    AnnouncedNoEnd(st.pending);
    NoEndConcat(st.events, opening);
    NoEndConcat(st.events + opening, Announce(st.pending));
    EndRight(d, AbortedRun, []);
    if cfg.maxTurns.Some? { EndErrorRight(d, TooManyTurns(cfg.maxTurns.value)); }
    AskedNoEnd(s);
    NoEndConcat(d.events, AssistantEvents(s));
    RespondRight(cfg, Ask(d, s), s);
  }

  lemma OpeningNoEnd()
    ensures NoEnd([]) && NoEnd([TurnStart]) && NoEnd([AgentStart, TurnStart])
  {
  }

  lemma BeginRight(cfg: LoopConfig, memory: seq<AgentMessage>, steering: seq<AgentMessage>,
                   followUps: seq<AgentMessage>, prompts: seq<AgentMessage>)
    ensures var st := Opening(cfg, memory, steering, followUps, prompts);
            EndsRight(st, []) && st.outcome != Some(WaitingInput)
  {
    hide NoEnd, Announce, AppendInterrupted, AppendedAll, EndWithError, EndsRight;
    var repaired, repairs := AppendInterrupted(memory), AppendedAll(memory);
    var st := LoopState(repaired + prompts, prompts, [], steering, followUps, 1, true,
                        [AgentStart, TurnStart] + Announce(repairs) + Announce(prompts), [], [], None);
    OpeningNoEnd();
    AnnouncedNoEnd(repairs);
    AnnouncedNoEnd(prompts);
    NoEndConcat([AgentStart, TurnStart], Announce(repairs));
    NoEndConcat([AgentStart, TurnStart] + Announce(repairs), Announce(prompts));
    EndErrorRight(st, BAD_MAX_TURNS);
    NotEndedRight(DrainSteering(cfg, st));
  }

  lemma NotEndedRight(st: LoopState)
    requires st.outcome.None? && NoEnd(st.events)
    ensures EndsRight(st, [])
  {
  }

  /** Which turn parked, and where the run stood before it. */
  ghost predicate ParkedAt(cfg: LoopConfig, st: LoopState, scripts: seq<TurnScript>, n: nat, k: nat)
    requires n <= |scripts|
  {
    && k < n
    && var u, m := RunUpTo(cfg, st, scripts, k), AssistantOf(scripts[k]);
       && u.outcome.None? && RunUpTo(cfg, st, scripts, n) == TurnStep(cfg, u, scripts[k])
       && RunUpTo(cfg, st, scripts, n) == Respond(cfg, Ask(Deliver(u, scripts[k]), scripts[k]), scripts[k])
       && !m.stopReason.Error? && !m.stopReason.Aborted? && CallsOf(m) != [] && !scripts[k].cancelledAfterTools
       && TurnPhase(cfg, scripts[k]).parked != []
  }

  lemma {:induction false} RunRight(cfg: LoopConfig, st: LoopState, scripts: seq<TurnScript>, n: nat)
    returns (parked: seq<PendingInputRequest>, k: nat)
    requires n <= |scripts| && EndsRight(st, []) && st.outcome != Some(WaitingInput)
    requires forall i :: 0 <= i < n ==> FeasibleTurn(cfg, scripts[i])
    ensures EndsRight(RunUpTo(cfg, st, scripts, n), parked)
    ensures RunUpTo(cfg, st, scripts, n).outcome == Some(WaitingInput) ==>
              ParkedAt(cfg, st, scripts, n, k) && parked == TurnPhase(cfg, scripts[k]).parked
    ensures RunUpTo(cfg, st, scripts, n).outcome != Some(WaitingInput) ==> parked == []
  {
    hide TurnStep, FeasibleTurn, AssistantOf, TurnPhase, CallsOf, Respond, Ask, Deliver;
    parked, k := [], 0;
    if n > 0 {
      parked, k := RunRight(cfg, st, scripts, n - 1);
      var u := RunUpTo(cfg, st, scripts, n - 1);
      if u.outcome.None? {
        TurnRight(cfg, u, scripts[n - 1]);
        k := n - 1;
        parked := ParkedBy(cfg, scripts[n - 1], RunUpTo(cfg, st, scripts, n).outcome);
      }
    }
  }

  /** What a run persists: the messages that ended, then the requests it parked on. */
  lemma RunPersists(st: LoopState, parked: seq<PendingInputRequest>)
    requires EndsRight(st, parked)
    ensures Persisted(st.events) == MessageEntries(Ended(st.events)) +
                                    if st.outcome == Some(WaitingInput) then RequestEntries(parked) else []
  {
    hide Ended, NoEnd, Persisted, MessageEntries, RequestEntries;
    if st.outcome.None? {
      PersistedMessages(st.events);
    } else {
      var init, last := st.events[..|st.events| - 1], st.events[|st.events| - 1];
      PersistedMessages(init);
      assert st.events == init + [last];
      EndedConcat(init, [last]);
      EndedOne(last);
      PersistedConcat(init, [last]);
      PersistedOne(last);
    }
  }

  lemma PersistedOne(e: AgentEvent)
    ensures Persisted([e]) == EntriesFor(e)
  {
    assert [e][..0] == [];
  }

  // ------------------------------------------------------ legal appends

  ghost predicate NothingAwaited(log: Log) {
    Requests(log).Keys <= ResolvedIds(log)
  }

  lemma NothingAwaitedIff(log: Log)
    ensures NothingAwaited(log) <==> Pending(log) == []
  {
    hide Requests, ResolvedIds, Pending;
    if NothingAwaited(log) {
      forall r ensures r !in Pending(log) { PendingIff(log, r); }
      NoneMeansEmpty(Pending(log));
    }
    if Pending(log) == [] {
      forall id | id in Requests(log) ensures id in ResolvedIds(log) { PendingIff(log, Requests(log)[id]); }
    }
  }

  /** Messages that keep ids fresh and results single may follow a log with nothing pending. */
  lemma {:induction false} MessagesLegal(log: Log, ms: seq<AgentMessage>)
    requires WellFormed(log) && NothingAwaited(log)
    requires FreshCalls(MessagesOf(log) + ms) && SingleResults(MessagesOf(log) + ms)
    ensures var after := log + MessageEntries(ms);
            && WellFormed(after) && Requests(after) == Requests(log) && ResolvedIds(after) == ResolvedIds(log)
            && MessagesOf(after) == MessagesOf(log) + ms
  {
    hide CallsOf, WellFormed, FreshCalls, SingleResults, Requests, ResolvedIds, MessagesOf, ResultMap;
    if ms == [] {
      assert log + MessageEntries(ms) == log && MessagesOf(log) + ms == MessagesOf(log);
    } else {
      var init, last := ms[..|ms| - 1], ms[|ms| - 1];
      assert MessagesOf(log) + ms == (MessagesOf(log) + init) + [last];
      Snoc(MessagesOf(log) + init, last);
      MessagesLegal(log, init);
      var before := log + MessageEntries(init);
      assert log + MessageEntries(ms) == before + [MessageEntry(last)];
      assert Legal(before, MessageEntry(last));
      WellFormedSnoc(before, MessageEntry(last));
      MessageDerived(before, last);
    }
  }

  lemma WellFormedSnoc(log: Log, e: Entry)
    ensures WellFormed(log + [e]) <==> WellFormed(log) && Legal(log, e)
  {
    assert (log + [e])[..|log|] == log;
  }

  lemma MessageDerived(log: Log, m: AgentMessage)
    ensures Requests(log + [MessageEntry(m)]) == Requests(log)
            && ResolvedIds(log + [MessageEntry(m)]) == ResolvedIds(log)
    ensures MessagesOf(log + [MessageEntry(m)]) == MessagesOf(log) + [m]
  {
    assert (log + [MessageEntry(m)])[..|log|] == log;
  }

  /** New requests for calls nobody has parked or answered. */
  ghost predicate NewRequests(log: Log, qs: seq<PendingInputRequest>) {
    && (forall q :: q in qs ==>
         q.id !in Requests(log) && NeverParked(log, q.toolCallId) && !HasResult(log, q.toolCallId))
    && (forall i, j :: 0 <= i < j < |qs| ==> qs[i].id != qs[j].id && qs[i].toolCallId != qs[j].toolCallId)
  }

  lemma {:induction false} RequestsLegal(log: Log, qs: seq<PendingInputRequest>)
    requires WellFormed(log) && NewRequests(log, qs)
    ensures var after := log + RequestEntries(qs);
            && WellFormed(after) && ResolvedIds(after) == ResolvedIds(log) && MessagesOf(after) == MessagesOf(log)
            && (forall id :: id in Requests(after) <==> id in Requests(log) || exists q :: q in qs && q.id == id)
            && (forall id :: id in Requests(log) ==> Requests(after)[id] == Requests(log)[id])
            && (forall q :: q in qs ==> q.id in Requests(after) && Requests(after)[q.id] == q)
  {
    hide WellFormed, Requests, ResolvedIds, MessagesOf, ResultMap;
    if qs == [] {
      assert log + RequestEntries(qs) == log;
    } else {
      var init, last := qs[..|qs| - 1], qs[|qs| - 1];
      assert forall q :: q in qs <==> q in init || q == last;
      RequestsLegal(log, init);
      var before := log + RequestEntries(init);
      assert log + RequestEntries(qs) == before + [RequestedEntry(last)];
      forall q | q in init ensures q.id != last.id && q.toolCallId != last.toolCallId {
        var k :| 0 <= k < |init| && init[k] == q;
        assert qs[k].id != qs[|qs| - 1].id;
      }
      assert Legal(before, RequestedEntry(last));
      WellFormedSnoc(before, RequestedEntry(last));
      RequestDerived(before, last);
    }
  }

  lemma RequestDerived(log: Log, q: PendingInputRequest)
    ensures Requests(log + [RequestedEntry(q)]) == Requests(log)[q.id := q]
            && ResolvedIds(log + [RequestedEntry(q)]) == ResolvedIds(log)
    ensures MessagesOf(log + [RequestedEntry(q)]) == MessagesOf(log)
  {
    assert (log + [RequestedEntry(q)])[..|log|] == log;
  }
}
