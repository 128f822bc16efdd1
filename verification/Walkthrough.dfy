/** One session, start to finish: the assumptions of the whole-run theorems are met by an
    ordinary conversation in which a gated tool parks and a person approves it. */
module Walkthrough {
  import opened Messages
  import opened StreamEvents
  import opened Events
  import opened Tools
  import opened Truncation
  import opened RepairCanonical
  import opened RepairAppend
  import opened Decisions
  import opened ToolPhase
  import opened PhaseOutcomes
  import opened AgentLoop
  import opened SessionLog
  import opened Persistence
  import Protocol
  import opened Settlement
  import opened Harness
  import opened RunInvariants
  import opened RestartTransparency
  import opened RunLegality
  import opened RunParking
  import opened Policies
  import opened GateSafety
  import Lives
  import Interruptions
  import Cycle
  import opened Readiness
  import opened ResumePlan

  const CALL := ToolCall("call_1", "delete", Opaque("{}"))
  const PROMPT := UserMessage([TextBlock("clean up")])
  const ASKS := AssistantMessage([Call(CALL)], ToolUse, None)
  const POLICIES: map<string, ApprovalPolicy> := map["delete" := Once]

  function Delete(): AgentTool {
    AgentTool("delete", Some((call: ToolCall) => Returned(AgentToolResult([TextBlock("deleted")], NO_DETAILS))), false)
  }

  function Setup(log: Log): LoopConfig {
    LoopConfig(
      PhaseConfig(map["delete" := Delete()], Some(BuildHook(POLICIES, Never, HistoryOf("session", log))), None, None,
                  (call: ToolCall) => "request_1", 0),
      None, OneAtATime)
  }

  const TURN := TurnScript(7, [], [], false, [StreamDone(ToolUse, ASKS)], false, Arrivals([], [], None), false)

  function Request(): PendingInputRequest {
    PendingInputRequest("request_1", ToolApproval, "call_1", "delete", Opaque("{}"), 7, None)
  }

  lemma TheTurn()
    ensures CallsOf(ASKS) == [CALL] && AssistantOf(TURN) == ASKS && Terminals(TURN.stream) == 1
  {
    assert [Call(CALL)][1..] == [];
    assert BlockCalls([]) == [];
    assert TURN.stream[..0] == [];
  }

  lemma TheCallIsGated()
    ensures FateOf(PhaseConfigAt(Setup([]), TURN), CALL) == Parks(Request())
  {
    assert Approvals([]) == map[];
    assert ApprovedTools([]) == {};
    assert PolicyFor(POLICIES, "delete", Never) == Once;
  }

  lemma ThePhase()
    ensures var phase := PhaseConfigAt(Setup([]), TURN);
            && TriageOf(phase, [CALL]) == Triage([], map[], [Request()], [])
            && TurnPhase(Setup([]), TURN) == Phase([], [], [Request()])
            && Feasible(phase, [CALL], TURN.arrivals)
  {
    hide FateOf, CallsOf, AssistantOf, BuildHook, PhaseConfigAt;
    TheTurn();
    TheCallIsGated();
    var phase := PhaseConfigAt(Setup([]), TURN);
    assert [CALL][..0] == [];
    assert TriageOf(phase, []) == Triage([], map[], [], []);
    assert TriageOf(phase, [CALL]) == Decided(phase, TriageOf(phase, []), CALL);
    assert Ordered([CALL], map[]) == [] by { assert Ordered([], map[]) == []; }
  }

  lemma OnlyAsksOwnCall()
    ensures AllParkOwnCalls(PhaseConfigAt(Setup([]), TURN), [CALL])
    ensures AnswerOf(PhaseConfigAt(Setup([]), TURN), CALL) == Awaits(Request())
  {
    hide FateOf, BuildHook;
    TheCallIsGated();
  }

  /** The opening: nothing to repair, and the prompt is all the transcript has. */
  lemma TheOpening()
    ensures AppendedAll([]) == []
    ensures var st := Opening(Setup([]), [], [], [], [PROMPT]);
            && st.outcome.None? && st.pending == [] && st.messages == [PROMPT] && st.turn == 1
            && Transcript([], st) == [PROMPT]
  {
    hide Ended, Announce, BuildHook;
    Interruptions.AppendedAllIs([]);
    assert Interruptions.AllCalls([]) == [];
    EndedOpening([], [PROMPT]);
  }

  lemma NothingKnown()
    ensures KnownIds([PROMPT]) == {} && Plain(PROMPT) && AllPlain([PROMPT]) && AllPlain([])
  {
    assert [PROMPT][..0] == [];
    assert CallsOf(PROMPT) == [];
    assert CallIdSet([]) == {} && ResultMap([]) == map[];
  }

  lemma TheTurnIsOk()
    ensures TurnOk(Setup([]), KnownIds([PROMPT]), TURN) && FreshTurn(Setup([]), [], TURN)
  {
    hide FateOf, CallsOf, AssistantOf, BuildHook, PhaseConfigAt, Feasible, AllParkOwnCalls, AnswerOf;
    TheTurn();
    ThePhase();
    OnlyAsksOwnCall();
    NothingKnown();
    assert Requests([]) == map[];
    assert Ids([CALL]) == {"call_1"};
  }

  /** The assumptions hold for this run on an empty session, and the run parks. */
  lemma TheRunParks()
    ensures Environment(Setup([]), [], [], [], [], [PROMPT], [TURN]) && Gated(Setup([]), POLICIES, Never, "session", [])
    ensures var st := RunHarness(Setup([]), [], [], [], [PROMPT], [TURN], false).state;
            st.outcome == Some(WaitingInput) && PendingAfter([], st.events) == [Request()]
  {
    hide FateOf, CallsOf, AssistantOf, BuildHook, PhaseConfigAt, AllParkOwnCalls, AnswerOf, TurnOk, FreshTurn, Opening,
      Ended, TurnStep, AppendedAll, Announce, PhaseOf, TurnPhase, Feasible;
    var cfg := Setup([]);
    var st := Opening(cfg, [], [], [], [PROMPT]);
    TheOpening();
    TheTurnIsOk();
    NothingKnown();
    assert RunUpTo(cfg, st, [TURN], 0) == st && RunUpTo(cfg, st, [TURN], 1) == TurnStep(cfg, st, TURN);
    assert RunOk(cfg, [], st, [TURN], 0) && RunOk(cfg, [], st, [TURN], 1);
    assert MessagesOf([]) == [] && Agree([], []);
    assert Protocol.WellFormed([]) && NothingAwaited([]);
    assert FeasibleTurn(cfg, TURN) by { TurnOkMeans(); }
    assert ExecutorsDoNotGate(cfg);
    TheTurnParks(st);
  }

  lemma TurnOkMeans()
    ensures FeasibleTurn(Setup([]), TURN)
  {
    hide FateOf, CallsOf, AssistantOf, BuildHook, PhaseConfigAt, Feasible;
    TheTurn();
    ThePhase();
  }

  lemma TheTurnParks(st: LoopState)
    requires st.turn == 1
    ensures TurnStep(Setup([]), st, TURN).outcome == Some(WaitingInput)
    ensures PendingAfter([], TurnStep(Setup([]), st, TURN).events) == [Request()]
  {
    hide FateOf, CallsOf, AssistantOf, BuildHook, PhaseConfigAt, Announce, AssistantEvents, TurnPhase;
    TheTurn();
    ThePhase();
  }

  function ParkedLog(): Log {
    Persisted(RunHarness(Setup([]), [], [], [], [PROMPT], [TURN], false).Notified())
  }

  lemma ApprovalRuns(log: Log)
    requires IsPending(log, Request())
    ensures var op := Protocol.Approve(Request(), "ops", None, Delete(), CALL, None);
            && DistinctRequests([op]) && AllEnabled(log, [op]) && AllRunnable([op]) && RequestIdOf(op) == "request_1"
  {
    hide IsPending;
  }

  /** The run parks on exactly that request; once it is approved, the session is ready. */
  lemma TheSessionGoesOn()
    ensures var w := Protocol.World(ParkedLog(), []);
            var op := Protocol.Approve(Request(), "ops", None, Delete(), CALL, None);
            && Pending(w.log) != [] && !ReadyToContinue(w.log)
            && (forall q :: IsPending(w.log, q) <==> q == Request())
            && Protocol.Enabled(w.log, op) && ReadyToContinue(PerformAll(w, [op]).log)
  {
    hide Setup, RunHarness, Persisted, Environment, Protocol.Inv, Protocol.WellFormed, Gated, ReadyToContinue, Pending,
      IsPending, PendingAfter, Delete, Request, AllRunnable, AllEnabled, DistinctRequests, PerformAll, Partitioned,
      NothingAwaited, RequestIdOf, Protocol.Enabled;
    TheRunParks();
    RunIsLawful(Setup([]), [], [], [], [], [PROMPT], [TURN], false);
    var w := Protocol.World(ParkedLog(), []);
    assert [] + ParkedLog() == ParkedLog();
    var op := Protocol.Approve(Request(), "ops", None, Delete(), CALL, None);
    assert forall q :: IsPending(w.log, q) <==> q == Request();
    ApprovalRuns(w.log);
    assert Protocol.Enabled(w.log, op) by { assert AllEnabled(w.log, [op]); FirstEnabled(w.log, op); }
    RequestIs();
    forall q | q in Pending(w.log) ensures op in [op] && RequestIdOf(op) == q.id { PendingIff(w.log, q); }
    assert Protocol.Inv(Protocol.EMPTY) by { Lives.EmptyIsLawful(); }
    Cycle.ParkedThenSettledIsReady(Setup([]), Protocol.EMPTY, [], [], [], [PROMPT], [TURN], [op]);
  }

  lemma FirstEnabled(log: Log, op: Protocol.Operation)
    requires AllEnabled(log, [op])
    ensures Protocol.Enabled(log, op)
  {
    assert [op][0] == op;
  }

  lemma RequestIs()
    ensures Request().id == "request_1"
  {
  }
}
