/** Gates in one run: what the loop executes is what the policies let it, and the only
    approvals a run asks for are those its policies require. */
module GateSafety {
  import opened Messages
  import opened Events
  import opened Tools
  import opened Decisions
  import opened ToolPhase
  import opened PhaseOutcomes
  import opened AgentLoop
  import opened SessionLog
  import opened Persistence
  import opened Harness
  import opened RunLegality
  import opened Policies

  // --------------------------------------------------- what the loop executes

  lemma {:induction false} RunnableAllowed(cfg: PhaseConfig, calls: seq<ToolCall>)
    ensures forall r :: r in TriageOf(cfg, calls).runnable ==> Decide(cfg, r.call) == Allow
  {
    if calls != [] { RunnableAllowed(cfg, calls[..|calls| - 1]); }
  }

  ghost predicate AllAllowed(cfg: LoopConfig, runs: seq<Runnable>) {
    forall r :: r in runs ==> Decide(cfg.phase, r.call) == Allow
  }

  lemma DecideAt(cfg: LoopConfig, s: TurnScript, call: ToolCall)
    ensures Decide(PhaseConfigAt(cfg, s), call) == Decide(cfg.phase, call)
  {
  }

  lemma TurnAllowed(cfg: LoopConfig, st: LoopState, s: TurnScript)
    requires AllAllowed(cfg, st.launched)
    ensures AllAllowed(cfg, TurnStep(cfg, st, s).launched)
  {
    hide CallsOf, AssistantOf, PhaseOf, AssistantEvents, Announce, TooManyTurns, Decide, TriageOf, PhaseConfigAt;
    var calls := CallsOf(AssistantOf(s));
    var more := TriageOf(PhaseConfigAt(cfg, s), calls).runnable;
    RunnableAllowed(PhaseConfigAt(cfg, s), calls);
    forall r | r in more ensures Decide(cfg.phase, r.call) == Allow { DecideAt(cfg, s, r.call); }
    assert AllAllowed(cfg, st.launched + more);
    LaunchedAre(cfg, st, s);
  }

  lemma LaunchedAre(cfg: LoopConfig, st: LoopState, s: TurnScript)
    ensures TurnStep(cfg, st, s).launched in
              {st.launched, st.launched + TriageOf(PhaseConfigAt(cfg, s), CallsOf(AssistantOf(s))).runnable}
  {
    hide CallsOf, AssistantOf, PhaseOf, AssistantEvents, Announce, TooManyTurns, TriageOf, PhaseConfigAt;
  }

  /** Every executor a run starts belongs to a call the hook allowed. */
  lemma {:induction false} LaunchedWereAllowed(cfg: LoopConfig, st: LoopState, scripts: seq<TurnScript>, n: nat)
    requires n <= |scripts| && st.launched == []
    ensures AllAllowed(cfg, RunUpTo(cfg, st, scripts, n).launched)
  {
    hide TurnStep, Decide;
    if n > 0 {
      LaunchedWereAllowed(cfg, st, scripts, n - 1);
      var u := RunUpTo(cfg, st, scripts, n - 1);
      if u.outcome.None? { TurnAllowed(cfg, u, scripts[n - 1]); }
    }
  }

  // ----------------------------------------------------- what the loop requests

  /** No executor parks by asking for an approval itself. */
  ghost predicate ExecutorsDoNotGate(cfg: LoopConfig) {
    forall name, call: ToolCall :: name in cfg.phase.tools && cfg.phase.tools[name].executor.Some? ==>
      match cfg.phase.tools[name].executor.value(call)
      case Parked(request) => !request.kind.ToolApproval?
      case _ => true
  }

  lemma NoExecutorGates(cfg: LoopConfig, name: string, call: ToolCall)
    requires ExecutorsDoNotGate(cfg) && name in cfg.phase.tools && cfg.phase.tools[name].executor.Some?
    ensures var x := cfg.phase.tools[name].executor.value(call); x.Parked? ==> !x.request.kind.ToolApproval?
  {
  }

  /** The hook requires approval for some call of the tool. */
  ghost predicate Gates(cfg: PhaseConfig, tool: string) {
    exists c: ToolCall :: c.name == tool && Decide(cfg, c).RequireApproval?
  }

  ghost predicate OnlyGatedAsked(cfg: PhaseConfig, qs: seq<PendingInputRequest>) {
    forall q :: q in qs && q.kind.ToolApproval? ==> Gates(cfg, q.toolName)
  }

  ghost predicate Configured(cfg: PhaseConfig, r: Runnable) {
    r.call.name in cfg.tools && r.tool == cfg.tools[r.call.name] && r.tool.executor.Some?
  }

  lemma FateAsks(cfg: PhaseConfig, c: ToolCall)
    ensures FateOf(cfg, c).Parks? ==> OnlyGatedAsked(cfg, [FateOf(cfg, c).request])
    ensures FateOf(cfg, c).Runs? ==> Configured(cfg, Runnable(c, FateOf(cfg, c).tool))
  {
  }

  /** Whatever the calls, triage asks only where the hook requires it. */
  lemma {:induction false} TriageAsks(cfg: PhaseConfig, calls: seq<ToolCall>)
    ensures OnlyGatedAsked(cfg, TriageOf(cfg, calls).parked)
    ensures forall r :: r in TriageOf(cfg, calls).runnable ==> Configured(cfg, r)
  {
    hide FateOf, Gates, Configured;
    if calls != [] {
      TriageAsks(cfg, calls[..|calls| - 1]);
      FateAsks(cfg, calls[|calls| - 1]);
      var c := calls[|calls| - 1];
      if FateOf(cfg, c).Parks? { assert FateOf(cfg, c).request in [FateOf(cfg, c).request]; }
    }
  }

  ghost predicate TaskAwaits(tasks: seq<Task>, limit: Option<int>, i: nat, q: PendingInputRequest)
    requires Launchable(tasks)
  {
    i < |tasks| && RunAnswer(tasks[i].run, limit) == Awaits(q)
  }

  /** A request signalled on the queue is some task's answer. */
  lemma {:induction false} SignalsAreAnswers(items: seq<QueueItem>, tasks: seq<Task>, limit: Option<int>)
    requires Launchable(tasks) && Merge(items, tasks, limit)
    ensures forall q :: q in SignalsIn(items) ==> exists i: nat :: TaskAwaits(tasks, limit, i, q)
  {
    hide ItemsOf, Merge, RunAnswer, Launchable;
    if items != [] {
      var last := items[|items| - 1];
      MergePrefix(items, tasks, limit);
      SignalsAreAnswers(items[..|items| - 1], tasks, limit);
      if last.body.Signal? {
        EndItem(items, tasks, limit);
        EndAwaits(tasks, limit, last.source.value, last.body.request);
      }
    }
  }

  lemma EndAwaits(tasks: seq<Task>, limit: Option<int>, i: nat, q: PendingInputRequest)
    requires Launchable(tasks) && i < |tasks| && ItemsOf(tasks[i], limit)[|ItemsOf(tasks[i], limit)| - 1] == Signal(q)
    ensures TaskAwaits(tasks, limit, i, q)
  {
    LastItemIsAnswer(tasks[i], limit);
  }

  lemma {:induction false} DrainedParks(o: Outcomes, items: seq<QueueItem>)
    ensures Drained(o, items).parked == o.parked + SignalsIn(items)
  {
    if items != [] { DrainedParks(o, items[..|items| - 1]); }
  }

  lemma TaskAsksNoApproval(cfg: LoopConfig, s: TurnScript, r: Runnable)
    requires ExecutorsDoNotGate(cfg) && Configured(PhaseConfigAt(cfg, s), r)
    ensures RunAnswer(r, cfg.phase.limit).Awaits? ==> !RunAnswer(r, cfg.phase.limit).request.kind.ToolApproval?
  {
    NoExecutorGates(cfg, r.call.name, r.call);
  }

  /** A phase asks for approvals only where the hook requires them. */
  lemma PhaseAsks(cfg: LoopConfig, s: TurnScript)
    requires ExecutorsDoNotGate(cfg) && FeasibleTurn(cfg, s)
    ensures OnlyGatedAsked(PhaseConfigAt(cfg, s), TurnPhase(cfg, s).parked)
  {
    hide CallsOf, AssistantOf, TriageOf, Drained, Gates, Merge, Complete, RunAnswer, PhaseConfigAt, Configured,
      ExecutorsDoNotGate;
    var phase, calls, a := PhaseConfigAt(cfg, s), CallsOf(AssistantOf(s)), s.arrivals;
    var t := TriageOf(phase, calls);
    var tasks := Tasks(t.runnable, a.chatter);
    TriageAsks(phase, calls);
    DrainedParks(Outcomes(t.results, t.parked), a.queue);
    SignalsAreAnswers(a.queue, tasks, phase.limit);
    forall q | q in SignalsIn(a.queue) ensures !q.kind.ToolApproval? {
      var i: nat :| TaskAwaits(tasks, phase.limit, i, q);
      assert tasks[i].run in t.runnable && phase.limit == cfg.phase.limit by { PhaseLimit(cfg, s); }
      TaskAsksNoApproval(cfg, s, tasks[i].run);
    }
  }

  lemma PhaseLimit(cfg: LoopConfig, s: TurnScript)
    ensures PhaseConfigAt(cfg, s).limit == cfg.phase.limit
    ensures forall tool :: Gates(PhaseConfigAt(cfg, s), tool) ==> Gates(cfg.phase, tool)
  {
    forall tool | Gates(PhaseConfigAt(cfg, s), tool) ensures Gates(cfg.phase, tool) {
      var c: ToolCall :| c.name == tool && Decide(PhaseConfigAt(cfg, s), c).RequireApproval?;
      DecideAt(cfg, s, c);
    }
  }

  // ------------------------------------------------------------------- runs

  /** A gated configuration: its hook is made of these policies and this log. */
  ghost predicate Gated(cfg: LoopConfig, policies: map<string, ApprovalPolicy>, default: ApprovalPolicy, id: string,
                        log: Log) {
    && cfg.phase.hook == Some(BuildHook(policies, default, HistoryOf(id, log)))
    && ExecutorsDoNotGate(cfg)
  }

  lemma GatedDecides(cfg: LoopConfig, policies: map<string, ApprovalPolicy>, default: ApprovalPolicy, id: string,
                     log: Log, c: ToolCall)
    requires Gated(cfg, policies, default, id, log)
    ensures PolicyFor(policies, c.name, default).Always? ==> Decide(cfg.phase, c).RequireApproval?
    ensures PolicyFor(policies, c.name, default).Once? ==>
              Decide(cfg.phase, c) == if c.name in ApprovedTools(log) then Allow else RequireApproval(None, None)
  {
    hide PolicyFor, ApprovedTools;
  }

  /** In the loop, an always-gated tool never executes, and a once-gated tool only when
      the log has an approval for it. */
  lemma LoopRespectsGates(cfg: LoopConfig, policies: map<string, ApprovalPolicy>, default: ApprovalPolicy, id: string,
                          log: Log, memory: seq<AgentMessage>, steering: seq<AgentMessage>,
                          followUps: seq<AgentMessage>, prompts: seq<AgentMessage>, scripts: seq<TurnScript>,
                          cancelled: bool, r: Runnable)
    requires Gated(cfg, policies, default, id, log)
    requires r in RunHarness(cfg, memory, steering, followUps, prompts, scripts, cancelled).state.launched
    ensures !PolicyFor(policies, r.call.name, default).Always?
    ensures PolicyFor(policies, r.call.name, default).Once? ==> r.call.name in ApprovedTools(log)
  {
    hide PolicyFor, ApprovedTools, Gated, Decide, RunUpTo, Announce;
    var st := Opening(cfg, memory, steering, followUps, prompts);
    LaunchedWereAllowed(cfg, st, scripts, |scripts|);
    GatedDecides(cfg, policies, default, id, log, r.call);
  }

  /** What a run persists is messages, and the requests it parked on. */
  lemma EntriesOfRun(cfg: LoopConfig, memory: seq<AgentMessage>, steering: seq<AgentMessage>,
                     followUps: seq<AgentMessage>, prompts: seq<AgentMessage>, scripts: seq<TurnScript>,
                     cancelled: bool, parked: seq<PendingInputRequest>, e: Entry)
    requires EndsRight(RunUpTo(cfg, Opening(cfg, memory, steering, followUps, prompts), scripts, |scripts|), parked)
    requires e in Persisted(RunHarness(cfg, memory, steering, followUps, prompts, scripts, cancelled).Notified())
    ensures e.MessageEntry? || (e.RequestedEntry? && e.request in parked)
    ensures e.RequestedEntry? ==>
              RunUpTo(cfg, Opening(cfg, memory, steering, followUps, prompts), scripts, |scripts|).outcome
                == Some(WaitingInput)
  {
    hide Persisted, RunUpTo, Opening, EndsRight, Announce, Ended;
    var x := RunUpTo(cfg, Opening(cfg, memory, steering, followUps, prompts), scripts, |scripts|);
    var tail := RunHarness(cfg, memory, steering, followUps, prompts, scripts, cancelled).tail;
    RunPersists(x, parked);
    PersistedConcat(x.events, Announce(tail));
    AnnouncedNoEnd(tail);
    PersistedMessages(Announce(tail));
  }

  /** A run that may be cut off anywhere or cancelled at any time, of a harness that
      remembers anything, persists messages and requests; the approvals it asks for
      are required by its hook. */
  lemma RunAsks(cfg: LoopConfig, memory: seq<AgentMessage>, steering: seq<AgentMessage>, followUps: seq<AgentMessage>,
                prompts: seq<AgentMessage>, scripts: seq<TurnScript>, cancelled: bool, e: Entry)
    requires FeasibleRun(cfg, scripts) && ExecutorsDoNotGate(cfg)
    requires e in Persisted(RunHarness(cfg, memory, steering, followUps, prompts, scripts, cancelled).Notified())
    ensures e.MessageEntry? || (e.RequestedEntry?
            && (e.request.kind.ToolApproval? ==> Gates(cfg.phase, e.request.toolName)))
  {
    hide Persisted, RunUpTo, Opening, EndsRight, ParkedAt, TurnPhase, FeasibleTurn, ExecutorsDoNotGate, Gates,
      RunHarness;
    var st0, n := Opening(cfg, memory, steering, followUps, prompts), |scripts|;
    BeginRight(cfg, memory, steering, followUps, prompts);
    var parked, k := RunRight(cfg, st0, scripts, n);
    EntriesOfRun(cfg, memory, steering, followUps, prompts, scripts, cancelled, parked, e);
    if e.RequestedEntry? {
      assert k < n by { ParkedAtTurn(cfg, st0, scripts, n, k); }
      PhaseAsks(cfg, scripts[k]);
      PhaseLimit(cfg, scripts[k]);
    }
  }

  lemma ParkedAtTurn(cfg: LoopConfig, st: LoopState, scripts: seq<TurnScript>, n: nat, k: nat)
    requires n <= |scripts| && ParkedAt(cfg, st, scripts, n, k)
    ensures k < n
  {
  }
}
