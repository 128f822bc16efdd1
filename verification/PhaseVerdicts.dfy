/** What a tool phase does with a call, told from the hook's decision and what the executor
    does: whatever the interleaving, each call heard from gets what its decision says. */
module PhaseVerdicts {
  import opened Messages
  import opened Events
  import opened Tools
  import opened RepairCanonical
  import opened Decisions
  import opened ToolPhase
  import opened PhaseOutcomes
  import opened AgentLoop
  import opened SessionLog
  import opened Protocol
  import opened ProtocolSafety
  import opened Policies
  import opened GateSafety
  import opened Effects
  import opened Responses

  /** The call has this one result, and no request. */
  ghost predicate GotResult(p: Phase, m: AgentMessage) {
    && m.ToolResultMessage? && m in p.results
    && (forall n :: n in p.results && n.ToolResultMessage? && n.toolCallId == m.toolCallId ==> n == m)
    && (forall q :: q in p.parked ==> q.toolCallId != m.toolCallId)
  }

  /** The call is parked on this one request, and has no result. */
  ghost predicate GotRequest(p: Phase, q: PendingInputRequest) {
    && q in p.parked && (forall r :: r in p.parked && r.toolCallId == q.toolCallId ==> r == q)
    && (forall n :: n in p.results ==> n.ToolResultMessage? && n.toolCallId != q.toolCallId)
  }

  ghost predicate GotError(p: Phase, c: ToolCall, text: string) {
    GotResult(p, ToolResultMessage(c.id, c.name, [TextBlock(text)], NO_DETAILS, true))
  }

  /** What a call gets: a denial's reason as an error; an approval request with the
      hook's payload or else the call's arguments; an error for a tool nobody has; a
      question for a tool without an executor; and otherwise what its executor did. */
  ghost predicate CallServed(cfg: PhaseConfig, c: ToolCall, p: Phase) {
    match Decide(cfg, c)
    case Deny(reason) => GotError(p, c, reason)
    case RequireApproval(payload, ttl) =>
      GotRequest(p, PendingInputRequest(cfg.mint(c), ToolApproval, c.id, c.name,
                                        if payload.Some? then payload.value else c.arguments, cfg.now, ttl))
    case Allow =>
      if c.name !in cfg.tools then GotError(p, c, "Tool " + c.name + " not found")
      else
        match cfg.tools[c.name].executor
        case None =>
          GotRequest(p, PendingInputRequest(cfg.mint(c), Question, c.id, c.name, c.arguments, cfg.now, cfg.questionTtl))
        case Some(run) =>
          match run(c)
          case Parked(request) => GotRequest(p, request)
          case outcome => exists m :: GotResult(p, m) && ShowsOutcome(m, c.id, c.name, outcome, cfg.limit)
  }

  lemma ResultGot(cfg: PhaseConfig, calls: seq<ToolCall>, a: Arrivals, c: ToolCall)
    requires Feasible(cfg, calls, a) && DistinctIds(calls) && AllParkOwnCalls(cfg, calls) && c in calls
    requires Heard(cfg, calls, a, c) && AnswerOf(cfg, c).Replied?
    ensures GotResult(PhaseOf(cfg, calls, a.queue), AnswerOf(cfg, c).result)
  {
    hide Feasible, AnswerOf, Heard, PhaseOf, DistinctIds, AllParkOwnCalls;
    var p, m := PhaseOf(cfg, calls, a.queue), AnswerOf(cfg, c).result;
    PhaseResults(cfg, calls, a);
    OneOutcomePerCall(cfg, calls, a, c);
    AnswerNamesCall(cfg, c);
    assert HasAnswer(cfg, calls, a, c, Replied(m));
    forall n | n in p.results && n.ToolResultMessage? && n.toolCallId == c.id ensures n == m {
      var d :| HasAnswer(cfg, calls, a, d, Replied(n));
      AnswerNamesCall(cfg, d);
      SameCall(calls, c, d);
    }
  }

  lemma RequestGot(cfg: PhaseConfig, calls: seq<ToolCall>, a: Arrivals, c: ToolCall)
    requires Feasible(cfg, calls, a) && DistinctIds(calls) && AllParkOwnCalls(cfg, calls) && c in calls
    requires Heard(cfg, calls, a, c) && AnswerOf(cfg, c).Awaits?
    ensures GotRequest(PhaseOf(cfg, calls, a.queue), AnswerOf(cfg, c).request)
  {
    hide Feasible, AnswerOf, Heard, PhaseOf, DistinctIds;
    var p, q := PhaseOf(cfg, calls, a.queue), AnswerOf(cfg, c).request;
    PhaseParks(cfg, calls, a);
    PhaseResults(cfg, calls, a);
    OneOutcomePerCall(cfg, calls, a, c);
    assert ParksOwnCall(cfg, c);
    assert HasAnswer(cfg, calls, a, c, Awaits(q));
    forall r | r in p.parked && r.toolCallId == c.id ensures r == q {
      var d :| HasAnswer(cfg, calls, a, d, Awaits(r));
      assert ParksOwnCall(cfg, d);
      SameCall(calls, c, d);
    }
    forall n | n in p.results ensures n.ToolResultMessage? && n.toolCallId != c.id { }
  }

  lemma FinishedOrParked(cfg: PhaseConfig, c: ToolCall)
    requires Decide(cfg, c).Allow? && c.name in cfg.tools && cfg.tools[c.name].executor.Some?
    ensures var outcome, answer := cfg.tools[c.name].executor.value(c), AnswerOf(cfg, c);
            && (outcome.Parked? ==> answer == Awaits(outcome.request))
            && (!outcome.Parked? ==> answer.Replied? && ShowsOutcome(answer.result, c.id, c.name, outcome, cfg.limit))
  {
    hide ExecuteTool, ShowsOutcome;
    ExecutionShows(cfg.tools[c.name], c, cfg.limit, c.id, c.name);
  }

  /** Every call heard from is served so. */
  lemma PhaseServesCall(cfg: PhaseConfig, calls: seq<ToolCall>, a: Arrivals, c: ToolCall)
    requires Feasible(cfg, calls, a) && DistinctIds(calls) && AllParkOwnCalls(cfg, calls) && c in calls
    requires Heard(cfg, calls, a, c)
    ensures CallServed(cfg, c, PhaseOf(cfg, calls, a.queue))
  {
    hide Feasible, Heard, PhaseOf, DistinctIds, AllParkOwnCalls, GotResult, GotRequest, ShowsOutcome, RunAnswer;
    if AnswerOf(cfg, c).Replied? { ResultGot(cfg, calls, a, c); } else { RequestGot(cfg, calls, a, c); }
    if Decide(cfg, c).Allow? && c.name in cfg.tools && cfg.tools[c.name].executor.Some? { FinishedOrParked(cfg, c); }
  }

  // ----------------------------------------------------------- with policies

  /** What the hook made of policies decides. */
  lemma PoliciesDecide(cfg: LoopConfig, policies: map<string, ApprovalPolicy>, default: ApprovalPolicy, id: string,
                       log: Log, c: ToolCall)
    requires Gated(cfg, policies, default, id, log)
    ensures match PolicyFor(policies, c.name, default)
            case Never => Decide(cfg.phase, c) == Allow
            case Always => Decide(cfg.phase, c) == RequireApproval(None, None)
            case Once =>
              Decide(cfg.phase, c) == if c.name in ApprovedTools(log) then Allow else RequireApproval(None, None)
            case Custom(decide) => Decide(cfg.phase, c) == decide(c.name, c.arguments, Some(id))
  {
    hide PolicyFor, ApprovedTools;
  }

  /** ... and with no log to look at: a once policy requires approval every time. */
  lemma NoLogDecides(policies: map<string, ApprovalPolicy>, default: ApprovalPolicy, c: ToolCall,
                     tool: Option<AgentTool>)
    ensures match PolicyFor(policies, c.name, default)
            case Never => BuildHook(policies, default, NoHistory)(c, tool) == Allow
            case Always => BuildHook(policies, default, NoHistory)(c, tool) == RequireApproval(None, None)
            case Once => BuildHook(policies, default, NoHistory)(c, tool) == RequireApproval(None, None)
            case Custom(decide) => BuildHook(policies, default, NoHistory)(c, tool) == decide(c.name, c.arguments, None)
  {
    hide PolicyFor;
  }

  predicate Ungated(policies: map<string, ApprovalPolicy>, default: ApprovalPolicy, log: Log, name: string) {
    var policy := PolicyFor(policies, name, default);
    policy.Never? || (policy.Once? && name in ApprovedTools(log))
  }

  /** A tool that is not gated, or was approved, runs for every call heard from: the call's
      result is what its executor did. */
  lemma UngatedRuns(cfg: LoopConfig, policies: map<string, ApprovalPolicy>, default: ApprovalPolicy, id: string,
                    log: Log, s: TurnScript, c: ToolCall)
    requires Gated(cfg, policies, default, id, log) && Ungated(policies, default, log, c.name)
    requires var phase, calls := PhaseConfigAt(cfg, s), CallsOf(AssistantOf(s));
             && Feasible(phase, calls, s.arrivals) && DistinctIds(calls) && AllParkOwnCalls(phase, calls)
             && c in calls && Heard(phase, calls, s.arrivals, c)
    requires c.name in cfg.phase.tools && cfg.phase.tools[c.name].executor.Some?
    ensures var p, outcome := TurnPhase(cfg, s), cfg.phase.tools[c.name].executor.value(c);
            if outcome.Parked? then GotRequest(p, outcome.request)
            else exists m :: GotResult(p, m) && ShowsOutcome(m, c.id, c.name, outcome, cfg.phase.limit)
  {
    hide Gated, PolicyFor, ApprovedTools, Feasible, Heard, PhaseOf, DistinctIds, AllParkOwnCalls, GotResult, GotRequest,
      ShowsOutcome, CallsOf, AssistantOf, Decide;
    PoliciesDecide(cfg, policies, default, id, log, c);
    DecideAt(cfg, s, c);
    assert Decide(PhaseConfigAt(cfg, s), c) == Allow;
    PhaseServesCall(PhaseConfigAt(cfg, s), CallsOf(AssistantOf(s)), s.arrivals, c);
  }

  predicate AsksFor(e: Entry, tool: string) {
    e.RequestedEntry? && e.request.kind.ToolApproval? && e.request.toolName == tool
  }

  ghost predicate ApprovedAt(log: Log, tool: string, requested: int, approved: int) {
    0 <= requested < approved < |log| && AsksFor(log[requested], tool)
      && IsApprovalOf(log[approved], log[requested].request.id)
  }

  /** On a lawful log a tool is approved exactly when a request to approve it stands there,
      and behind it its approval. */
  lemma ApprovedToolsIff(log: Log, tool: string)
    requires WellFormed(log)
    ensures tool in ApprovedTools(log) <==> exists requested, approved :: ApprovedAt(log, tool, requested, approved)
  {
    hide WellFormed, Approvals, Requests;
    if tool in ApprovedTools(log) {
      var id :| id in Approvals(log) && id in Requests(log) && Requests(log)[id].kind.ToolApproval?
        && Requests(log)[id].toolName == tool;
      var approved := ApprovalIn(log, id);
      PrefixWellFormed(log, approved);
      var requested := RequestIn(log[..approved], id);
      assert log[..approved][requested] == log[requested];
      var last := RequestIn(log, id);
      RequestedOnce(log, requested, last);
      assert ApprovedAt(log, tool, requested, approved);
    }
    if p, q :| ApprovedAt(log, tool, p, q) {
      var id := log[p].request.id;
      ApprovalKnown(log, q, id);
      RequestedAt(log, p, |log|);
      assert log[..|log|] == log;
      var last := RequestIn(log, id);
      RequestedOnce(log, p, last);
    }
  }
}
