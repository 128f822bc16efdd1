/** A session's whole life: runs of the loop, resolutions, sweeps, child completions,
    repairs and skips in any order, each cut off by a crash anywhere. */
module Lives {
  import opened Messages
  import opened Events
  import opened Tools
  import opened Decisions
  import opened ToolPhase
  import opened AgentLoop
  import opened SessionLog
  import opened Persistence
  import opened Protocol
  import opened ProtocolSafety
  import opened Readiness
  import opened Harness
  import opened RestartTransparency
  import opened RunParking
  import opened Policies
  import opened GateSafety

  /** A run of some harness, whatever it remembers and has queued. */
  datatype RunCall = RunCall(
    cfg: LoopConfig, memory: seq<AgentMessage>, steering: seq<AgentMessage>, followUps: seq<AgentMessage>,
    prompts: seq<AgentMessage>, scripts: seq<TurnScript>, cancelled: bool)

  /** One thing that happens to a session: a resume-side operation, or a run; either is
      cut off by a crash after `cut` actions or appends, or not at all. */
  datatype Episode = Operated(step: Step) | Ran(run: RunCall, cut: nat)

  function RunFor(c: RunCall): HarnessRun {
    RunHarness(c.cfg, c.memory, c.steering, c.followUps, c.prompts, c.scripts, c.cancelled)
  }

  /** What a run persists. */
  function RanEntries(c: RunCall): seq<Entry> { Persisted(RunFor(c).Notified()) }

  function Play(w: World, e: Episode): World {
    match e
    case Operated(step) => Perform(w, step)
    case Ran(run, cut) => w.(log := w.log + CutAt(RanEntries(run), cut))
  }

  function CutAt(es: seq<Entry>, cut: nat): seq<Entry> { es[..if cut <= |es| then cut else |es|] }

  function Lifetime(w: World, es: seq<Episode>): World {
    if es == [] then w else Play(Lifetime(w, es[..|es| - 1]), es[|es| - 1])
  }

  // ------------------------------------------------ once per approval, always

  /** Operations happen where the protocol performs them; of runs nothing is asked. */
  ghost predicate ProtocolFollowed(w: World, es: seq<Episode>) {
    es == [] || (
      && ProtocolFollowed(w, es[..|es| - 1])
      && (es[|es| - 1].Operated? ==> Enabled(Lifetime(w, es[..|es| - 1]).log, es[|es| - 1].step.op)))
  }

  /** Executions of tools not marked idempotent are of resolved requests, and no two of
      them are of the same request. */
  ghost predicate OncePerRequest(w: World) {
    && (forall i :: 0 <= i < |w.trace| && !w.trace[i].idempotent ==> w.trace[i].requestId in ResolvedIds(w.log))
    && (forall i, j :: 0 <= i < j < |w.trace| && !w.trace[i].idempotent && !w.trace[j].idempotent ==>
          w.trace[i].requestId != w.trace[j].requestId)
  }

  lemma LogGrowsOnce(w: World, more: Log)
    requires OncePerRequest(w)
    ensures OncePerRequest(w.(log := w.log + more))
  {
    hide ResolvedIds;
    forall id | id in ResolvedIds(w.log) ensures id in ResolvedIds(w.log + more) {
      assert (w.log + more)[..|w.log|] == w.log;
      ResolvedBefore(w.log + more, |w.log|, id);
    }
  }

  /** An execution is of an idempotent tool, or of a request just resolved that no
      earlier execution was of. */
  lemma OneMoreExecution(w: World, a: Action)
    requires OncePerRequest(w) && a.Execute?
    requires a.idempotent || (
               && a.requestId in ResolvedIds(w.log)
               && forall i :: 0 <= i < |w.trace| && !w.trace[i].idempotent ==> w.trace[i].requestId != a.requestId)
    ensures OncePerRequest(Act(w, a))
  {
  }

  /** An approval: its request was pending, so it was of none of the earlier executions. */
  lemma ApprovalIsNew(w: World, op: Operation)
    requires op.Approve? && Enabled(w.log, op) && OncePerRequest(w)
    ensures var v, a := ActUpTo(w, Actions(op), 2), Actions(op)[2];
            && v.trace == w.trace && a.Execute? && a.requestId in ResolvedIds(v.log)
            && forall i :: 0 <= i < |v.trace| && !v.trace[i].idempotent ==> v.trace[i].requestId != a.requestId
  {
    hide ExecuteTool;
    var acts := Actions(op);
    assert ActUpTo(w, acts, 0) == w;
    assert ActUpTo(w, acts, 1) == Act(w, acts[0]);
    assert ActUpTo(w, acts, 2) == Act(Act(w, acts[0]), acts[1]);
    AppendMessages(w.log, acts[0].entry);
    AppendMessages(w.log + [acts[0].entry], acts[1].entry);
  }

  lemma ActionIs(op: Operation, n: nat)
    requires n < |Actions(op)| && Actions(op)[n].Execute?
    ensures (op.Approve? && n == 2) || (op.Rerun? && Actions(op)[n].idempotent == op.tool.idempotent)
  {
    hide ExecuteTool;
  }

  lemma {:induction false} OperationRunsOnce(w: World, op: Operation, n: nat)
    requires OncePerRequest(w) && Enabled(w.log, op) && n <= |Actions(op)|
    ensures OncePerRequest(ActUpTo(w, Actions(op), n))
  {
    hide OncePerRequest, Windows, IsPending, Actions;
    if n > 0 {
      OperationRunsOnce(w, op, n - 1);
      var v, a := ActUpTo(w, Actions(op), n - 1), Actions(op)[n - 1];
      if a.Append? {
        LogGrowsOnce(v, [a.entry]);
      } else {
        ActionIs(op, n - 1);
        if op.Approve? { ApprovalIsNew(w, op); }
        OneMoreExecution(v, a);
      }
    }
  }

  lemma {:induction false} LifeRunsOnce(es: seq<Episode>)
    requires ProtocolFollowed(EMPTY, es)
    ensures OncePerRequest(Lifetime(EMPTY, es))
  {
    hide OncePerRequest, Enabled, Actions, RanEntries;
    if es == [] {
      assert OncePerRequest(EMPTY) by { NothingRan(); }
    } else {
      LifeRunsOnce(es[..|es| - 1]);
      var w, e := Lifetime(EMPTY, es[..|es| - 1]), es[|es| - 1];
      match e
      case Operated(step) =>
        OperationRunsOnce(w, step.op, if step.cut <= |Actions(step.op)| then step.cut else |Actions(step.op)|);
      case Ran(run, cut) =>
        LogGrowsOnce(w, CutAt(RanEntries(run), cut));
    }
  }

  lemma NothingRan()
    ensures OncePerRequest(EMPTY)
  {
  }

  /** At most one run of the executor per approval request, over lives with any runs of
      the loop, cancelled anywhere, and crashes anywhere. */
  lemma AtMostOnceInAnyLife(es: seq<Episode>, requestId: string)
    requires ProtocolFollowed(EMPTY, es)
    ensures OncePerRequest(Lifetime(EMPTY, es))
    ensures NeverIdempotent(Lifetime(EMPTY, es), requestId) ==> RunsAtMostOnce(Lifetime(EMPTY, es), requestId)
  {
    hide Lifetime, ProtocolFollowed;
    LifeRunsOnce(es);
  }

  // ----------------------------------------------------------- gates, always

  predicate AsksApproval(e: Entry, tool: string) {
    e.RequestedEntry? && e.request.kind.ToolApproval? && e.request.toolName == tool
  }

  /** No approval request for the tool stands behind an approval of it, and no request
      is raised under an id that is already resolved. */
  ghost predicate GatesHold(log: Log, tool: string) {
    log == [] || (
      && GatesHold(log[..|log| - 1], tool)
      && MayFollow(log[..|log| - 1], log[|log| - 1], tool))
  }

  ghost predicate MayFollow(log: Log, e: Entry, tool: string) {
    && (AsksApproval(e, tool) ==> tool !in ApprovedTools(log))
    && (e.RequestedEntry? ==> e.request.id !in ResolvedIds(log))
  }

  lemma GatesSnoc(log: Log, e: Entry, tool: string)
    requires GatesHold(log, tool) && MayFollow(log, e, tool)
    ensures GatesHold(log + [e], tool)
  {
    assert (log + [e])[..|log|] == log;
  }

  lemma {:induction false} GatesAt(log: Log, tool: string, p: nat)
    requires GatesHold(log, tool) && p < |log|
    ensures MayFollow(log[..p], log[p], tool)
  {
    hide MayFollow;
    if p < |log| - 1 {
      GatesAt(log[..|log| - 1], tool, p);
      assert log[..|log| - 1][..p] == log[..p];
    }
  }

  /** No approval request for the tool stands behind an approval of it. */
  ghost predicate AskedBeforeApproved(log: Log, tool: string) {
    forall p :: 0 <= p < |log| && AsksApproval(log[p], tool) ==> tool !in ApprovedTools(log[..p])
  }

  lemma GatesMean(log: Log, tool: string)
    requires GatesHold(log, tool)
    ensures AskedBeforeApproved(log, tool)
  {
    hide ApprovedTools, GatesHold;
    forall p | 0 <= p < |log| && AsksApproval(log[p], tool)
      ensures tool !in ApprovedTools(log[..p]) { GatesAt(log, tool, p); }
  }

  lemma {:induction false} ApprovedAreResolved(log: Log)
    ensures Approvals(log).Keys <= ResolvedIds(log)
  {
    if log != [] { ApprovedAreResolved(log[..|log| - 1]); }
  }

  /** Only a resolution approves anything, as long as no resolved request is raised again. */
  lemma ApprovedKept(log: Log, e: Entry)
    requires !e.ResolvedEntry? && (e.RequestedEntry? ==> e.request.id !in ResolvedIds(log))
    ensures ApprovedTools(log + [e]) == ApprovedTools(log) && ResolvedIds(log + [e]) == ResolvedIds(log)
  {
    ApprovedAreResolved(log);
    assert (log + [e])[..|log|] == log;
  }

  /** Entries that resolve nothing, appended one by one. */
  lemma {:induction false} EntriesKeepGates(log: Log, es: seq<Entry>, tool: string)
    requires GatesHold(log, tool) && forall e :: e in es ==> !e.ResolvedEntry? && MayFollow(log, e, tool)
    ensures GatesHold(log + es, tool) && ApprovedTools(log + es) == ApprovedTools(log)
            && ResolvedIds(log + es) == ResolvedIds(log)
  {
    hide GatesHold, ApprovedTools, ResolvedIds;
    if es == [] {
      assert log + es == log;
    } else {
      var init, last := es[..|es| - 1], es[|es| - 1];
      assert last in es && forall e :: e in init ==> e in es;
      EntriesKeepGates(log, init, tool);
      assert log + es == (log + init) + [last];
      ApprovedKept(log + init, last);
      GatesSnoc(log + init, last, tool);
    }
  }

  /** No resume-side operation raises a request. */
  lemma {:induction false} OperationKeepsGates(w: World, op: Operation, n: nat, tool: string)
    requires n <= |Actions(op)| && !op.Persist? && GatesHold(w.log, tool)
    ensures GatesHold(ActUpTo(w, Actions(op), n).log, tool)
  {
    hide GatesHold, ApprovedTools, ExecuteTool;
    if n > 0 {
      OperationKeepsGates(w, op, n - 1, tool);
      var v, a := ActUpTo(w, Actions(op), n - 1), Actions(op)[n - 1];
      if a.Append? { GatesSnoc(v.log, a.entry, tool); }
    }
  }

  /** When an episode may happen: an operation where the protocol performs it; a run of a
      harness whose hook is made of these policies and this log, raising no request
      under an id already resolved. */
  ghost predicate MayHappen(w: World, e: Episode, policies: map<string, ApprovalPolicy>, default: ApprovalPolicy,
                            id: string) {
    match e
    case Operated(step) => Enabled(w.log, step.op) && !step.op.Persist?
    case Ran(run, cut) =>
      && FeasibleRun(run.cfg, run.scripts) && Gated(run.cfg, policies, default, id, w.log)
      && forall e :: e in RanEntries(run) && e.RequestedEntry? ==> e.request.id !in ResolvedIds(w.log)
  }

  ghost predicate MayAllHappen(w: World, es: seq<Episode>, policies: map<string, ApprovalPolicy>,
                               default: ApprovalPolicy, id: string) {
    es == [] || (
      && MayAllHappen(w, es[..|es| - 1], policies, default, id)
      && MayHappen(Lifetime(w, es[..|es| - 1]), es[|es| - 1], policies, default, id))
  }

  /** A gated run asks approval only for tools not approved yet. */
  lemma RunMayFollow(run: RunCall, policies: map<string, ApprovalPolicy>, default: ApprovalPolicy, id: string, log: Log,
                     tool: string, e: Entry)
    requires FeasibleRun(run.cfg, run.scripts) && Gated(run.cfg, policies, default, id, log)
    requires PolicyFor(policies, tool, default).Once?
    requires e in RanEntries(run) && (e.RequestedEntry? ==> e.request.id !in ResolvedIds(log))
    ensures !e.ResolvedEntry? && MayFollow(log, e, tool)
  {
    hide RunHarness, Persisted, FeasibleRun, ApprovedTools, PolicyFor, Decide, ExecutorsDoNotGate;
    RunAsks(run.cfg, run.memory, run.steering, run.followUps, run.prompts, run.scripts, run.cancelled, e);
    if AsksApproval(e, tool) {
      var c: ToolCall :| c.name == tool && Decide(run.cfg.phase, c).RequireApproval?;
      GatedDecides(run.cfg, policies, default, id, log, c);
    }
  }

  lemma EpisodeKeepsGates(w: World, e: Episode, policies: map<string, ApprovalPolicy>, default: ApprovalPolicy,
                          id: string, tool: string)
    requires MayHappen(w, e, policies, default, id) && PolicyFor(policies, tool, default).Once?
             && GatesHold(w.log, tool)
    ensures GatesHold(Play(w, e).log, tool)
  {
    hide GatesHold, Gated, PolicyFor, RanEntries, Enabled, Actions, MayFollow, FeasibleRun;
    match e
    case Operated(step) =>
      OperationKeepsGates(w, step.op, if step.cut <= |Actions(step.op)| then step.cut else |Actions(step.op)|, tool);
    case Ran(run, cut) =>
      var es := CutAt(RanEntries(run), cut);
      forall e | e in es ensures !e.ResolvedEntry? && MayFollow(w.log, e, tool) {
        RunMayFollow(run, policies, default, id, w.log, tool, e);
      }
      EntriesKeepGates(w.log, es, tool);
  }

  /** Over a session's whole life no approval request for a once-gated tool stands
      behind an approval of it. */
  lemma {:induction false} GatesKept(es: seq<Episode>, policies: map<string, ApprovalPolicy>, default: ApprovalPolicy,
                                     id: string, tool: string)
    requires MayAllHappen(EMPTY, es, policies, default, id) && PolicyFor(policies, tool, default).Once?
    ensures GatesHold(Lifetime(EMPTY, es).log, tool) && AskedBeforeApproved(Lifetime(EMPTY, es).log, tool)
  {
    hide MayHappen, PolicyFor, GatesHold, AskedBeforeApproved, Play;
    if es == [] {
      assert GatesHold(EMPTY.log, tool) by { NothingAsked(tool); }
    } else {
      GatesKept(es[..|es| - 1], policies, default, id, tool);
      EpisodeKeepsGates(Lifetime(EMPTY, es[..|es| - 1]), es[|es| - 1], policies, default, id, tool);
    }
    GatesMean(Lifetime(EMPTY, es).log, tool);
  }

  lemma NothingAsked(tool: string)
    ensures GatesHold(EMPTY.log, tool)
  {
  }

  /** The approval behind a once-gated run: requested, then approved, in this log. */
  lemma ApprovedMeans(log: Log, tool: string) returns (requested: nat, approved: nat)
    requires GatesHold(log, tool) && tool in ApprovedTools(log)
    ensures requested < approved < |log| && AsksApproval(log[requested], tool)
    ensures IsApprovalOf(log[approved], log[requested].request.id)
  {
    hide GatesHold, Approvals, Requests, ResolvedIds;
    var id :| id in Approvals(log) && id in Requests(log) && Requests(log)[id].kind.ToolApproval?
      && Requests(log)[id].toolName == tool;
    approved := ApprovalIn(log, id);
    requested := RequestIn(log, id);
    assert Requests(log)[id].id == id;
    GatesAt(log, tool, requested);
    if approved < requested { ResolvedAt(log, approved, requested); }
  }

  /** ... and in the run it ends with, if it ends with one, an always-gated tool is not
      executed, and a once-gated one only behind an approval in the log. */
  lemma GatedExecution(es: seq<Episode>, policies: map<string, ApprovalPolicy>, default: ApprovalPolicy, id: string,
                       r: Runnable)
    returns (requested: nat, approved: nat)
    requires es != [] && es[|es| - 1].Ran? && MayAllHappen(EMPTY, es, policies, default, id)
    requires r in RunFor(es[|es| - 1].run).state.launched
    ensures !PolicyFor(policies, r.call.name, default).Always?
    ensures var log := Lifetime(EMPTY, es[..|es| - 1]).log;
            PolicyFor(policies, r.call.name, default).Once? ==>
              && requested < approved < |log| && AsksApproval(log[requested], r.call.name)
              && IsApprovalOf(log[approved], log[requested].request.id)
  {
    hide PolicyFor, Lifetime, RunHarness, RanEntries, Gated, ApprovedTools, GatesHold, AskedBeforeApproved, FeasibleRun;
    var log, c := Lifetime(EMPTY, es[..|es| - 1]).log, es[|es| - 1].run;
    LoopRespectsGates(c.cfg, policies, default, id, log, c.memory, c.steering, c.followUps, c.prompts, c.scripts,
                      c.cancelled, r);
    requested, approved := 0, 0;
    if PolicyFor(policies, r.call.name, default).Once? {
      GatesKept(es[..|es| - 1], policies, default, id, r.call.name);
      requested, approved := ApprovedMeans(log, r.call.name);
    }
  }

  // ------------------------------------------- the whole invariant, orderly lives

  /** A run begun with nothing awaited, under the environment's assumptions, and not
      cancelled once it parked. */
  ghost predicate OrderlyRun(log: Log, c: RunCall) {
    && Environment(c.cfg, log, c.memory, c.steering, c.followUps, c.prompts, c.scripts)
    && !(c.cancelled && RunFor(c).state.outcome == Some(WaitingInput))
  }

  ghost predicate Orderly(w: World, es: seq<Episode>) {
    es == [] || (
      && Orderly(w, es[..|es| - 1])
      && match es[|es| - 1]
         case Operated(step) => Enabled(Lifetime(w, es[..|es| - 1]).log, step.op)
         case Ran(run, _) => OrderlyRun(Lifetime(w, es[..|es| - 1]).log, run))
  }

  lemma LogGrows(w: World, es: seq<Entry>)
    requires Inv(w) && WellFormed(w.log + es)
    ensures Inv(w.(log := w.log + es))
  {
    hide WellFormed, Justified;
    var r := w.(log := w.log + es);
    forall i | 0 <= i < |r.trace| ensures Justified(r.log, r.trace[i]) { JustifiedLater(w.log, w.trace[i], es); }
  }

  lemma RunKeepsInv(w: World, c: RunCall, cut: nat)
    requires Inv(w) && OrderlyRun(w.log, c)
    ensures Inv(Play(w, Ran(c, cut)))
  {
    hide Inv, WellFormed, Environment, Persisted, RunHarness, Partitioned, IsPending, PendingAfter;
    var es := RanEntries(c);
    var n := if cut <= |es| then cut else |es|;
    assert WellFormed(w.log) by { InvMeans(w); }
    RunIsLawful(c.cfg, w.log, c.memory, c.steering, c.followUps, c.prompts, c.scripts, c.cancelled);
    PrefixWellFormed(w.log + es, |w.log| + n);
    assert (w.log + es)[..|w.log| + n] == w.log + es[..n];
    LogGrows(w, es[..n]);
  }

  lemma InvMeans(w: World)
    requires Inv(w)
    ensures WellFormed(w.log)
  {
  }

  /** Over an orderly life the protocol's whole invariant holds: the log is lawful and
      every execution is authorized. */
  lemma {:induction false} OrderlyLifeKeeps(es: seq<Episode>)
    requires Orderly(EMPTY, es)
    ensures Inv(Lifetime(EMPTY, es))
  {
    hide Inv, Enabled, OrderlyRun, Actions, RanEntries;
    if es == [] {
      assert Inv(EMPTY) by { EmptyIsLawful(); }
    } else {
      OrderlyLifeKeeps(es[..|es| - 1]);
      var w := Lifetime(EMPTY, es[..|es| - 1]);
      match es[|es| - 1]
      case Operated(step) =>
        OperationKeeps(w, step.op, if step.cut <= |Actions(step.op)| then step.cut else |Actions(step.op)|);
      case Ran(run, cut) =>
        RunKeepsInv(w, run, cut);
    }
  }

  lemma EmptyIsLawful()
    ensures Inv(EMPTY)
  {
  }
}
