/** The logs a climb leaves behind are lawful: it composes the completion of children with
    the runs of their parents. */
module ChainLogs {
  import opened Messages
  import opened Events
  import opened ToolHistory
  import opened RepairCanonical
  import opened AgentLoop
  import opened SessionLog
  import opened Persistence
  import opened Protocol
  import opened Readiness
  import opened Harness
  import opened RunInvariants
  import opened RestartTransparency
  import opened RunLegality
  import opened RunParking
  import opened Store
  import opened Runtime
  import opened ChainSafety
  import opened Lives

  /** The environment's assumptions for resuming a session with this log. */
  ghost predicate ContinuationOk(log: Log, c: Continuation) {
    && HarnessOk(c.cfg, MessagesOf(log), MessagesOf(log), [], [], [], c.scripts)
    && FeasibleRun(c.cfg, c.scripts) && FreshRun(c.cfg, log, c.scripts)
    && !(c.cancelled && ContinuedRun(log, c).state.outcome == Some(WaitingInput))
  }

  /** A lawful log and what a run made of it: parked, each last call is answered or
      awaited; otherwise nothing is awaited. */
  ghost predicate RanLawfully(log: Log, c: Continuation) {
    var after, waiting := log + ContinuedEntries(log, c), ContinuedRun(log, c).state.outcome == Some(WaitingInput);
    && WellFormed(after)
    && (waiting ==> Partitioned(after) && Pending(after) != [])
    && (!waiting ==> NothingAwaited(after))
  }

  lemma ReadyIsQuiet(log: Log)
    requires ReadyToContinue(log) && WellFormed(log)
    ensures NothingAwaited(log) && Agree(MessagesOf(log), MessagesOf(log))
  {
    hide WellFormed, FreshCalls, SingleResults;
    NothingAwaitedIff(log);
    WellFormedMessages(log);
  }

  /** A run still going on has no repairs yet, cancelled or not. */
  lemma ContinuedIs(log: Log, c: Continuation)
    ensures ContinuedRun(log, c) == RunHarness(c.cfg, MessagesOf(log), [], [], [], c.scripts,
                                               c.cancelled && ContinuedRun(log, c).state.outcome.Some?)
  {
    hide RunUpTo, Opening;
  }

  /** Resuming a ready session extends its log lawfully. */
  lemma ContinuedLawfully(log: Log, c: Continuation)
    requires WellFormed(log) && ReadyToContinue(log) && ContinuationOk(log, c)
    ensures RanLawfully(log, c)
  {
    hide WellFormed, ReadyToContinue, HarnessOk, FeasibleRun, FreshRun, ContinuedRun, RunHarness, Persisted,
      Partitioned, NothingAwaited, Pending, MessagesOf, Agree, IsPending, PendingAfter;
    ReadyIsQuiet(log);
    ContinuedIs(log, c);
    RunIsLawful(c.cfg, log, MessagesOf(log), [], [], [], c.scripts,
                c.cancelled && ContinuedRun(log, c).state.outcome.Some?);
  }

  /** Along a climb, the log of each session resumed is lawful when its turn comes, and
      lawful behind its run; and every execution recorded for it stays justified. */
  lemma ChainLogsLawful(sessions: map<string, SessionRecord>, logs: map<string, Log>, cs: string -> Continuation,
                        leaf: string, path: seq<string>, above: Option<string>, parks: seq<PendingInputRequest>, i: nat,
                        trace: seq<Invocation>)
    requires Chain(sessions, logs, cs, leaf, path, above) && i < |path|
    requires AllParked(sessions, logs, Top(path, above), parks) && Inv(World(logs[path[i]], trace))
    requires ContinuationOk(BeforeResume(sessions, logs, cs, path[..i + 1]), cs(path[i]))
    ensures var before := BeforeResume(sessions, logs, cs, path[..i + 1]);
            && Inv(World(before, trace)) && RanLawfully(before, cs(path[i]))
            && Inv(World(AfterResume(sessions, logs, cs, path[..i + 1]), trace))
  {
    hide ReadyToContinue, WellFormed, ContinuedEntries, ContinuationOk, BeforeResume, Inv, HasResult, IsPending,
      Partitioned, NothingAwaited;
    var log, before := logs[path[i]], BeforeResume(sessions, logs, cs, path[..i + 1]);
    assert path[..i + 1][i] == path[i] && Top(path, above)[..i + 1] == path[..i + 1];
    assert WellFormed(log) by { InvMeans(World(log, trace)); }
    if i == 0 {
      LeafIs(sessions, logs, cs, path[..1]);
      assert before == log + [];
    } else {
      AncestorSettledOnce(sessions, logs, cs, leaf, path, above, parks, i);
      assert before == log + before[|log|..];
    }
    LogGrows(World(log, trace), before[|log|..]);
    assert ReadyToContinue(before);
    ContinuedLawfully(before, cs(path[i]));
    LogGrows(World(before, trace), ContinuedEntries(before, cs(path[i])));
  }

  lemma LeafIs(sessions: map<string, SessionRecord>, logs: map<string, Log>, cs: string -> Continuation,
               path: seq<string>)
    requires |path| == 1 && Upward(sessions, path) && forall id :: id in path ==> id in logs
    ensures BeforeResume(sessions, logs, cs, path) == logs[path[0]]
  {
  }

  /** ... and a session above that was completed but not resumed has a lawful log too. */
  lemma AboveIsLawful(sessions: map<string, SessionRecord>, logs: map<string, Log>, cs: string -> Continuation,
                      leaf: string, path: seq<string>, above: string, parks: seq<PendingInputRequest>,
                      trace: seq<Invocation>)
    requires Chain(sessions, logs, cs, leaf, path, Some(above)) && AllParked(sessions, logs, path + [above], parks)
    requires Inv(World(logs[above], trace))
    ensures Inv(World(BeforeResume(sessions, logs, cs, path + [above]), trace))
  {
    hide ReadyToContinue, WellFormed, ContinuedEntries, BeforeResume, Inv, HasResult, IsPending;
    var top := path + [above];
    AncestorSettledOnce(sessions, logs, cs, leaf, path, Some(above), parks, |path|);
    assert top[..|path| + 1] == top && top[|path|] == above;
    var log, before := logs[above], BeforeResume(sessions, logs, cs, top);
    assert before == log + before[|log|..];
    LogGrows(World(log, trace), before[|log|..]);
  }
}
