/** The whole cycle: a run parks, people and children settle what it parked on, and the
    session is ready to run again. */
module Cycle {
  import opened Messages
  import opened Events
  import opened AgentLoop
  import opened SessionLog
  import opened Persistence
  import opened Protocol
  import opened Settlement
  import opened Readiness
  import opened Harness
  import opened RunLegality
  import opened RunParking
  import opened Lives
  import opened ResumePlan

  /** What a parked run leaves can be settled, in any order, by one operation per pending
      request; then the session is ready to continue and its invariant stands. */
  lemma ParkedThenSettledIsReady(cfg: LoopConfig, w: World, memory: seq<AgentMessage>, steering: seq<AgentMessage>,
                                 followUps: seq<AgentMessage>, prompts: seq<AgentMessage>, scripts: seq<TurnScript>,
                                 ops: seq<Operation>)
    requires Inv(w) && Environment(cfg, w.log, memory, steering, followUps, prompts, scripts)
    requires RunHarness(cfg, memory, steering, followUps, prompts, scripts, false).state.outcome == Some(WaitingInput)
    requires var r := RunHarness(cfg, memory, steering, followUps, prompts, scripts, false);
             var parked := World(w.log + Persisted(r.Notified()), w.trace);
             && DistinctRequests(ops) && AllEnabled(parked.log, ops) && AllRunnable(ops)
             && forall q :: q in Pending(parked.log) ==> exists op :: op in ops && RequestIdOf(op) == q.id
    ensures var r := RunHarness(cfg, memory, steering, followUps, prompts, scripts, false);
            var parked := World(w.log + Persisted(r.Notified()), w.trace);
            && Inv(parked) && !ReadyToContinue(parked.log)
            && Inv(PerformAll(parked, ops)) && ReadyToContinue(PerformAll(parked, ops).log)
            && NothingAwaited(PerformAll(parked, ops).log)
  {
    hide Inv, WellFormed, Environment, RunHarness, Persisted, Partitioned, Pending, PerformAll, AllEnabled, AllRunnable,
      DistinctRequests, IsPending, PendingAfter, LastToolCallsResolved, NothingAwaited, MessagesOf, RequestIdOf;
    var r := RunHarness(cfg, memory, steering, followUps, prompts, scripts, false);
    var es := Persisted(r.Notified());
    RunIsLawful(cfg, w.log, memory, steering, followUps, prompts, scripts, false);
    LogGrows(w, es);
    var parked := World(w.log + es, w.trace);
    assert parked == w.(log := w.log + es);
    SettleAll(parked, ops);
    SettlingAllMakesReady(parked, ops);
    NothingAwaitedIff(PerformAll(parked, ops).log);
  }
}
