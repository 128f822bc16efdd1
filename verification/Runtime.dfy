/** `AgentRuntime`: resuming a session, completing a child's park in its parent, and
    walking a chain of parked sessions upward. */
module Runtime {
  import opened Messages
  import opened Events
  import opened AgentLoop
  import opened SessionLog
  import opened Protocol
  import opened ResumePlan
  import opened Store
  import opened Persistence
  import opened Harness
  import Resume

  // ------------------------------------------------------- a child's result

  /** `_child_result_message`: a finished child's end state as the result of its delegation. */
  function ChildResult(request: PendingInputRequest, messages: seq<AgentMessage>): AgentMessage {
    if messages == [] || !messages[|messages| - 1].AssistantMessage? then
      ToolResultMessage(request.toolCallId, request.toolName, [], NO_DETAILS, false)
    else
      var last := messages[|messages| - 1];
      if last.stopReason.Error? || last.stopReason.Aborted? then
        var text := if last.errorMessage.Some? && last.errorMessage.value != "" then last.errorMessage.value
                    else if last.stopReason.Aborted? then "delegation aborted" else "subagent run failed";
        ErrorText(request.toolCallId, request.toolName, text)
      else
        var text := AssistantText(last.blocks);
        ToolResultMessage(request.toolCallId, request.toolName, if text == "" then [] else [TextBlock(text)],
                          NO_DETAILS, false)
  }

  // ------------------------------------------------------ completing a child

  /** The first pending child-session request for a call. */
  function ParkFor(pending: seq<PendingInputRequest>, toolCallId: string): Option<PendingInputRequest> {
    if pending == [] then None
    else if pending[0].kind.ChildSession? && pending[0].toolCallId == toolCallId then Some(pending[0])
    else ParkFor(pending[1..], toolCallId)
  }

  /** The completion a child's end means for its parent, if the parent is parked on it. */
  function CompletionOps(parentLog: Log, childId: string, toolCallId: string,
                         childMessages: seq<AgentMessage>): seq<Operation> {
    match ParkFor(Pending(parentLog), toolCallId)
    case None => []
    case Some(request) => [CompleteChild(request, "system:child:" + childId, ChildResult(request, childMessages))]
  }

  function CompletionEntries(parentLog: Log, childId: string, toolCallId: string,
                             childMessages: seq<AgentMessage>): seq<Entry> {
    match ParkFor(Pending(parentLog), toolCallId)
    case None => []
    case Some(request) =>
      [Resolution(request, Approved, "system:child:" + childId, None),
       MessageEntry(ChildResult(request, childMessages))]
  }

  lemma CompletionIs(w: World, childId: string, toolCallId: string, childMessages: seq<AgentMessage>)
    ensures PerformAll(w, CompletionOps(w.log, childId, toolCallId, childMessages))
         == World(w.log + CompletionEntries(w.log, childId, toolCallId, childMessages), w.trace)
  {
    hide Pending, ChildResult, PerformAll, Resume.Done, ParkFor;
    var ops := CompletionOps(w.log, childId, toolCallId, childMessages);
    Resume.PerformedNone(w);
    if ops == [] {
      assert w.log + [] == w.log;
    } else {
      Resume.PerformNext(w, [], ops[0]);
      assert [] + [ops[0]] == ops;
      Resume.DoneTwo(w, ops[0]);
    }
  }

  // ------------------------------------------------------------- resuming

  /** A child session a run's delegations create, with everything it logs. */
  datatype Spawned = Spawned(id: string, agentId: string, toolCallId: string, log: Log)

  /** How a resumed session plays out: its configuration, its environment, and the
      children it delegates to. */
  datatype Continuation = Continuation(cfg: LoopConfig, scripts: seq<TurnScript>, cancelled: bool,
                                       spawned: seq<Spawned>)

  /** The run of a harness rebuilt from a log, with nothing new to say. */
  function ContinuedRun(log: Log, c: Continuation): HarnessRun {
    var r := RunHarness(c.cfg, MessagesOf(log), [], [], [], c.scripts, c.cancelled);
    if r.state.outcome.Some? then r else HarnessRun(r.state, [])
  }

  function ContinuedEntries(log: Log, c: Continuation): seq<Entry> { Persisted(ContinuedRun(log, c).Notified()) }

  /** What resuming returns: the run's outcome, nothing while it is still going on, or an error. */
  datatype Resumption = RanTo(outcome: RunOutcome) | StillRunning | Refused

  // ------------------------------------------------------- the chain as a function

  /** A path upward: each session is the parent of the one before. */
  predicate Upward(sessions: map<string, SessionRecord>, path: seq<string>) {
    && (forall i :: 0 <= i < |path| ==> path[i] in sessions)
    && (forall i :: 0 <= i < |path| - 1 ==> sessions[path[i]].parentSessionId == Some(path[i + 1]))
  }

  /** The log of the path's last session when its child has completed, before it is
      resumed, and after: all the path below it has been resumed in turn. */
  function BeforeResume(sessions: map<string, SessionRecord>, logs: map<string, Log>, cs: string -> Continuation,
                        path: seq<string>): Log
    requires path != [] && Upward(sessions, path) && forall id :: id in path ==> id in logs
    decreases |path|, 0
  {
    var id := path[|path| - 1];
    if |path| == 1 then logs[id]
    else
      var below := path[..|path| - 1];
      var child := below[|below| - 1];
      var callId := sessions[child].parentToolCallId;
      if callId.None? then logs[id]
      else logs[id] + CompletionEntries(logs[id], child, callId.value,
                                        MessagesOf(AfterResume(sessions, logs, cs, below)))
  }

  function AfterResume(sessions: map<string, SessionRecord>, logs: map<string, Log>, cs: string -> Continuation,
                       path: seq<string>): Log
    requires path != [] && Upward(sessions, path) && forall id :: id in path ==> id in logs
    decreases |path|, 1
  {
    var before := BeforeResume(sessions, logs, cs, path);
    before + ContinuedEntries(before, cs(path[|path| - 1]))
  }

  function Top(path: seq<string>, above: Option<string>): seq<string> {
    if above.Some? then path + [above.value] else path
  }

  /** A chain as it was resumed: a path upward from the leaf, with at most one session
      above it, and each session ready when its turn came. */
  ghost predicate Chain(sessions: map<string, SessionRecord>, logs: map<string, Log>, cs: string -> Continuation,
                        leaf: string, path: seq<string>, above: Option<string>)
  {
    && Upward(sessions, Top(path, above)) && sessions.Keys == logs.Keys
    && (path != [] ==> path[0] == leaf) && (above.Some? ==> path != [])
    && (forall n :: 0 < n <= |path| ==>
         Upward(sessions, path[..n]) && ReadyToContinue(BeforeResume(sessions, logs, cs, path[..n])))
  }

  lemma UpwardPrefix(sessions: map<string, SessionRecord>, path: seq<string>, n: nat)
    requires Upward(sessions, path) && n <= |path|
    ensures Upward(sessions, path[..n])
  {
  }

  lemma UpwardSnoc(sessions: map<string, SessionRecord>, path: seq<string>, id: string)
    requires Upward(sessions, path) && id in sessions
    requires path != [] ==> sessions[path[|path| - 1]].parentSessionId == Some(id)
    ensures Upward(sessions, path + [id]) && (path + [id])[..|path|] == path
  {
  }

  /** Each session of the path has the log its resumption left, given those below it. */
  ghost predicate AllResumed(sessions: map<string, SessionRecord>, logs: map<string, Log>, cs: string -> Continuation,
                             path: seq<string>, now: map<string, Log>)
    requires Upward(sessions, path) && sessions.Keys == logs.Keys && now.Keys == sessions.Keys
  {
    forall i :: 0 <= i < |path| ==> now[path[i]] == AfterResume(sessions, logs, cs, path[..i + 1])
  }

  /** Changing the log of a session that is not on the path. */
  lemma StillResumed(sessions: map<string, SessionRecord>, logs: map<string, Log>, cs: string -> Continuation,
                     path: seq<string>, now: map<string, Log>, id: string, log: Log)
    requires Upward(sessions, path) && sessions.Keys == logs.Keys && now.Keys == sessions.Keys
    requires AllResumed(sessions, logs, cs, path, now) && id in sessions && id !in path
    ensures AllResumed(sessions, logs, cs, path, now[id := log])
  {
    hide AfterResume;
  }

  lemma OneMoreResumed(sessions: map<string, SessionRecord>, logs: map<string, Log>, cs: string -> Continuation,
                       path: seq<string>, id: string, now: map<string, Log>)
    requires Upward(sessions, path) && Upward(sessions, path + [id]) && sessions.Keys == logs.Keys
             && now.Keys == sessions.Keys
    requires id in sessions && AllResumed(sessions, logs, cs, path, now)
             && now[id] == AfterResume(sessions, logs, cs, path + [id])
    ensures AllResumed(sessions, logs, cs, path + [id], now)
  {
    hide AfterResume;
    var next := path + [id];
    assert next[..|next|] == next;
    forall i | 0 <= i < |next| ensures now[next[i]] == AfterResume(sessions, logs, cs, next[..i + 1]) {
      if i < |path| { assert next[..i + 1] == path[..i + 1]; }
    }
  }

  lemma OneMoreReady(sessions: map<string, SessionRecord>, logs: map<string, Log>, cs: string -> Continuation,
                     leaf: string, path: seq<string>, id: string)
    requires Chain(sessions, logs, cs, leaf, path, if path == [] then None else Some(id)) && (path == [] ==> id == leaf)
    requires Upward(sessions, path + [id]) && ReadyToContinue(BeforeResume(sessions, logs, cs, path + [id]))
    ensures Chain(sessions, logs, cs, leaf, path + [id], None)
  {
    hide ReadyToContinue, BeforeResume;
    var next := path + [id];
    assert next[..|next|] == next;
    forall n | 0 < n <= |next|
      ensures Upward(sessions, next[..n]) && ReadyToContinue(BeforeResume(sessions, logs, cs, next[..n])) {
      if n <= |path| { assert next[..n] == path[..n]; }
    }
  }

  /** The logs when the path has been resumed and nothing above it has been touched. */
  ghost predicate Climbed(sessions: map<string, SessionRecord>, logs: map<string, Log>, cs: string -> Continuation,
                          leaf: string, path: seq<string>, now: map<string, Log>)
  {
    && Chain(sessions, logs, cs, leaf, path, None) && now.Keys == sessions.Keys
    && AllResumed(sessions, logs, cs, path, now)
    && (forall j :: j in sessions && j !in path ==> now[j] == logs[j])
  }

  /** ... and when the session above it has had its child completed. */
  ghost predicate Reached(sessions: map<string, SessionRecord>, logs: map<string, Log>, cs: string -> Continuation,
                          leaf: string, path: seq<string>, id: string, now: map<string, Log>)
  {
    && Chain(sessions, logs, cs, leaf, path, if path == [] then None else Some(id)) && now.Keys == sessions.Keys
    && id in sessions && id !in path && (path == [] ==> id == leaf)
    && Upward(sessions, path + [id]) && now[id] == BeforeResume(sessions, logs, cs, path + [id])
    && AllResumed(sessions, logs, cs, path, now)
    && (forall j :: j in sessions && j !in path && j != id ==> now[j] == logs[j])
  }

  lemma StartOfChain(sessions: map<string, SessionRecord>, logs: map<string, Log>, cs: string -> Continuation,
                     leaf: string)
    requires leaf in sessions && sessions.Keys == logs.Keys
    ensures Reached(sessions, logs, cs, leaf, [], leaf, logs)
  {
  }

  lemma ResumeStep(sessions: map<string, SessionRecord>, logs: map<string, Log>, cs: string -> Continuation,
                   leaf: string, path: seq<string>, id: string, now: map<string, Log>)
    requires Reached(sessions, logs, cs, leaf, path, id, now) && ReadyToContinue(now[id])
    ensures Climbed(sessions, logs, cs, leaf, path + [id], now[id := now[id] + ContinuedEntries(now[id], cs(id))])
  {
    hide ReadyToContinue, ContinuedEntries, BeforeResume, AllResumed, Chain;
    var log := now[id] + ContinuedEntries(now[id], cs(id));
    OneMoreReady(sessions, logs, cs, leaf, path, id);
    assert Upward(sessions, path) && sessions.Keys == logs.Keys by {
      ChainPath(sessions, logs, cs, leaf, path, if path == [] then None else Some(id));
    }
    StillResumed(sessions, logs, cs, path, now, id, log);
    assert (path + [id])[|path|] == id;
    OneMoreResumed(sessions, logs, cs, path, id, now[id := log]);
  }

  lemma ChainPath(sessions: map<string, SessionRecord>, logs: map<string, Log>, cs: string -> Continuation,
                  leaf: string, path: seq<string>, above: Option<string>)
    requires Chain(sessions, logs, cs, leaf, path, above)
    ensures Upward(sessions, path) && sessions.Keys == logs.Keys
  {
    assert path[..|path|] == path;
  }

  lemma CompleteStep(sessions: map<string, SessionRecord>, logs: map<string, Log>, cs: string -> Continuation,
                     leaf: string, path: seq<string>, parent: string, now: map<string, Log>)
    requires Climbed(sessions, logs, cs, leaf, path, now) && path != [] && parent in sessions && parent !in path
    requires sessions[path[|path| - 1]].parentSessionId == Some(parent)
             && sessions[path[|path| - 1]].parentToolCallId.Some?
    ensures var child := path[|path| - 1];
            var entries := CompletionEntries(now[parent], child, sessions[child].parentToolCallId.value,
                                             MessagesOf(now[child]));
            Reached(sessions, logs, cs, leaf, path, parent, now[parent := now[parent] + entries])
  {
    hide ReadyToContinue, CompletionEntries, MessagesOf, AfterResume, AllResumed, BeforeResume;
    var child := path[|path| - 1];
    var entries := CompletionEntries(now[parent], child, sessions[child].parentToolCallId.value,
                                     MessagesOf(now[child]));
    ChainPath(sessions, logs, cs, leaf, path, None);
    UpwardSnoc(sessions, path, parent);
    LastResumed(sessions, logs, cs, path, now);
    BeforeResumeNext(sessions, logs, cs, path, parent);
    StillResumed(sessions, logs, cs, path, now, parent, now[parent] + entries);
  }

  /** Completing one more child, seen from its parent. */
  lemma BeforeResumeNext(sessions: map<string, SessionRecord>, logs: map<string, Log>, cs: string -> Continuation,
                         path: seq<string>, id: string)
    requires path != [] && Upward(sessions, path + [id]) && sessions.Keys == logs.Keys && Upward(sessions, path)
    requires sessions[path[|path| - 1]].parentToolCallId.Some?
    ensures BeforeResume(sessions, logs, cs, path + [id])
         == logs[id] + CompletionEntries(logs[id], path[|path| - 1], sessions[path[|path| - 1]].parentToolCallId.value,
                                         MessagesOf(AfterResume(sessions, logs, cs, path)))
  {
    hide CompletionEntries, MessagesOf, AfterResume, ContinuedEntries;
    assert (path + [id])[..|path|] == path;
  }

  lemma LastResumed(sessions: map<string, SessionRecord>, logs: map<string, Log>, cs: string -> Continuation,
                    path: seq<string>, now: map<string, Log>)
    requires path != [] && Upward(sessions, path) && sessions.Keys == logs.Keys && now.Keys == sessions.Keys
    requires AllResumed(sessions, logs, cs, path, now)
    ensures now[path[|path| - 1]] == AfterResume(sessions, logs, cs, path)
  {
    hide AfterResume;
    assert path[..|path| - 1 + 1] == path;
  }

  /** The logs once a session has been resumed, and once its parent's park is settled too. */
  ghost function Resumed(now: map<string, Log>, id: string, c: Continuation): map<string, Log>
    requires id in now
  {
    now[id := now[id] + ContinuedEntries(now[id], c)]
  }

  ghost function Settled(sessions: map<string, SessionRecord>, now: map<string, Log>, id: string): map<string, Log>
    requires id in now && id in sessions && sessions[id].parentToolCallId.Some?
    requires sessions[id].parentSessionId.Some? && sessions[id].parentSessionId.value in now
  {
    var parent := sessions[id].parentSessionId.value;
    now[parent := now[parent]
      + CompletionEntries(now[parent], id, sessions[id].parentToolCallId.value, MessagesOf(now[id]))]
  }

  /** One step of the climb: not ready, refused, still running, ended with nothing to
      climb to, without a call id to complete, or its parent completed and maybe ready. */
  datatype Ascent =
    | Unready
    | RefusedHere
    | Going
    | Last(outcome: RunOutcome)
    | Broken(outcome: RunOutcome)
    | Arrived(outcome: RunOutcome, parent: string, ready: bool)

  /** What a step did to the logs. */
  ghost predicate Stepped(sessions: map<string, SessionRecord>, now: map<string, Log>, id: string, c: Continuation,
                          step: Ascent, after: map<string, Log>)
  {
    && id in sessions && now.Keys == sessions.Keys
    && (!step.Unready? && !step.RefusedHere? ==> ReadyToContinue(now[id]))
    && match step
       case Unready => after == now && !ReadyToContinue(now[id])
       case RefusedHere => after == now
       case Going => after == Resumed(now, id, c)
       case Last(outcome) =>
         && after == Resumed(now, id, c) && ContinuedRun(now[id], c).state.outcome == Some(outcome)
         && (outcome.WaitingInput? || sessions[id].parentSessionId.None?)
       case Broken(outcome) =>
         && after == Resumed(now, id, c) && ContinuedRun(now[id], c).state.outcome == Some(outcome)
         && !outcome.WaitingInput?
       case Arrived(outcome, parent, ready) =>
         && ContinuedRun(now[id], c).state.outcome == Some(outcome) && !outcome.WaitingInput?
         && sessions[id].parentSessionId == Some(parent) && sessions[id].parentToolCallId.Some? && parent in sessions
         && after == Settled(sessions, Resumed(now, id, c), id) && ready == ReadyToContinue(after[parent])
  }

  class AgentRuntime {
    const store: SessionStore

    constructor (store: SessionStore)
      ensures this.store == store
    {
      this.store := store;
    }

    /** No session is its own parent, so the sessions form a forest. */
    ghost predicate Forest()
      reads store
    {
      forall id :: id in store.sessions ==> store.sessions[id].parentSessionId != Some(id)
    }

    /** Sessions that existed keep their records, and all of them but those named keep
        their logs and runs. */
    twostate predicate Untouched(but: set<string>)
      reads store
    {
      && (forall id :: id in old(store.sessions) ==>
            && id in store.sessions && store.sessions[id] == old(store.sessions[id]) && id in store.ranks
            && id in old(store.ranks)
            && store.ranks[id] == old(store.ranks[id]))
      && (forall id :: id in old(store.sessions) && id !in but ==> store.WorldOf(id) == old(store.WorldOf(id)))
    }

    /** `on_child_complete`: settle the parent's park, if there is one, and say whether the
        parent is ready; an unknown or parentless child is an error. */
    method OnChildComplete(childId: string) returns (ready: Option<bool>)
      requires store.Valid()
      modifies store
      ensures store.Valid()
      ensures ready.None? <==> childId !in store.sessions || store.sessions[childId].parentSessionId.None?
                                 || store.sessions[childId].parentToolCallId.None?
      ensures ready.None? ==> forall id :: store.WorldOf(id) == old(store.WorldOf(id))
      ensures store.sessions == old(store.sessions) && store.claimedWriters == old(store.claimedWriters)
              && store.ranks == old(store.ranks)
      ensures ready.Some? ==>
                var parent, callId := store.sessions[childId].parentSessionId.value,
                  store.sessions[childId].parentToolCallId.value;
                && store.OnlyWrote(parent)
                && store.WorldOf(parent) == PerformAll(old(store.WorldOf(parent)),
                     CompletionOps(old(store.LogOf(parent)), childId, callId, MessagesOf(old(store.LogOf(childId)))))
                && ready.value == ReadyToContinue(store.LogOf(parent))
    {
      hide Pending, LogIn, Numbered, ReadyToContinue, MessagesOf, ChildResult, Actions;
      var record := store.GetSession(childId);
      if record.None? || record.value.parentSessionId.None? || record.value.parentToolCallId.None? { return None; }
      var parent, callId := record.value.parentSessionId.value, record.value.parentToolCallId.value;
      ghost var w := store.WorldOf(parent);
      var derived := Resume.Rehydrate(store, parent);
      var request := FirstPark(derived.pendingRequests, callId);
      if request.None? {
        Resume.PerformedNone(w);
        var r := Resume.IsReadyToContinue(store, parent);
        return Some(r);
      }
      var child := Resume.Rehydrate(store, childId);
      ghost var op := CompleteChild(request.value, "system:child:" + childId,
                                    ChildResult(request.value, child.messages));
      Resume.PerformNext(w, [], op);
      Resume.PerformedNone(w);
      assert [] + [op] == [op];
      Resume.WriteChildCompletion(store, parent, request.value, "system:child:" + childId,
                                  ChildResult(request.value, child.messages));
      var r := Resume.IsReadyToContinue(store, parent);
      return Some(r);
    }

    /** Children created by a run's delegations, each with its own log. */
    method SpawnChildren(parent: string, spawned: seq<Spawned>)
      requires store.Valid() && parent in store.sessions && Forest()
      modifies store
      ensures store.Valid() && Untouched({}) && Forest() && store.claimedWriters == old(store.claimedWriters)
    {
      hide LogIn, Numbered;
      for i := 0 to |spawned|
        invariant store.Valid() && Untouched({}) && Forest() && store.claimedWriters == old(store.claimedWriters)
      {
        var s := spawned[i];
        if s.id !in store.sessions { SpawnOne(parent, s); }
      }
    }

    method SpawnOne(parent: string, s: Spawned)
      requires store.Valid() && parent in store.sessions && Forest() && s.id !in store.sessions
      modifies store
      ensures store.Valid() && Untouched({}) && Forest() && store.claimedWriters == old(store.claimedWriters)
    {
      hide LogIn, Numbered;
      CreateChild(parent, s);
      LogAll(s.id, s.log);
    }

    method CreateChild(parent: string, s: Spawned)
      requires store.Valid() && parent in store.sessions && Forest() && s.id !in store.sessions
      modifies store
      ensures store.Valid() && Untouched({}) && Forest() && store.claimedWriters == old(store.claimedWriters)
    {
      hide LogIn, Numbered;
      var _ := store.CreateSession(s.id, s.agentId, Some(parent), Some(s.toolCallId));
    }

    method LogAll(id: string, log: Log)
      requires store.Valid()
      modifies store`rows
      ensures store.Valid() && store.OnlyWrote(id)
    {
      hide LogIn, Numbered;
      for i := 0 to |log|
        invariant store.Valid() && store.OnlyWrote(id)
      {
        var _ := store.AppendEntry(id, log[i]);
      }
    }

    /** `resume_ready`: rebuild the harness from the log and run it on, as the session's
        one writer. */
    method ResumeReady(id: string, c: Continuation) returns (r: Resumption)
      requires store.Valid() && Forest() && id in store.sessions && FeasibleRun(c.cfg, c.scripts)
      modifies store
      ensures store.Valid() && Forest() && Untouched({id})
      ensures r.Refused? <==> !ReadyToContinue(old(store.LogOf(id))) || id in old(store.claimedWriters)
      ensures r.Refused? ==> store.LogOf(id) == old(store.LogOf(id))
      ensures !r.Refused? ==>
                && store.LogOf(id) == old(store.LogOf(id)) + ContinuedEntries(old(store.LogOf(id)), c)
                && r == (match ContinuedRun(old(store.LogOf(id)), c).state.outcome
                         case Some(outcome) => RanTo(outcome)
                         case None => StillRunning)
      ensures store.RunsOf(id) == old(store.RunsOf(id))
      ensures !r.StillRunning? ==> store.claimedWriters == old(store.claimedWriters)
    {
      hide LogIn, Numbered, ReadyToContinue, MessagesOf, Pending, RunHarness, Persisted, ContinuedEntries, ContinuedRun,
        FeasibleRun;
      ghost var log, trace := store.LogOf(id), store.RunsOf(id);
      var ready := Resume.IsReadyToContinue(store, id);
      if !ready { return Refused; }
      var harness := AgentHarness.FromSession(store, id, c.cfg);
      var subscriber := PersistenceSubscriber.Attach(store, id);
      if subscriber == null { return Refused; }
      assert store.WorldOf(id) == World(log, trace);
      r := RunWithChildren(id, c, harness, subscriber);
    }

    /** What happens while the claim is held: the run's delegations create children. */
    method RunWithChildren(id: string, c: Continuation, harness: AgentHarness, subscriber: PersistenceSubscriber)
      returns (r: Resumption)
      requires store.Valid() && Forest() && id in store.sessions && FeasibleRun(c.cfg, c.scripts)
      requires subscriber.Valid() && subscriber.store == store && subscriber.sessionId == id
               && !subscriber.claim.released
      requires harness.config == c.cfg && !harness.running && harness.steeringQueue == [] && harness.followUpQueue == []
      requires harness.messages == MessagesOf(store.LogOf(id))
      modifies harness, store, subscriber.claim
      ensures store.Valid() && Forest() && Untouched({id})
      ensures store.LogOf(id) == old(store.LogOf(id)) + ContinuedEntries(old(store.LogOf(id)), c)
      ensures store.RunsOf(id) == old(store.RunsOf(id))
      ensures r == (match ContinuedRun(old(store.LogOf(id)), c).state.outcome
                    case Some(outcome) => RanTo(outcome)
                    case None => StillRunning)
      ensures store.claimedWriters ==
              if r.StillRunning? then old(store.claimedWriters)
              else old(store.claimedWriters) - {id}
    {
      hide LogIn, Numbered, MessagesOf, RunHarness, Persisted, ContinuedEntries, ContinuedRun, FeasibleRun;
      SpawnChildren(id, c.spawned);
      assert store.WorldOf(id) == old(store.WorldOf(id));
      r := RunRebuilt(id, c, harness, subscriber);
    }

    /** The run itself, and the release of the writer claim once it is over. */
    method RunRebuilt(id: string, c: Continuation, harness: AgentHarness, subscriber: PersistenceSubscriber)
      returns (r: Resumption)
      requires store.Valid() && id in store.sessions && FeasibleRun(c.cfg, c.scripts)
      requires subscriber.Valid() && subscriber.store == store && subscriber.sessionId == id
               && !subscriber.claim.released
      requires harness.config == c.cfg && !harness.running && harness.steeringQueue == [] && harness.followUpQueue == []
      requires harness.messages == MessagesOf(store.LogOf(id))
      modifies harness, store, subscriber.claim
      ensures store.Valid() && store.sessions == old(store.sessions) && store.ranks == old(store.ranks)
      ensures forall j :: j != id ==> store.WorldOf(j) == old(store.WorldOf(j))
      ensures store.LogOf(id) == old(store.LogOf(id)) + ContinuedEntries(old(store.LogOf(id)), c)
      ensures store.RunsOf(id) == old(store.RunsOf(id))
      ensures r == (match ContinuedRun(old(store.LogOf(id)), c).state.outcome
                    case Some(outcome) => RanTo(outcome)
                    case None => StillRunning)
      ensures store.claimedWriters ==
              if r.StillRunning? then old(store.claimedWriters)
              else old(store.claimedWriters) - {id}
    {
      hide LogIn, Numbered, MessagesOf, RunHarness, Persisted;
      var run := harness.Run([], c.scripts, c.cancelled, subscriber);
      if run.value.state.outcome.None? { return StillRunning; }
      subscriber.Release();
      r := RanTo(run.value.state.outcome.value);
    }

    /** The sessions as they were, with these logs and ranks; there may be new ones. */
    ghost predicate Shows(sessions: map<string, SessionRecord>, ranks: map<string, nat>, now: map<string, Log>)
      reads store
    {
      && now.Keys == sessions.Keys
      && (forall j :: j in sessions ==>
            && j in store.sessions && store.sessions[j] == sessions[j] && store.LogOf(j) == now[j]
            && j in ranks && j in store.ranks && store.ranks[j] == ranks[j])
    }

    lemma ShownAtFirst(sessions: map<string, SessionRecord>, logs: map<string, Log>)
      requires store.Valid() && sessions == store.sessions
      requires logs.Keys == sessions.Keys && forall j :: j in sessions ==> logs[j] == store.LogOf(j)
      ensures Shows(sessions, store.ranks, logs)
    {
    }

    method ReadyAt(id: string, ghost sessions: map<string, SessionRecord>, ghost ranks: map<string, nat>,
                   ghost now: map<string, Log>)
      returns (ready: bool)
      requires id in sessions && Shows(sessions, ranks, now)
      ensures ready == ReadyToContinue(now[id])
    {
      hide ReadyToContinue;
      ready := Resume.IsReadyToContinue(store, id);
    }

    method RecordAt(id: string, ghost sessions: map<string, SessionRecord>, ghost ranks: map<string, nat>,
                    ghost now: map<string, Log>)
      returns (record: SessionRecord)
      requires id in sessions && Shows(sessions, ranks, now)
      ensures record == sessions[id]
    {
      var found := store.GetSession(id);
      record := found.value;
    }

    method ResumeAt(id: string, c: Continuation, ghost sessions: map<string, SessionRecord>,
                    ghost ranks: map<string, nat>, ghost now: map<string, Log>)
      returns (r: Resumption)
      requires store.Valid() && Forest() && id in sessions && Shows(sessions, ranks, now)
               && FeasibleRun(c.cfg, c.scripts)
      modifies store
      ensures store.Valid() && Forest()
      ensures Shows(sessions, ranks, if r.Refused? then now else now[id := now[id] + ContinuedEntries(now[id], c)])
      ensures !r.Refused? ==>
                && ReadyToContinue(now[id])
                && r == (match ContinuedRun(now[id], c).state.outcome case Some(outcome) => RanTo(outcome) case None =>
                     StillRunning)
    {
      hide ReadyToContinue, LogIn, Numbered, ContinuedEntries, ContinuedRun, FeasibleRun;
      r := ResumeReady(id, c);
    }

    method CompleteAt(id: string, ghost sessions: map<string, SessionRecord>, ghost ranks: map<string, nat>,
                      ghost now: map<string, Log>)
      returns (ready: Option<bool>)
      requires store.Valid() && Forest() && id in sessions && Shows(sessions, ranks, now)
      requires sessions[id].parentSessionId.Some? && sessions[id].parentSessionId.value in sessions
      modifies store
      ensures store.Valid() && Forest()
      ensures ready.None? <==> sessions[id].parentToolCallId.None?
      ensures ready.None? ==> Shows(sessions, ranks, now)
      ensures ready.Some? ==>
                var parent := sessions[id].parentSessionId.value;
                var log := now[parent] + CompletionEntries(now[parent], id, sessions[id].parentToolCallId.value,
                                                           MessagesOf(now[id]));
                Shows(sessions, ranks, now[parent := log]) && ready.value == ReadyToContinue(log)
    {
      hide ReadyToContinue, LogIn, Numbered, PerformAll, CompletionOps, CompletionEntries, MessagesOf;
      var parent := sessions[id].parentSessionId.value;
      ghost var callId := if sessions[id].parentToolCallId.Some? then sessions[id].parentToolCallId.value else "";
      CompletionIs(store.WorldOf(parent), id, callId, MessagesOf(now[id]));
      ready := OnChildComplete(id);
      forall j | j in sessions && (j != parent || ready.None?) ensures store.LogOf(j) == now[j] {
        assert store.WorldOf(j) == old(store.WorldOf(j));
      }
    }

    /** One pass of `resume_chain`'s loop. */
    method ClimbOnce(id: string, c: Continuation, ghost sessions: map<string, SessionRecord>,
                     ghost ranks: map<string, nat>, ghost now: map<string, Log>)
      returns (step: Ascent, ghost after: map<string, Log>)
      requires store.Valid() && Forest() && id in sessions && Rooted(sessions, ranks) && Shows(sessions, ranks, now)
               && now.Keys == sessions.Keys
      requires FeasibleRun(c.cfg, c.scripts)
      modifies store
      ensures store.Valid() && Forest() && Shows(sessions, ranks, after) && after.Keys == sessions.Keys
      ensures Stepped(sessions, now, id, c, step, after)
    {
      hide ReadyToContinue, LogIn, Numbered, ContinuedEntries, ContinuedRun, CompletionEntries, MessagesOf, FeasibleRun,
        Shows;
      after := now;
      var ready := ReadyAt(id, sessions, ranks, now);
      if !ready { return Unready, now; }
      var r := ResumeAt(id, c, sessions, ranks, now);
      if r.Refused? { return RefusedHere, now; }
      after := Resumed(now, id, c);
      if r.StillRunning? { return Going, after; }
      step, after := ClimbOn(id, r.outcome, sessions, ranks, after);
    }

    /** After a session's run: stop at a root or a park, else complete the parent. */
    method ClimbOn(id: string, outcome: RunOutcome, ghost sessions: map<string, SessionRecord>,
                   ghost ranks: map<string, nat>, ghost now: map<string, Log>)
      returns (step: Ascent, ghost after: map<string, Log>)
      requires store.Valid() && Forest() && id in sessions && Rooted(sessions, ranks) && Shows(sessions, ranks, now)
               && now.Keys == sessions.Keys
      modifies store
      ensures store.Valid() && Forest() && Shows(sessions, ranks, after) && after.Keys == sessions.Keys
      ensures match step
              case Last(o) => o == outcome && after == now && (o.WaitingInput? || sessions[id].parentSessionId.None?)
              case Broken(o) => o == outcome && after == now && !o.WaitingInput?
              case Arrived(o, parent, ready) =>
                && o == outcome && !o.WaitingInput? && sessions[id].parentSessionId == Some(parent)
                && parent in sessions
                && sessions[id].parentToolCallId.Some? && after == Settled(sessions, now, id)
                && ready == ReadyToContinue(after[parent])
              case _ => false
    {
      hide ReadyToContinue, LogIn, Numbered, CompletionEntries, MessagesOf, Shows;
      after := now;
      var record := RecordAt(id, sessions, ranks, now);
      if record.parentSessionId.None? || outcome.WaitingInput? { return Last(outcome), now; }
      var parent := record.parentSessionId.value;
      var done := CompleteAt(id, sessions, ranks, now);
      if done.None? { return Broken(outcome), now; }
      after := Settled(sessions, now, id);
      step := Arrived(outcome, parent, done.value);
    }

    /** `resume_chain`: resume the leaf, complete its parent's park, resume the parent if
        that made it ready, and so on up.

        `path` is the sessions resumed, leaf first, and `above` the session over them that
        was only completed, if any; the last session of the path is still running if it
        has no outcome.  `failed` is an error on the way: an unknown session, one without a
        call id to complete, or one with another live writer. */
    method ResumeChain(leaf: string, cs: string -> Continuation, ghost sessions: map<string, SessionRecord>,
                       ghost logs: map<string, Log>)
      returns (outcomes: seq<RunOutcome>, failed: bool, ghost path: seq<string>, ghost above: Option<string>,
               ghost now: map<string, Log>)
      requires store.Valid() && Forest() && forall id :: FeasibleRun(cs(id).cfg, cs(id).scripts)
      requires sessions == store.sessions && logs.Keys == sessions.Keys && forall j ::
                 j in sessions ==> logs[j] == store.LogOf(j)
      modifies store
      ensures store.Valid() && Shows(sessions, old(store.ranks), now)
      ensures above.None? ==> Climbed(sessions, logs, cs, leaf, path, now)
      ensures above.Some? ==> path != [] && Reached(sessions, logs, cs, leaf, path, above.value, now)
      ensures above.Some? && !failed ==> !ReadyToContinue(now[above.value])
      ensures RightOutcomes(sessions, logs, cs, path, outcomes) && StoppedRight(sessions, path, outcomes, above, failed)
    {
      hide ReadyToContinue, LogIn, Numbered, ContinuedEntries, ContinuedRun, CompletionEntries, MessagesOf,
        BeforeResume, AfterResume, FeasibleRun, Climbed, Reached, RightOutcomes, Shows, Stepped;
      outcomes, failed, path, above, now := [], false, [], None, logs;
      ghost var ranks := store.ranks;
      NothingClimbed(sessions, logs, cs, leaf);
      assert Shows(sessions, ranks, logs) by { ShownAtFirst(sessions, logs); }
      assert Rooted(sessions, ranks);
      if leaf !in store.sessions { failed := true; return; }
      var id := leaf;
      StartOfChain(sessions, logs, cs, leaf);
      while true
        invariant store.Valid() && Forest() && id in sessions && !failed && above == None && |outcomes| == |path|
        invariant Shows(sessions, ranks, now) && now.Keys == sessions.Keys
                  && Reached(sessions, logs, cs, leaf, path, id, now)
        invariant forall q :: q in path ==> q in sessions && ranks[q] > ranks[id]
        invariant path == [] ==> Climbed(sessions, logs, cs, leaf, [], now)
        invariant RightOutcomes(sessions, logs, cs, path, outcomes)
                  && (path != [] ==> !outcomes[|path| - 1].WaitingInput?)
        decreases ranks[id]
      {
        var step: Ascent;
        ghost var before := now;
        step, now := ClimbOnce(id, cs(id), sessions, ranks, now);
        ClimbStep(sessions, ranks, logs, cs, leaf, path, id, before, outcomes, step, now);
        if step.Unready? || step.RefusedHere? {
          failed := step.RefusedHere?;
          above := if path == [] then None else Some(id);
          return;
        }
        path := path + [id];
        if step.Going? { return; }
        outcomes := outcomes + [step.outcome];
        failed := step.Broken?;
        if !step.Arrived? { return; }
        if !step.ready { above := Some(step.parent); return; }
        id := step.parent;
      }
    }
  }

  /** What a step of the climb means for the chain. */
  ghost predicate Climb(sessions: map<string, SessionRecord>, ranks: map<string, nat>, logs: map<string, Log>,
                        cs: string -> Continuation, leaf: string, path: seq<string>, id: string,
                        outcomes: seq<RunOutcome>, step: Ascent, after: map<string, Log>)
  {
    && id in sessions
    && match step
       case Unready => id in after && !ReadyToContinue(after[id])
       case RefusedHere => true
       case Going =>
         Climbed(sessions, logs, cs, leaf, path + [id], after)
           && RightOutcomes(sessions, logs, cs, path + [id], outcomes)
       case Last(outcome) =>
         && Climbed(sessions, logs, cs, leaf, path + [id], after)
         && RightOutcomes(sessions, logs, cs, path + [id], outcomes + [outcome])
         && (outcome.WaitingInput? || sessions[id].parentSessionId.None?)
       case Broken(outcome) =>
         && Climbed(sessions, logs, cs, leaf, path + [id], after)
         && RightOutcomes(sessions, logs, cs, path + [id], outcomes + [outcome])
         && !outcome.WaitingInput?
       case Arrived(outcome, parent, ready) =>
         && Reached(sessions, logs, cs, leaf, path + [id], parent, after)
         && RightOutcomes(sessions, logs, cs, path + [id], outcomes + [outcome]) && !outcome.WaitingInput?
         && parent in sessions && parent in ranks && id in ranks && ranks[parent] < ranks[id]
         && parent in after && ready == ReadyToContinue(after[parent])
  }

  lemma ClimbStep(sessions: map<string, SessionRecord>, ranks: map<string, nat>, logs: map<string, Log>,
                  cs: string -> Continuation, leaf: string, path: seq<string>, id: string, before: map<string, Log>,
                  outcomes: seq<RunOutcome>, step: Ascent, after: map<string, Log>)
    requires Rooted(sessions, ranks) && Reached(sessions, logs, cs, leaf, path, id, before)
    requires RightOutcomes(sessions, logs, cs, path, outcomes) && |outcomes| == |path|
    requires forall q :: q in path ==> q in sessions && ranks[q] > ranks[id]
    requires Stepped(sessions, before, id, cs(id), step, after)
    ensures Climb(sessions, ranks, logs, cs, leaf, path, id, outcomes, step, after)
    ensures step.Unready? || step.RefusedHere? ==> after == before
  {
    hide ReadyToContinue, ContinuedEntries, ContinuedRun, CompletionEntries, MessagesOf, BeforeResume, AfterResume,
      Climbed, Reached, RightOutcomes;
    if !step.Unready? && !step.RefusedHere? {
      ResumeStep(sessions, logs, cs, leaf, path, id, before);
      OneMoreOutcome(sessions, logs, cs, leaf, path, id, before, outcomes);
      if step.Arrived? { CompleteStep(sessions, logs, cs, leaf, path + [id], step.parent,
                                      Resumed(before, id, cs(id))); }
    }
  }

  /** Where the climb stopped: a session that parked again is the last one touched, and
      without one above, an error or a run still going, it is the root. */
  ghost predicate StoppedRight(sessions: map<string, SessionRecord>, path: seq<string>, outcomes: seq<RunOutcome>,
                               above: Option<string>, failed: bool)
  {
    && |path| - 1 <= |outcomes| <= |path|
    && (path != [] && |outcomes| == |path| ==>
          var last := path[|path| - 1];
          if outcomes[|path| - 1].WaitingInput? then above == None
          else above.Some? || failed || (last in sessions && sessions[last].parentSessionId.None?))
  }

  ghost predicate RightOutcome(sessions: map<string, SessionRecord>, logs: map<string, Log>, cs: string -> Continuation,
                               path: seq<string>, n: nat, outcome: RunOutcome)
    requires n < |path| && Upward(sessions, path) && sessions.Keys == logs.Keys
  {
    ContinuedRun(BeforeResume(sessions, logs, cs, path[..n + 1]), cs(path[n])).state.outcome == Some(outcome)
  }

  /** Each outcome is that of the run from the log as its session was reached. */
  ghost predicate RightOutcomes(sessions: map<string, SessionRecord>, logs: map<string, Log>,
                                cs: string -> Continuation, path: seq<string>, outcomes: seq<RunOutcome>)
  {
    && |outcomes| <= |path| && Upward(sessions, path) && sessions.Keys == logs.Keys
    && (forall n: nat :: n < |outcomes| ==> RightOutcome(sessions, logs, cs, path, n, outcomes[n]))
  }

  lemma NothingClimbed(sessions: map<string, SessionRecord>, logs: map<string, Log>, cs: string -> Continuation,
                       leaf: string)
    requires sessions.Keys == logs.Keys
    ensures Climbed(sessions, logs, cs, leaf, [], logs) && RightOutcomes(sessions, logs, cs, [], [])
  {
  }

  lemma OneMoreOutcome(sessions: map<string, SessionRecord>, logs: map<string, Log>, cs: string -> Continuation,
                       leaf: string, path: seq<string>, id: string, now: map<string, Log>, outcomes: seq<RunOutcome>)
    requires Reached(sessions, logs, cs, leaf, path, id, now) && RightOutcomes(sessions, logs, cs, path, outcomes)
             && |outcomes| == |path|
    ensures RightOutcomes(sessions, logs, cs, path + [id], outcomes)
    ensures var end := ContinuedRun(now[id], cs(id)).state.outcome;
            end.Some? ==> RightOutcomes(sessions, logs, cs, path + [id], outcomes + [end.value])
  {
    hide ContinuedRun, BeforeResume, AfterResume, Chain;
    var next := path + [id];
    assert next[..|next|] == next;
    forall n: nat, o | n < |path|
      ensures RightOutcome(sessions, logs, cs, next, n, o) == RightOutcome(sessions, logs, cs, path, n, o) {
      assert next[..n + 1] == path[..n + 1];
    }
  }

  method FirstPark(pending: seq<PendingInputRequest>, toolCallId: string) returns (request: Option<PendingInputRequest>)
    ensures request == ParkFor(pending, toolCallId)
  {
    for i := 0 to |pending|
      invariant ParkFor(pending, toolCallId) == ParkFor(pending[i..], toolCallId)
    {
      if pending[i].kind.ChildSession? && pending[i].toolCallId == toolCallId { return Some(pending[i]); }
    }
    request := None;
  }
}
