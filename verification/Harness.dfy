/** `AgentHarness`: history, queues and pending requests around the loop, with the
    persistence subscriber attached. */
module Harness {
  import opened Messages
  import opened Events
  import opened RepairAppend
  import opened Interruptions
  import opened SessionLog
  import opened AgentLoop
  import opened Store
  import opened Persistence
  import Resume

  datatype HarnessState = IsIdle | IsRunning | IsWaiting

  // ------------------------------------------------------- a run as a function

  /** A run: the loop's last state, and the interruptions appended after a cancellation. */
  datatype HarnessRun = HarnessRun(state: LoopState, tail: seq<AgentMessage>) {
    function Memory(): seq<AgentMessage> { state.messages + tail }

    /** What subscribers are notified of. */
    function Notified(): seq<AgentEvent> { state.events + Announce(tail) }
  }

  /** Dangling calls are repaired first, and the repairs announced; `cancelled` says
      whether the run's signal was ever set. */
  function Opening(cfg: LoopConfig, memory: seq<AgentMessage>, steering: seq<AgentMessage>,
                   followUps: seq<AgentMessage>, prompts: seq<AgentMessage>): LoopState {
    Begin(cfg, AppendInterrupted(memory), AppendedAll(memory), prompts, steering, followUps)
  }

  function RunHarness(cfg: LoopConfig, memory: seq<AgentMessage>, steering: seq<AgentMessage>,
                      followUps: seq<AgentMessage>, prompts: seq<AgentMessage>, scripts: seq<TurnScript>,
                      cancelled: bool): HarnessRun {
    var st := RunUpTo(cfg, Opening(cfg, memory, steering, followUps, prompts), scripts, |scripts|);
    HarnessRun(st, if cancelled then AppendedAll(st.messages) else [])
  }

  /** The pending requests a harness reports after these events. */
  function PendingAfter(before: seq<PendingInputRequest>, events: seq<AgentEvent>): seq<PendingInputRequest> {
    if events == [] then before
    else
      match events[|events| - 1]
      case AgentEnd(outcome, _, parked) => if outcome.WaitingInput? then parked else []
      case _ => PendingAfter(before, events[..|events| - 1])
  }

  lemma {:induction false} AppendedKeepsPrefix(ms: seq<AgentMessage>)
    ensures ms <= AppendInterrupted(ms) && AppendInterrupted(ms)[|ms|..] == AppendedAll(ms)
  {
  }

  class AgentHarness {
    const config: LoopConfig
    var messages: seq<AgentMessage>
    var running: bool
    var steeringQueue: seq<AgentMessage>
    var followUpQueue: seq<AgentMessage>
    var pendingRequests: seq<PendingInputRequest>

    constructor (config: LoopConfig, messages: seq<AgentMessage>)
      ensures this.config == config && this.messages == messages && !running
      ensures steeringQueue == [] && followUpQueue == [] && pendingRequests == []
    {
      this.config, this.messages, running := config, messages, false;
      steeringQueue, followUpQueue, pendingRequests := [], [], [];
    }

    /** `harness_from_session`: history and pending requests are what the log says. */
    static method FromSession(store: SessionStore, id: string, config: LoopConfig) returns (harness: AgentHarness)
      ensures fresh(harness) && harness.config == config && !harness.running
      ensures harness.messages == MessagesOf(store.LogOf(id)) && harness.pendingRequests == Pending(store.LogOf(id))
      ensures harness.steeringQueue == [] && harness.followUpQueue == []
    {
      var derived := Resume.Rehydrate(store, id);
      harness := new AgentHarness(config, derived.messages);
      harness.pendingRequests := derived.pendingRequests;
    }

    function State(): HarnessState
      reads this
    {
      if running then IsRunning else if pendingRequests != [] then IsWaiting else IsIdle
    }

    method SteerMessage(m: AgentMessage)
      modifies `steeringQueue
      ensures steeringQueue == old(steeringQueue) + [m]
    {
      steeringQueue := steeringQueue + [m];
    }

    method FollowUpMessage(m: AgentMessage)
      modifies `followUpQueue
      ensures followUpQueue == old(followUpQueue) + [m]
    {
      followUpQueue := followUpQueue + [m];
    }

    /** `resolve_pending`: removes the first pending request with this id. */
    method ResolvePending(requestId: string) returns (resolved: Option<PendingInputRequest>)
      modifies `pendingRequests
      ensures resolved.None? ==>
                pendingRequests == old(pendingRequests) && forall r :: r in pendingRequests ==> r.id != requestId
      ensures resolved.Some? ==> exists i ::
                && 0 <= i < |old(pendingRequests)| && old(pendingRequests)[i] == resolved.value
                && resolved.value.id == requestId
                && (forall j :: 0 <= j < i ==> old(pendingRequests)[j].id != requestId)
                && pendingRequests == old(pendingRequests)[..i] + old(pendingRequests)[i + 1..]
    {
      var pending := pendingRequests;
      var remaining: seq<PendingInputRequest> := [];
      resolved := None;
      ghost var at := 0;
      for i := 0 to |pending|
        invariant pendingRequests == pending
        invariant resolved.None? ==> remaining == pending[..i] && forall j :: 0 <= j < i ==> pending[j].id != requestId
        invariant resolved.Some? ==>
          && 0 <= at < i && pending[at] == resolved.value && resolved.value.id == requestId
          && (forall j :: 0 <= j < at ==> pending[j].id != requestId)
          && remaining == pending[..at] + pending[at + 1..i]
      {
        if resolved.None? && pending[i].id == requestId {
          resolved, at := Some(pending[i]), i;
        } else {
          remaining := remaining + [pending[i]];
        }
      }
      pendingRequests := remaining;
    }

    /** `_append_interrupted_tool_results` */
    method AppendInterruptedToolResults()
      modifies `messages
      ensures messages == AppendInterrupted(old(messages))
    {
      messages := AppendInterruptedResults(messages);
    }

    /** `prompt_message`, `continue_` and `_run`: refused while a run is under way; a run
        that the scripts do not finish stays under way. */
    method Run(prompts: seq<AgentMessage>, scripts: seq<TurnScript>, cancelled: bool, subscriber: PersistenceSubscriber)
      returns (run: Option<HarnessRun>)
      requires FeasibleRun(config, scripts)
      requires subscriber.Valid() && subscriber.store.Valid() && subscriber.sessionId in subscriber.store.sessions
      modifies this, subscriber.store`rows
      ensures subscriber.store.Valid() && subscriber.store.OnlyWrote(subscriber.sessionId)
      ensures run.None? <==> old(running)
      ensures run.None? ==>
                && unchanged(this)
                && subscriber.store.LogOf(subscriber.sessionId) == old(subscriber.store.LogOf(subscriber.sessionId))
      ensures run.Some? ==>
                var r := run.value;
                var expected := RunHarness(config, old(messages), old(steeringQueue), old(followUpQueue), prompts,
                                           scripts, cancelled);
                && r == (if expected.state.outcome.Some? then expected else HarnessRun(expected.state, []))
                && messages == r.Memory()
                && steeringQueue == r.state.steering && followUpQueue == r.state.followUps
                && pendingRequests == PendingAfter(old(pendingRequests), r.state.events)
                && running == r.state.outcome.None?
                && subscriber.store.LogOf(subscriber.sessionId)
                   == old(subscriber.store.LogOf(subscriber.sessionId)) + Persisted(r.Notified())
    {
      hide LogIn, RunUpTo, AppendInterrupted, FeasibleRun, Persisted, Begin, Numbered, Announce, PendingAfter,
        AppendedAll;
      if running { return None; }
      ghost var id, before := subscriber.sessionId, subscriber.store.LogOf(subscriber.sessionId);
      running := true;
      var repairedFrom := |messages|;
      AppendedKeepsPrefix(messages);
      AppendInterruptedToolResults();
      var repairs := messages[repairedFrom..];
      var st := RunAgentLoop(config, messages, repairs, prompts, steeringQueue, followUpQueue, scripts);
      ghost var expected := RunHarness(config, old(messages), old(steeringQueue), old(followUpQueue), prompts, scripts,
                                       cancelled);
      assert st == expected.state;
      messages, steeringQueue, followUpQueue := st.messages, st.steering, st.followUps;
      NotifyAll(st.events, subscriber);
      var tail: seq<AgentMessage> := [];
      if st.outcome.Some? {
        if cancelled {
          repairedFrom := |messages|;
          AppendedKeepsPrefix(messages);
          AppendInterruptedToolResults();
          tail := messages[repairedFrom..];
        }
        running := false;
      }
      assert messages == st.messages + tail;
      assert st.outcome.Some? ==> tail == expected.tail;
      AnnounceTail(tail, subscriber);
      run := Some(HarnessRun(st, tail));
      NotifiedPersists(run.value, before);
    }

    /** Repairs made after a cancellation reach the subscriber only. */
    method AnnounceTail(tail: seq<AgentMessage>, subscriber: PersistenceSubscriber)
      requires subscriber.Valid() && subscriber.store.Valid() && subscriber.sessionId in subscriber.store.sessions
      modifies subscriber.store`rows
      ensures subscriber.store.Valid() && subscriber.store.OnlyWrote(subscriber.sessionId)
      ensures subscriber.store.LogOf(subscriber.sessionId)
           == old(subscriber.store.LogOf(subscriber.sessionId)) + Persisted(Announce(tail))
    {
      hide LogIn, Persisted, Numbered, EntriesFor;
      var announced := AnnounceAll(tail);
      NothingPersisted();
      for i := 0 to |announced|
        invariant subscriber.store.Valid() && subscriber.store.OnlyWrote(subscriber.sessionId)
        invariant subscriber.store.LogOf(subscriber.sessionId)
               == old(subscriber.store.LogOf(subscriber.sessionId)) + Persisted(announced[..i])
      {
        subscriber.Notify(announced[i]);
        PersistedSnoc(announced, i);
      }
      assert announced[..|announced|] == announced;
    }

    /** Every event updates the pending requests and reaches the subscriber. */
    method NotifyAll(events: seq<AgentEvent>, subscriber: PersistenceSubscriber)
      requires subscriber.Valid() && subscriber.store.Valid() && subscriber.sessionId in subscriber.store.sessions
      modifies `pendingRequests, subscriber.store`rows
      ensures subscriber.store.Valid() && subscriber.store.OnlyWrote(subscriber.sessionId)
      ensures pendingRequests == PendingAfter(old(pendingRequests), events)
      ensures subscriber.store.LogOf(subscriber.sessionId)
           == old(subscriber.store.LogOf(subscriber.sessionId)) + Persisted(events)
    {
      hide LogIn, Persisted, Numbered, EntriesFor;
      NothingPersisted();
      for i := 0 to |events|
        invariant subscriber.store.Valid() && subscriber.store.OnlyWrote(subscriber.sessionId)
        invariant pendingRequests == PendingAfter(old(pendingRequests), events[..i])
        invariant subscriber.store.LogOf(subscriber.sessionId)
               == old(subscriber.store.LogOf(subscriber.sessionId)) + Persisted(events[..i])
      {
        assert events[..i + 1][..i] == events[..i];
        var event := events[i];
        if event.AgentEnd? { pendingRequests := if event.outcome.WaitingInput? then event.pendingRequests else []; }
        subscriber.Notify(event);
        PersistedSnoc(events, i);
      }
      assert events[..|events|] == events;
    }
  }

  lemma PersistedSnoc(events: seq<AgentEvent>, i: nat)
    requires i < |events|
    ensures Persisted(events[..i + 1]) == Persisted(events[..i]) + EntriesFor(events[i])
  {
    assert events[..i + 1][..i] == events[..i];
  }

  /** What a run's events persist, and behind it what its repairs do. */
  lemma NotifiedPersists(r: HarnessRun, before: Log)
    ensures before + Persisted(r.Notified()) == (before + Persisted(r.state.events)) + Persisted(Announce(r.tail))
  {
    hide Persisted, Announce;
    PersistedConcat(r.state.events, Announce(r.tail));
  }

  lemma NothingPersisted()
    ensures Persisted([]) == []
  {
  }
}
