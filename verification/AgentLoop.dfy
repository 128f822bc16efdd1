/** `run_agent_loop`: the provider/tool loop, one turn at a time.

    What the environment decides - the provider's stream, the arrivals of the tool
    phase, cancellation, and what others push on the queues meanwhile - is a turn
    script; a run is a fold over scripts and may be cut off by their end. */
module AgentLoop {
  import opened Messages
  import opened StreamEvents
  import opened Events
  import opened Tools
  import opened Truncation
  import opened ToolHistory
  import opened Decisions
  import opened ToolPhase

  datatype QueueMode = OneAtATime | All

  datatype LoopConfig = LoopConfig(phase: PhaseConfig, maxTurns: Option<int>, queueMode: QueueMode)

  /** One pass of the inner loop, as the environment plays it. */
  datatype TurnScript = TurnScript(
    now: int,                        // the clock, for the requests raised
    steered: seq<AgentMessage>,      // pushed on the queues before they are next drained
    followed: seq<AgentMessage>,
    cancelled: bool,                 // when the provider would be called
    stream: seq<StreamEvent>,        // what the provider streams
    cancelledInStream: bool,         // when it ends without a message
    arrivals: Arrivals,              // what reaches the tool phase's queue
    cancelledAfterTools: bool)       // once the tool phase is over

  /** The loop's variables, the events yielded, the requests sent to the provider and
      the calls whose executors were started. */
  datatype LoopState = LoopState(
    messages: seq<AgentMessage>, newMessages: seq<AgentMessage>, pending: seq<AgentMessage>,
    steering: seq<AgentMessage>, followUps: seq<AgentMessage>, turn: int, firstTurn: bool,
    events: seq<AgentEvent>, sent: seq<seq<AgentMessage>>, launched: seq<Runnable>, outcome: Option<RunOutcome>)

  // ------------------------------------------------------------- the pieces

  function Announce(ms: seq<AgentMessage>): seq<AgentEvent> {
    if ms == [] then [] else Announce(ms[..|ms| - 1]) + [MessageStart(ms[|ms| - 1]), MessageEnd(ms[|ms| - 1])]
  }

  /** What a drain takes from a queue; the rest stays. */
  function Taken(mode: QueueMode, queue: seq<AgentMessage>): (n: nat)
    ensures n <= |queue|
  {
    if queue == [] then 0 else if mode.All? then |queue| else 1
  }

  function Started(stream: seq<StreamEvent>): bool {
    stream != [] && (Started(stream[..|stream| - 1]) || stream[|stream| - 1].StreamStart?)
  }

  /** The loop events for a provider's stream. */
  function Relay(stream: seq<StreamEvent>): seq<AgentEvent> {
    if stream == [] then []
    else
      var init, e := stream[..|stream| - 1], stream[|stream| - 1];
      match e
      case StreamStart(partial) => Relay(init) + [MessageStart(partial)]
      case StreamDone(_, m) =>
        Relay(init) + (if Started(init) then [MessageEnd(m)] else [MessageStart(m), MessageEnd(m)])
      case StreamError(_, m) =>
        Relay(init) + (if Started(init) then [MessageEnd(m)] else [MessageStart(m), MessageEnd(m)])
      case _ => Relay(init) + [MessageUpdate(e.partial)]
  }

  /** The message of the stream's last terminal event. */
  function LastMessage(stream: seq<StreamEvent>): Option<Assistant> {
    if stream == [] then None
    else
      match stream[|stream| - 1]
      case StreamDone(_, m) => Some(m)
      case StreamError(_, m) => Some(m)
      case _ => LastMessage(stream[..|stream| - 1])
  }

  function Stopped(reason: StopReason, text: string): Assistant {
    AssistantMessage([], reason, Some(text))
  }

  function AssistantOf(s: TurnScript): Assistant {
    match LastMessage(s.stream)
    case Some(m) => m
    case None =>
      if s.cancelledInStream then Stopped(Aborted, "Operation aborted")
      else Stopped(Error, "Provider produced no assistant message")
  }

  /** The events of asking the provider: its stream, or a stopped message for none. */
  function AssistantEvents(s: TurnScript): seq<AgentEvent> {
    if LastMessage(s.stream).Some? then Relay(s.stream) else Relay(s.stream) + Announce([AssistantOf(s)])
  }

  function EndWith(st: LoopState, outcome: RunOutcome, parked: seq<PendingInputRequest>): LoopState {
    st.(events := st.events + [AgentEnd(outcome, st.newMessages, parked)], outcome := Some(outcome))
  }

  /** `_end_with_error` */
  function EndWithError(st: LoopState, text: string): LoopState {
    var m := Stopped(Error, text);
    EndWith(
      st.(messages := st.messages + [m], newMessages := st.newMessages + [m],
          events := st.events + [MessageStart(m), MessageEnd(m), TurnEnd(m, [])]),
      Failed, [])
  }

  /** Nothing more to do in the inner loop: take follow-ups, or end. */
  function FollowUp(cfg: LoopConfig, st: LoopState): LoopState {
    var n := Taken(cfg.queueMode, st.followUps);
    if n == 0 then EndWith(st, Completed, [])
    else st.(pending := st.followUps[..n], followUps := st.followUps[n..])
  }

  function Proceed(cfg: LoopConfig, st: LoopState, hasMoreTools: bool): LoopState {
    if hasMoreTools || st.pending != [] then st else FollowUp(cfg, st)
  }

  function DrainSteering(cfg: LoopConfig, st: LoopState): LoopState {
    var n := Taken(cfg.queueMode, st.steering);
    st.(pending := st.steering[..n], steering := st.steering[n..])
  }

  /** The end of a turn that does not end the run. */
  function Advance(cfg: LoopConfig, st: LoopState, m: AgentMessage, results: seq<AgentMessage>,
                   hasMoreTools: bool): LoopState {
    Proceed(cfg, DrainSteering(cfg, st.(events := st.events + [TurnEnd(m, results)], turn := st.turn + 1)),
            hasMoreTools)
  }

  /** The start of a pass: the pending messages enter history. */
  function Deliver(st: LoopState, s: TurnScript): LoopState {
    st.(steering := st.steering + s.steered, followUps := st.followUps + s.followed,
        messages := st.messages + st.pending, newMessages := st.newMessages + st.pending, pending := [],
        firstTurn := false,
        events := st.events + (if st.firstTurn then [] else [TurnStart]) + Announce(st.pending))
  }

  /** The provider is asked with the repaired context, and its message enters history. */
  function Ask(st: LoopState, s: TurnScript): LoopState {
    var m := AssistantOf(s);
    st.(sent := st.sent + [ProviderContext(st.messages)], events := st.events + AssistantEvents(s),
        messages := st.messages + [m], newMessages := st.newMessages + [m])
  }

  function PhaseConfigAt(cfg: LoopConfig, s: TurnScript): PhaseConfig { cfg.phase.(now := s.now) }

  function TurnPhase(cfg: LoopConfig, s: TurnScript): Phase {
    PhaseOf(PhaseConfigAt(cfg, s), CallsOf(AssistantOf(s)), s.arrivals.queue)
  }

  /** The results of the tool phase enter history, in call order. */
  function UseTools(cfg: LoopConfig, st: LoopState, s: TurnScript): LoopState {
    var p := TurnPhase(cfg, s);
    st.(messages := st.messages + p.results, newMessages := st.newMessages + p.results, events := st.events + p.events,
        launched := st.launched + TriageOf(PhaseConfigAt(cfg, s), CallsOf(AssistantOf(s))).runnable)
  }

  /** After the provider's message: its calls are run, and the run goes on or ends. */
  function Respond(cfg: LoopConfig, st: LoopState, s: TurnScript): LoopState {
    var m := AssistantOf(s);
    if m.stopReason.Error? then EndWith(st.(events := st.events + [TurnEnd(m, [])]), Failed, [])
    else if m.stopReason.Aborted? then EndWith(st.(events := st.events + [TurnEnd(m, [])]), AbortedRun, [])
    else if CallsOf(m) == [] then Advance(cfg, st, m, [], false)
    else
      var p := TurnPhase(cfg, s);
      var u := UseTools(cfg, st, s);
      if s.cancelledAfterTools then EndWith(u.(events := u.events + [TurnEnd(m, p.results)]), AbortedRun, [])
      else if p.parked != [] then EndWith(u.(events := u.events + [TurnEnd(m, p.results)]), WaitingInput, p.parked)
      else Advance(cfg, u, m, p.results, true)
  }

  function TooManyTurns(maxTurns: int): string { "Agent stopped after max_turns=" + SignedDecimal(maxTurns) }

  /** One pass of the inner loop. */
  function TurnStep(cfg: LoopConfig, st: LoopState, s: TurnScript): LoopState {
    var d := Deliver(st, s);
    if s.cancelled then EndWith(d, AbortedRun, [])
    else if cfg.maxTurns.Some? && d.turn > cfg.maxTurns.value then EndWithError(d, TooManyTurns(cfg.maxTurns.value))
    else Respond(cfg, Ask(d, s), s)
  }

  const BAD_MAX_TURNS := "max_turns must be at least 1"

  /** Before the first pass. */
  function Begin(cfg: LoopConfig, messages: seq<AgentMessage>, prelude: seq<AgentMessage>, prompts: seq<AgentMessage>,
                 steering: seq<AgentMessage>, followUps: seq<AgentMessage>): LoopState {
    var st := LoopState(messages + prompts, prompts, [], steering, followUps, 1, true,
                        [AgentStart, TurnStart] + Announce(prelude) + Announce(prompts), [], [], None);
    if cfg.maxTurns.Some? && cfg.maxTurns.value < 1 then EndWithError(st, BAD_MAX_TURNS)
    else DrainSteering(cfg, st)
  }

  /** The state after n passes; once ended, it stays. */
  function RunUpTo(cfg: LoopConfig, st: LoopState, scripts: seq<TurnScript>, n: nat): LoopState
    requires n <= |scripts|
  {
    if n == 0 then st
    else
      var u := RunUpTo(cfg, st, scripts, n - 1);
      if u.outcome.Some? then u else TurnStep(cfg, u, scripts[n - 1])
  }

  lemma {:induction false} EndedStays(cfg: LoopConfig, st: LoopState, scripts: seq<TurnScript>, n: nat, m: nat)
    requires n <= m <= |scripts| && RunUpTo(cfg, st, scripts, n).outcome.Some?
    ensures RunUpTo(cfg, st, scripts, m) == RunUpTo(cfg, st, scripts, n)
  {
    hide TurnStep;
    if n < m { EndedStays(cfg, st, scripts, n, m - 1); }
  }

  /** What the tool phase needs of a script: its arrivals merge what the tasks emit. */
  ghost predicate FeasibleTurn(cfg: LoopConfig, s: TurnScript) {
    && Feasible(PhaseConfigAt(cfg, s), CallsOf(AssistantOf(s)), s.arrivals)
    && (s.arrivals.breakAt.Some? ==> s.cancelledAfterTools)
  }

  ghost predicate FeasibleRun(cfg: LoopConfig, scripts: seq<TurnScript>) {
    forall i :: 0 <= i < |scripts| ==> FeasibleTurn(cfg, scripts[i])
  }

  // --------------------------------------------------------------- the loops

  method AnnounceAll(ms: seq<AgentMessage>) returns (events: seq<AgentEvent>)
    ensures events == Announce(ms)
  {
    events := [];
    for i := 0 to |ms|
      invariant events == Announce(ms[..i])
    {
      assert ms[..i + 1][..i] == ms[..i];
      events := events + [MessageStart(ms[i]), MessageEnd(ms[i])];
    }
    assert ms[..|ms|] == ms;
  }

  /** `_assistant_events` and the loop around it: relay the stream, keep its last message. */
  method AskProvider(s: TurnScript) returns (events: seq<AgentEvent>, assistant: Assistant)
    ensures events == AssistantEvents(s) && assistant == AssistantOf(s)
  {
    var last: Option<Assistant>, started := None, false;
    events := [];
    for i := 0 to |s.stream|
      invariant events == Relay(s.stream[..i]) && last == LastMessage(s.stream[..i])
                && started == Started(s.stream[..i])
    {
      assert s.stream[..i + 1][..i] == s.stream[..i];
      var e := s.stream[i];
      if e.StreamStart? {
        started := true;
        events := events + [MessageStart(e.partial)];
      } else if IsTerminal(e) {
        var m := if e.StreamDone? then e.message else e.error;
        last := Some(m);
        events := events + if started then [MessageEnd(m)] else [MessageStart(m), MessageEnd(m)];
      } else {
        events := events + [MessageUpdate(e.partial)];
      }
    }
    assert s.stream[..|s.stream|] == s.stream;
    if last.Some? { return events, last.value; }
    assistant := if s.cancelledInStream then Stopped(Aborted, "Operation aborted")
                 else Stopped(Error, "Provider produced no assistant message");
    assert [assistant][..0] == [];
    assert Announce([assistant]) == [MessageStart(assistant), MessageEnd(assistant)];
    events := events + [MessageStart(assistant), MessageEnd(assistant)];
  }

  /** The pending messages enter history and the event stream, one by one. */
  method DeliverPending(before: LoopState, s: TurnScript) returns (st: LoopState)
    ensures st == Deliver(before, s)
  {
    st := before.(steering := before.steering + s.steered, followUps := before.followUps + s.followed);
    if !st.firstTurn { st := st.(events := st.events + [TurnStart]); }
    st := st.(firstTurn := false);
    ghost var opening := st.events;
    var pending := st.pending;
    for i := 0 to |pending|
      invariant st == before.(
        steering := before.steering + s.steered, followUps := before.followUps + s.followed, firstTurn := false,
        messages := before.messages + pending[..i], newMessages := before.newMessages + pending[..i],
        events := opening + Announce(pending[..i]))
    {
      assert pending[..i + 1][..i] == pending[..i] && pending[..i + 1] == pending[..i] + [pending[i]];
      st := st.(messages := st.messages + [pending[i]], newMessages := st.newMessages + [pending[i]],
                events := st.events + [MessageStart(pending[i]), MessageEnd(pending[i])]);
    }
    assert pending[..|pending|] == pending;
    st := st.(pending := []);
  }

  /** Results are appended to history one by one, in call order. */
  method AppendResults(before: LoopState, results: seq<AgentMessage>) returns (st: LoopState)
    ensures st == before.(messages := before.messages + results, newMessages := before.newMessages + results)
  {
    st := before;
    for i := 0 to |results|
      invariant st == before.(messages := before.messages + results[..i],
                              newMessages := before.newMessages + results[..i])
    {
      assert results[..i + 1] == results[..i] + [results[i]];
      st := st.(messages := st.messages + [results[i]], newMessages := st.newMessages + [results[i]]);
    }
    assert results[..|results|] == results;
  }

  /** `_drain_queue` */
  method DrainQueue(mode: QueueMode, queue: seq<AgentMessage>)
    returns (taken: seq<AgentMessage>, rest: seq<AgentMessage>)
    ensures taken == queue[..Taken(mode, queue)] && rest == queue[Taken(mode, queue)..]
  {
    if queue == [] { return [], queue; }
    if mode.All? { return queue, []; }
    return [queue[0]], queue[1..];
  }

  /** The tool calls of a turn; says whether the run ends here. */
  method ToolTurn(cfg: LoopConfig, before: LoopState, s: TurnScript, assistant: Assistant)
    returns (st: LoopState, results: seq<AgentMessage>, ended: bool)
    requires FeasibleTurn(cfg, s) && assistant == AssistantOf(s)
    requires CallsOf(assistant) != [] && !assistant.stopReason.Error? && !assistant.stopReason.Aborted?
             && before.outcome.None?
    ensures ended ==> st == Respond(cfg, before, s) && st.outcome.Some?
    ensures !ended ==> Respond(cfg, before, s) == Advance(cfg, st, assistant, results, true) && st.outcome.None?
  {
    hide PhaseOf, CallsOf, AssistantOf, TriageOf, Advance, Feasible;
    var events, toolResults, parked := RunToolPhase(PhaseConfigAt(cfg, s), CallsOf(assistant), s.arrivals);
    st := before.(events := before.events + events,
                  launched := before.launched + TriageOf(PhaseConfigAt(cfg, s), CallsOf(assistant)).runnable);
    st := AppendResults(st, toolResults);
    results := toolResults;
    if s.cancelledAfterTools {
      st := EndWith(st.(events := st.events + [TurnEnd(assistant, results)]), AbortedRun, []);
      return st, results, true;
    }
    if parked != [] {
      st := EndWith(st.(events := st.events + [TurnEnd(assistant, results)]), WaitingInput, parked);
      return st, results, true;
    }
    ended := false;
  }

  /** The provider's message enters history; says whether the run ends with it. */
  method AskTurn(cfg: LoopConfig, before: LoopState, s: TurnScript)
    returns (st: LoopState, assistant: Assistant, ended: bool)
    requires before.outcome.None?
    ensures assistant == AssistantOf(s)
    ensures ended ==> st == Respond(cfg, Ask(before, s), s) && st.outcome.Some?
    ensures !ended ==>
              && st == Ask(before, s) && st.outcome.None?
              && !assistant.stopReason.Error? && !assistant.stopReason.Aborted?
  {
    hide CallsOf, AssistantOf, AssistantEvents, TurnPhase, Advance, UseTools, Repair, Replayable;
    var repaired := RepairToolHistory(Replayable(before.messages));
    var events;
    events, assistant := AskProvider(s);
    st := before.(sent := before.sent + [repaired.messages], events := before.events + events,
                  messages := before.messages + [assistant], newMessages := before.newMessages + [assistant]);
    ended := assistant.stopReason.Error? || assistant.stopReason.Aborted?;
    if ended {
      st := EndWith(st.(events := st.events + [TurnEnd(assistant, [])]),
                    if assistant.stopReason.Error? then Failed else AbortedRun, []);
    }
  }

  method RunAgentLoop(cfg: LoopConfig, messages: seq<AgentMessage>, prelude: seq<AgentMessage>,
                      prompts: seq<AgentMessage>, steering: seq<AgentMessage>, followUps: seq<AgentMessage>,
                      scripts: seq<TurnScript>)
    returns (st: LoopState)
    requires FeasibleRun(cfg, scripts)
    ensures st == RunUpTo(cfg, Begin(cfg, messages, prelude, prompts, steering, followUps), scripts, |scripts|)
  {
    hide CallsOf, AssistantOf, Deliver, Ask, Respond, EndWithError, FeasibleTurn, TooManyTurns, EndWith;
    EndingEnds();
    ghost var st0 := Begin(cfg, messages, prelude, prompts, steering, followUps);
    var opening := AnnounceAll(prelude);
    var asked := AnnounceAll(prompts);
    st := LoopState(messages + prompts, prompts, [], steering, followUps, 1, true,
                    [AgentStart, TurnStart] + opening + asked, [], [], None);
    if cfg.maxTurns.Some? && cfg.maxTurns.value < 1 {
      st := EndWithError(st, BAD_MAX_TURNS);
      EndedStays(cfg, st0, scripts, 0, |scripts|);
      return;
    }
    var taken, rest := DrainQueue(cfg.queueMode, st.steering);
    st := st.(pending := taken, steering := rest);
    var i := 0;
    while true
      invariant i <= |scripts| && st.outcome.None? && st == RunUpTo(cfg, st0, scripts, i)
      decreases |scripts| - i
    {
      ghost var start := i;
      var hasMoreTools := true;
      while hasMoreTools || st.pending != []
        invariant i <= |scripts| && st.outcome.None? && start <= i && (i == start ==> hasMoreTools)
        invariant Proceed(cfg, st, hasMoreTools) == RunUpTo(cfg, st0, scripts, i)
        decreases |scripts| - i
      {
        if i == |scripts| { return; }
        var s := scripts[i];
        ghost var u := st;
        i := i + 1;
        assert RunUpTo(cfg, st0, scripts, i) == TurnStep(cfg, u, s);
        st := DeliverPending(st, s);
        DeliverGoesOn(u, s);
        if s.cancelled {
          st := EndWith(st, AbortedRun, []);
          EndedStays(cfg, st0, scripts, i, |scripts|);
          return;
        }
        if cfg.maxTurns.Some? && st.turn > cfg.maxTurns.value {
          st := EndWithError(st, TooManyTurns(cfg.maxTurns.value));
          EndedStays(cfg, st0, scripts, i, |scripts|);
          return;
        }
        ghost var d := st;
        var assistant, ended;
        st, assistant, ended := AskTurn(cfg, st, s);
        var results: seq<AgentMessage> := [];
        if !ended {
          hasMoreTools := CallsOf(assistant) != [];
          if hasMoreTools {
            st, results, ended := ToolTurn(cfg, st, s, assistant);
          } else {
            NoCalls(cfg, st, s);
          }
        }
        if ended {
          EndedStays(cfg, st0, scripts, i, |scripts|);
          return;
        }
        st := st.(events := st.events + [TurnEnd(assistant, results)], turn := st.turn + 1);
        taken, rest := DrainQueue(cfg.queueMode, st.steering);
        st := st.(pending := taken, steering := rest);
      }
      taken, rest := DrainQueue(cfg.queueMode, st.followUps);
      if taken == [] {
        st := EndWith(st, Completed, []);
        EndedStays(cfg, st0, scripts, i, |scripts|);
        return;
      }
      st := st.(pending := taken, followUps := rest);
    }
  }

  lemma EndingEnds()
    ensures forall st, o, parked :: EndWith(st, o, parked).outcome.Some?
    ensures forall st, text :: EndWithError(st, text).outcome.Some?
  {
  }

  lemma DeliverGoesOn(st: LoopState, s: TurnScript)
    ensures Deliver(st, s).outcome == st.outcome && Deliver(st, s).turn == st.turn
  {
  }

  lemma NoCalls(cfg: LoopConfig, st: LoopState, s: TurnScript)
    requires CallsOf(AssistantOf(s)) == [] && !AssistantOf(s).stopReason.Error? && !AssistantOf(s).stopReason.Aborted?
    ensures Respond(cfg, st, s) == Advance(cfg, st, AssistantOf(s), [], false)
  {
  }
}
