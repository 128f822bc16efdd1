/** Restarting is invisible: a harness rebuilt from the log asks the provider the same
    things, runs the same tools and yields the same events as one that kept its memory. */
module RestartTransparency {
  import opened Messages
  import opened StreamEvents
  import opened Events
  import opened ToolHistory
  import opened RepairCanonical
  import opened RepairAppend
  import opened Interruptions
  import opened Decisions
  import opened ToolPhase
  import opened PhaseOutcomes
  import opened AgentLoop
  import opened SessionLog
  import opened Persistence
  import opened Harness
  import opened Passes
  import opened RunInvariants

  // --------------------------------------------------------- whole runs

  /** The environment keeps its assumptions as far as the run gets. */
  ghost predicate RunOk(cfg: LoopConfig, logged: seq<AgentMessage>, st: LoopState, scripts: seq<TurnScript>, n: nat)
    requires n <= |scripts|
  {
    n == 0 || (
      && RunOk(cfg, logged, st, scripts, n - 1)
      && var u := RunUpTo(cfg, st, scripts, n - 1);
         u.outcome.None? ==> TurnOk(cfg, KnownIds(Transcript(logged, u)), scripts[n - 1]))
  }

  lemma {:induction false} RunKeeps(cfg: LoopConfig, logged: seq<AgentMessage>, st: LoopState, scripts: seq<TurnScript>,
                                    n: nat)
    requires n <= |scripts| && RunInv(logged, st) && RunOk(cfg, logged, st, scripts, n)
    ensures RunInv(logged, RunUpTo(cfg, st, scripts, n))
  {
    hide RunInv, TurnOk, TurnStep, Transcript, KnownIds;
    if n > 0 {
      RunKeeps(cfg, logged, st, scripts, n - 1);
      var u := RunUpTo(cfg, st, scripts, n - 1);
      if u.outcome.None? { TurnKeeps(cfg, logged, u, scripts[n - 1]); }
    }
  }

  /** A second history that looks like the logged one goes through the same run. */
  lemma {:induction false} RunSame(cfg: LoopConfig, logged: seq<AgentMessage>, st: LoopState, h: seq<AgentMessage>,
                                   scripts: seq<TurnScript>, n: nat)
    requires n <= |scripts| && RunInv(logged, st) && RunInv(logged, With(st, h)) && RunOk(cfg, logged, st, scripts, n)
    ensures var u, v := RunUpTo(cfg, st, scripts, n), RunUpTo(cfg, With(st, h), scripts, n);
            v == With(u, v.messages) && RunInv(logged, u) && RunInv(logged, v)
  {
    hide RunInv, TurnOk, TurnStep, KnownIds;
    RunKeeps(cfg, logged, st, scripts, n);
    if n > 0 {
      RunSame(cfg, logged, st, h, scripts, n - 1);
      var u, v := RunUpTo(cfg, st, scripts, n - 1), RunUpTo(cfg, With(st, h), scripts, n - 1);
      if u.outcome.None? {
        SameContext(logged, u);
        SameContext(logged, v);
        PassSame(cfg, u, v.messages, scripts[n - 1]);
        TurnKeeps(cfg, logged, v, scripts[n - 1]);
      }
    }
  }

  lemma SameContext(logged: seq<AgentMessage>, st: LoopState)
    requires RunInv(logged, st)
    ensures ProviderContext(st.messages + st.pending) == ProviderContext(Transcript(logged, st) + st.pending)
  {
    hide ProviderContext, Plain, Ended;
    AgreePlain(Transcript(logged, st), st.messages, st.pending);
    AgreeShows(Transcript(logged, st) + st.pending, st.messages + st.pending);
  }

  // ------------------------------------------------- the harness around them

  /** The repairs answer calls that had no result. */
  lemma RepairsAgree(logged: seq<AgentMessage>, memory: seq<AgentMessage>)
    requires Agree(logged, memory)
    ensures Agree(logged + AppendedAll(memory), AppendInterrupted(memory))
  {
    hide Agree, AppendedAll, FreshCalls, SingleResults;
    AppendedFacts(memory);
    var repairs := AppendedAll(memory);
    assert SameResults(logged, memory) by { AgreeMeans(logged, memory); }
    forall m | m in repairs ensures m.ToolResultMessage? && m.toolCallId !in ResultMap(logged) {
      MissingMeans(memory, m.toolCallId);
    }
    SingleMeansDistinct(repairs);
    AgreeResults(logged, memory, repairs, repairs);
  }

  ghost predicate SameResults(a: seq<AgentMessage>, b: seq<AgentMessage>) { ResultMap(a) == ResultMap(b) }

  lemma AgreeMeans(logged: seq<AgentMessage>, memory: seq<AgentMessage>)
    requires Agree(logged, memory)
    ensures SameResults(logged, memory) && ViewOf(logged) == ViewOf(memory)
  {
  }

  lemma {:induction false} SingleMeansDistinct(rs: seq<AgentMessage>)
    requires SingleResults(rs) && forall r :: r in rs ==> r.ToolResultMessage?
    ensures DistinctResultIds(rs)
    ensures forall r :: r in rs ==> r.toolCallId in ResultMap(rs)
  {
    if rs != [] {
      var init, last := rs[..|rs| - 1], rs[|rs| - 1];
      assert forall r :: r in init ==> r in rs;
      SingleMeansDistinct(init);
      assert forall i :: 0 <= i < |init| ==> init[i] in init;
    }
  }

  ghost predicate PlainInputs(steering: seq<AgentMessage>, followUps: seq<AgentMessage>, prompts: seq<AgentMessage>) {
    AllPlain(steering) && AllPlain(followUps) && AllPlain(prompts)
  }

  lemma DrainKeeps(cfg: LoopConfig, logged: seq<AgentMessage>, st: LoopState)
    requires RunInv(logged, st)
    ensures RunInv(logged, DrainSteering(cfg, st))
  {
    hide Plain, Agree, Ended;
  }

  lemma EndedOpening(prelude: seq<AgentMessage>, prompts: seq<AgentMessage>)
    ensures Ended([AgentStart, TurnStart] + Announce(prelude) + Announce(prompts)) == prelude + prompts
  {
    hide Ended, Announce;
    EndedConcat([AgentStart, TurnStart] + Announce(prelude), Announce(prompts));
    EndedConcat([AgentStart, TurnStart], Announce(prelude));
    EndedConcat([AgentStart], [TurnStart]);
    assert [AgentStart] + [TurnStart] == [AgentStart, TurnStart];
    EndedOne(AgentStart);
    EndedOne(TurnStart);
    EndedAnnounced(prelude);
    EndedAnnounced(prompts);
  }

  /** Before its first pass a run agrees with its log. */
  lemma OpeningKeeps(cfg: LoopConfig, logged: seq<AgentMessage>, memory: seq<AgentMessage>, steering: seq<AgentMessage>,
                     followUps: seq<AgentMessage>, prompts: seq<AgentMessage>)
    requires Agree(logged, memory) && PlainInputs(steering, followUps, prompts)
    ensures RunInv(logged, Opening(cfg, memory, steering, followUps, prompts))
  {
    hide RunInv, AppendedAll, AppendInterrupted, Announce, DrainSteering, EndWithError, Agree;
    var repaired, repairs := AppendInterrupted(memory), AppendedAll(memory);
    var st := LoopState(repaired + prompts, prompts, [], steering, followUps, 1, true,
                        [AgentStart, TurnStart] + Announce(repairs) + Announce(prompts), [], [], None);
    RepairsAgree(logged, memory);
    OpenedAgrees(logged, repaired, repairs, st, prompts);
    DrainKeeps(cfg, logged, st);
    EndErrorKeeps(logged, st, BAD_MAX_TURNS);
  }

  lemma OpenedAgrees(logged: seq<AgentMessage>, repaired: seq<AgentMessage>, repairs: seq<AgentMessage>, st: LoopState,
                     prompts: seq<AgentMessage>)
    requires Agree(logged + repairs, repaired) && PlainInputs(st.steering, st.followUps, prompts)
    requires st.messages == repaired + prompts && st.pending == []
    requires st.events == [AgentStart, TurnStart] + Announce(repairs) + Announce(prompts)
    ensures RunInv(logged, st)
  {
    hide Agree, Ended, AllPlain, Announce, Transcript;
    assert Transcript(logged, st) == (logged + repairs) + prompts by { OpenedTranscript(logged, repairs, st, prompts); }
    AgreePlain(logged + repairs, repaired, prompts);
    NothingPlain();
  }

  lemma OpenedTranscript(logged: seq<AgentMessage>, repairs: seq<AgentMessage>, st: LoopState,
                         prompts: seq<AgentMessage>)
    requires st.events == [AgentStart, TurnStart] + Announce(repairs) + Announce(prompts)
    ensures Transcript(logged, st) == (logged + repairs) + prompts
  {
    hide Ended, Announce;
    EndedOpening(repairs, prompts);
    assert logged + (repairs + prompts) == (logged + repairs) + prompts;
  }

  /** Two openings from memories that look alike differ in their histories only. */
  lemma OpeningSame(cfg: LoopConfig, a: seq<AgentMessage>, b: seq<AgentMessage>, steering: seq<AgentMessage>,
                    followUps: seq<AgentMessage>, prompts: seq<AgentMessage>)
    requires ViewOf(a) == ViewOf(b)
    ensures var u, v := Opening(cfg, a, steering, followUps, prompts), Opening(cfg, b, steering, followUps, prompts);
            v == With(u, v.messages)
  {
    hide ViewOf, AppendedAll, Announce;
    SameInterruptions(a, b);
  }

  /** What an observer of a run sees: everything but the harness's own memory. */
  datatype Trace = Trace(events: seq<AgentEvent>, sent: seq<seq<AgentMessage>>, launched: seq<Runnable>,
                         outcome: Option<RunOutcome>, tail: seq<AgentMessage>)

  function TraceOf(r: HarnessRun): Trace {
    Trace(r.state.events, r.state.sent, r.state.launched, r.state.outcome, r.tail)
  }

  /** The environment's assumptions for one run of a harness. */
  ghost predicate HarnessOk(cfg: LoopConfig, logged: seq<AgentMessage>, memory: seq<AgentMessage>,
                            steering: seq<AgentMessage>, followUps: seq<AgentMessage>, prompts: seq<AgentMessage>,
                            scripts: seq<TurnScript>)
  {
    && PlainInputs(steering, followUps, prompts)
    && RunOk(cfg, logged, Opening(cfg, memory, steering, followUps, prompts), scripts, |scripts|)
  }

  /** Restart transparency for one run: rebuilt from any log that agrees with its memory,
      a harness sends the provider the same requests, starts the same executors, yields
      the same events and ends the same way; and memory agrees with the log afterwards,
      although the log has the results in order of arrival and memory in call order. */
  lemma RunTransparent(cfg: LoopConfig, log: Log, memory: seq<AgentMessage>, steering: seq<AgentMessage>,
                       followUps: seq<AgentMessage>, prompts: seq<AgentMessage>, scripts: seq<TurnScript>,
                       cancelled: bool)
    requires Agree(MessagesOf(log), memory)
    requires HarnessOk(cfg, MessagesOf(log), memory, steering, followUps, prompts, scripts)
    ensures var kept := RunHarness(cfg, memory, steering, followUps, prompts, scripts, cancelled);
            var rebuilt := RunHarness(cfg, MessagesOf(log), steering, followUps, prompts, scripts, cancelled);
            && TraceOf(rebuilt) == TraceOf(kept) && rebuilt.Notified() == kept.Notified()
            && rebuilt.state.steering == kept.state.steering && rebuilt.state.followUps == kept.state.followUps
            && Agree(MessagesOf(log + Persisted(kept.Notified())), kept.Memory())
            && Agree(MessagesOf(log + Persisted(kept.Notified())), rebuilt.Memory())
  {
    hide Agree, Ended, Plain, AppendedAll, Announce, MessagesOf, RunUpTo, Opening, PlainInputs, RunOk, Persisted,
      RunInv;
    var logged := MessagesOf(log);
    assert Agree(logged, logged) by { AgreeSelf(logged, memory); }
    var u, v := Opening(cfg, memory, steering, followUps, prompts), Opening(cfg, logged, steering, followUps, prompts);
    AgreeMeans(logged, memory);
    OpeningSame(cfg, memory, logged, steering, followUps, prompts);
    OpeningKeeps(cfg, logged, memory, steering, followUps, prompts);
    OpeningKeeps(cfg, logged, logged, steering, followUps, prompts);
    RunSame(cfg, logged, u, v.messages, scripts, |scripts|);
    var x, y := RunUpTo(cfg, u, scripts, |scripts|), RunUpTo(cfg, v, scripts, |scripts|);
    var kept := RunHarness(cfg, memory, steering, followUps, prompts, scripts, cancelled);
    var rebuilt := RunHarness(cfg, logged, steering, followUps, prompts, scripts, cancelled);
    assert Transcript(logged, x) == Transcript(logged, y);
    InvAgrees(logged, x);
    InvAgrees(logged, y);
    AgreeMeans(Transcript(logged, x), x.messages);
    AgreeMeans(Transcript(logged, y), y.messages);
    SameInterruptions(x.messages, y.messages);
    TailKeeps(log, x, cancelled);
    TailKeeps(log, y, cancelled);
  }

  lemma InvAgrees(logged: seq<AgentMessage>, st: LoopState)
    requires RunInv(logged, st)
    ensures Agree(Transcript(logged, st), st.messages)
  {
  }

  lemma AgreeSelf(log: seq<AgentMessage>, memory: seq<AgentMessage>)
    requires Agree(log, memory)
    ensures Agree(log, log)
  {
  }

  lemma TailKeeps(log: Log, st: LoopState, cancelled: bool)
    requires Agree(Transcript(MessagesOf(log), st), st.messages)
    ensures var tail := if cancelled then AppendedAll(st.messages) else [];
            Agree(MessagesOf(log + Persisted(st.events + Announce(tail))), st.messages + tail)
  {
    hide Agree, Ended, AppendedAll, Announce, MessagesOf, Persisted;
    var tail := if cancelled then AppendedAll(st.messages) else [];
    LogGrowsByEnded(log, st.events + Announce(tail));
    EndedConcat(st.events, Announce(tail));
    EndedAnnounced(tail);
    assert MessagesOf(log) + (Ended(st.events) + tail) == Transcript(MessagesOf(log), st) + tail;
    if cancelled {
      RepairsAgree(Transcript(MessagesOf(log), st), st.messages);
    } else {
      assert Transcript(MessagesOf(log), st) + tail == Transcript(MessagesOf(log), st)
             && st.messages + tail == st.messages;
    }
  }

  // ----------------------------------------------------- runs after runs

  /** One run as its callers ask for it. */
  datatype RunInput = RunInput(
    cfg: LoopConfig,
    steered: seq<AgentMessage>, followed: seq<AgentMessage>,  // queued since the run before
    prompts: seq<AgentMessage>, scripts: seq<TurnScript>, cancelled: bool,
    restart: bool)                                            // rebuild the harness from the log first

  /** A session between two runs: its log, and the history and queues of its harness. */
  datatype Life = Life(
    log: Log, memory: seq<AgentMessage>, steering: seq<AgentMessage>, followUps: seq<AgentMessage>, traces: seq<Trace>)

  /** The harness rebuilt from the log: its history is the log's and its queues are empty. */
  function FromLog(life: Life): Life { life.(memory := MessagesOf(life.log), steering := [], followUps := []) }

  function RunOf(life: Life, input: RunInput): HarnessRun {
    RunHarness(input.cfg, life.memory, life.steering + input.steered, life.followUps + input.followed,
               input.prompts, input.scripts, input.cancelled)
  }

  function RunOne(life: Life, input: RunInput): Life {
    var r := RunOf(life, input);
    Life(life.log + Persisted(r.Notified()), r.Memory(), r.state.steering, r.state.followUps,
         life.traces + [TraceOf(r)])
  }

  /** A session's life with restarts where asked, or with none at all. */
  function Lived(life: Life, inputs: seq<RunInput>, restarts: bool): Life {
    if inputs == [] then life
    else
      var before, last := Lived(life, inputs[..|inputs| - 1], restarts), inputs[|inputs| - 1];
      RunOne(if restarts && last.restart then FromLog(before) else before, last)
  }

  /** The environment's assumptions for one run after others. */
  ghost predicate InputOk(life: Life, input: RunInput) {
    HarnessOk(input.cfg, MessagesOf(life.log), life.memory, life.steering + input.steered,
              life.followUps + input.followed,
              input.prompts, input.scripts)
  }

  /** They hold for each run, which begins when the run before it has ended. */
  ghost predicate LifeOk(life: Life, inputs: seq<RunInput>) {
    inputs == [] || (
      && LifeOk(life, inputs[..|inputs| - 1])
      && var before := Lived(life, inputs[..|inputs| - 1], false);
         && InputOk(before, inputs[|inputs| - 1])
         && (before.traces != [] ==> before.traces[|before.traces| - 1].outcome.Some?))
  }

  /** Nothing is left on a queue where the harness is to be rebuilt. */
  ghost predicate QueuesEmptyAtRestarts(life: Life, inputs: seq<RunInput>) {
    inputs == [] || (
      && QueuesEmptyAtRestarts(life, inputs[..|inputs| - 1])
      && var before := Lived(life, inputs[..|inputs| - 1], false);
         inputs[|inputs| - 1].restart ==> before.steering == [] && before.followUps == [])
  }

  /** Two lives nobody can tell apart: they differ in the order of results in memory only. */
  ghost predicate Alike(a: Life, b: Life) {
    && b == a.(memory := b.memory)
    && Agree(MessagesOf(a.log), a.memory) && Agree(MessagesOf(a.log), b.memory)
  }

  lemma RunsAlike(a: Life, b: Life, input: RunInput)
    requires Alike(a, b) && InputOk(a, input)
    ensures Alike(RunOne(a, input), RunOne(b, input))
  {
    hide Agree, MessagesOf, RunHarness, HarnessOk, Persisted, TraceOf;
    var steering, followUps := a.steering + input.steered, a.followUps + input.followed;
    HarnessOkSame(a, b.memory, input);
    RunTransparent(input.cfg, a.log, a.memory, steering, followUps, input.prompts, input.scripts, input.cancelled);
    RunTransparent(input.cfg, a.log, b.memory, steering, followUps, input.prompts, input.scripts, input.cancelled);
  }

  lemma RebuiltAlike(a: Life, b: Life)
    requires Alike(a, b) && a.steering == [] && a.followUps == []
    ensures Alike(a, FromLog(b))
  {
    AgreeSelf(MessagesOf(a.log), a.memory);
  }

  /** Over any number of runs, restarting before any of them, as long as nothing is left
      on a queue there, changes nothing anybody can observe: log, queues and every trace
      are the same. */
  lemma {:induction false} RestartsInvisible(life: Life, inputs: seq<RunInput>)
    requires Agree(MessagesOf(life.log), life.memory) && LifeOk(life, inputs) && QueuesEmptyAtRestarts(life, inputs)
    ensures var kept, restarted := Lived(life, inputs, false), Lived(life, inputs, true);
            && Alike(kept, restarted) && restarted.log == kept.log && restarted.traces == kept.traces
            && restarted.steering == kept.steering && restarted.followUps == kept.followUps
            && ProviderContext(restarted.memory) == ProviderContext(kept.memory)
  {
    hide Agree, MessagesOf, RunOne, InputOk, ProviderContext, FromLog;
    if inputs != [] {
      var init, last := inputs[..|inputs| - 1], inputs[|inputs| - 1];
      RestartsInvisible(life, init);
      var kept, restarted := Lived(life, init, false), Lived(life, init, true);
      if last.restart { RebuiltAlike(kept, restarted); }
      RunsAlike(kept, if last.restart then FromLog(restarted) else restarted, last);
    }
    var kept, restarted := Lived(life, inputs, false), Lived(life, inputs, true);
    AgreeShows(MessagesOf(kept.log), kept.memory);
    AgreeShows(MessagesOf(kept.log), restarted.memory);
  }

  /** The assumptions about the environment are about what it can see, not about memory. */
  lemma HarnessOkSame(life: Life, memory: seq<AgentMessage>, input: RunInput)
    requires Agree(MessagesOf(life.log), life.memory) && Agree(MessagesOf(life.log), memory) && InputOk(life, input)
    ensures InputOk(life.(memory := memory), input)
  {
    hide Agree, MessagesOf, RunUpTo, Opening, PlainInputs, RunOk, RunInv;
    var logged, steering, followUps := MessagesOf(life.log), life.steering + input.steered,
      life.followUps + input.followed;
    AgreeMeans(logged, life.memory);
    AgreeMeans(logged, memory);
    OpeningSame(input.cfg, life.memory, memory, steering, followUps, input.prompts);
    OpeningKeeps(input.cfg, logged, life.memory, steering, followUps, input.prompts);
    OpeningKeeps(input.cfg, logged, memory, steering, followUps, input.prompts);
    var u := Opening(input.cfg, life.memory, steering, followUps, input.prompts);
    var v := Opening(input.cfg, memory, steering, followUps, input.prompts);
    RunOkSame(input.cfg, logged, u, v.messages, input.scripts, |input.scripts|);
  }

  lemma {:induction false} RunOkSame(cfg: LoopConfig, logged: seq<AgentMessage>, st: LoopState, h: seq<AgentMessage>,
                                     scripts: seq<TurnScript>, n: nat)
    requires n <= |scripts| && RunInv(logged, st) && RunInv(logged, With(st, h)) && RunOk(cfg, logged, st, scripts, n)
    ensures RunOk(cfg, logged, With(st, h), scripts, n)
  {
    hide RunInv, TurnOk, TurnStep, KnownIds;
    if n > 0 {
      RunOkSame(cfg, logged, st, h, scripts, n - 1);
      RunSame(cfg, logged, st, h, scripts, n - 1);
    }
  }
}
