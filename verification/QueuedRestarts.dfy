/** What a restart loses: messages left on the queues of a harness live in memory only.
    When that shows, and when it does not. */
module QueuedRestarts {
  import opened Messages
  import opened StreamEvents
  import opened Events
  import opened ToolHistory
  import opened RepairAppend
  import opened Interruptions
  import opened Decisions
  import opened ToolPhase
  import opened AgentLoop
  import opened SessionLog
  import opened Persistence
  import opened Harness
  import opened Passes
  import opened RunInvariants
  import opened RestartTransparency

  // ------------------------------------------------------ events only grow

  lemma AdvanceGrows(cfg: LoopConfig, st: LoopState, m: AgentMessage, results: seq<AgentMessage>, more: bool)
    ensures st.events <= Advance(cfg, st, m, results, more).events
  {
  }

  lemma RespondGrows(cfg: LoopConfig, st: LoopState, s: TurnScript)
    ensures st.events <= Respond(cfg, st, s).events
  {
    hide CallsOf, AssistantOf, TurnPhase, TriageOf, Advance;
    AdvanceGrows(cfg, st, AssistantOf(s), [], false);
    AdvanceGrows(cfg, UseTools(cfg, st, s), AssistantOf(s), TurnPhase(cfg, s).results, true);
  }

  lemma PassGrows(cfg: LoopConfig, st: LoopState, s: TurnScript)
    ensures st.events <= Deliver(st, s).events <= TurnStep(cfg, st, s).events
    ensures !TurnStep(cfg, st, s).firstTurn
  {
    hide AssistantEvents, Announce, TooManyTurns, Respond, AssistantOf;
    RespondGrows(cfg, Ask(Deliver(st, s), s), s);
    RespondKeepsTurn(cfg, Ask(Deliver(st, s), s), s);
  }

  lemma RespondKeepsTurn(cfg: LoopConfig, st: LoopState, s: TurnScript)
    ensures Respond(cfg, st, s).firstTurn == st.firstTurn
  {
    hide CallsOf, AssistantOf, TurnPhase, TriageOf;
  }

  lemma {:induction false} RunGrows(cfg: LoopConfig, st: LoopState, scripts: seq<TurnScript>, k: nat, n: nat)
    requires k <= n <= |scripts|
    ensures RunUpTo(cfg, st, scripts, k).events <= RunUpTo(cfg, st, scripts, n).events
  {
    hide TurnStep;
    if k < n {
      RunGrows(cfg, st, scripts, k, n - 1);
      var u := RunUpTo(cfg, st, scripts, n - 1);
      if u.outcome.None? { PassGrows(cfg, u, scripts[n - 1]); }
    }
  }

  // ------------------------------------------------------ follow-ups left over

  /** A pass with follow-ups queued does what it does without, until the work is done:
      then it goes on where the other completes. */
  ghost predicate Shadows(v: LoopState, t: LoopState, f: seq<AgentMessage>) {
    && t.followUps == []
    && if t.outcome == Some(Completed)
         then v.outcome.None? && t.events == v.events + [AgentEnd(Completed, v.newMessages, [])]
       else v == t.(followUps := f)
  }

  lemma AdvanceShadows(cfg: LoopConfig, st: LoopState, f: seq<AgentMessage>, m: AgentMessage,
                       results: seq<AgentMessage>, more: bool)
    requires st.followUps == [] && st.outcome.None? && f != []
    ensures Shadows(Advance(cfg, st.(followUps := f), m, results, more), Advance(cfg, st, m, results, more), f)
  {
  }

  lemma RespondShadows(cfg: LoopConfig, st: LoopState, f: seq<AgentMessage>, s: TurnScript)
    requires st.followUps == [] && st.outcome.None? && f != []
    ensures Shadows(Respond(cfg, st.(followUps := f), s), Respond(cfg, st, s), f)
  {
    hide CallsOf, AssistantOf, TurnPhase, TriageOf, Advance;
    AdvanceShadows(cfg, st, f, AssistantOf(s), [], false);
    AdvanceShadows(cfg, UseTools(cfg, st, s), f, AssistantOf(s), TurnPhase(cfg, s).results, true);
  }

  lemma PassShadows(cfg: LoopConfig, st: LoopState, f: seq<AgentMessage>, s: TurnScript)
    requires st.followUps == [] && st.outcome.None? && f != [] && s.followed == []
    ensures Shadows(TurnStep(cfg, st.(followUps := f), s), TurnStep(cfg, st, s), f)
  {
    hide AssistantEvents, Announce, TooManyTurns, Respond, AssistantOf, CallsOf;
    assert f + s.followed == f;
    RespondShadows(cfg, Ask(Deliver(st, s), s), f, s);
  }

  ghost predicate NoFollowUpsPushed(scripts: seq<TurnScript>) { forall s :: s in scripts ==> s.followed == [] }

  /** ... and so does a run. */
  lemma {:induction false} RunShadows(cfg: LoopConfig, st: LoopState, f: seq<AgentMessage>, scripts: seq<TurnScript>,
                                      n: nat)
    requires n <= |scripts| && NoFollowUpsPushed(scripts) && f != []
    requires st.followUps == [] && st.outcome != Some(Completed)
    ensures var u := RunUpTo(cfg, st, scripts, n);
            u.followUps == [] && (u.outcome != Some(Completed) ==>
                                    RunUpTo(cfg, st.(followUps := f), scripts, n) == u.(followUps := f))
  {
    hide TurnStep;
    if n > 0 {
      RunShadows(cfg, st, f, scripts, n - 1);
      var u := RunUpTo(cfg, st, scripts, n - 1);
      if u.outcome.None? {
        assert scripts[n - 1] in scripts;
        PassShadows(cfg, u, f, scripts[n - 1]);
      }
    }
  }

  /** The pass in which a run completes. */
  lemma {:induction false} CompletedIn(cfg: LoopConfig, st: LoopState, scripts: seq<TurnScript>, n: nat)
    returns (k: nat)
    requires n <= |scripts| && st.outcome != Some(Completed) && RunUpTo(cfg, st, scripts, n).outcome == Some(Completed)
    ensures k < n && RunUpTo(cfg, st, scripts, k).outcome.None?
    ensures RunUpTo(cfg, st, scripts, k + 1) == RunUpTo(cfg, st, scripts, n)
  {
    hide TurnStep;
    if RunUpTo(cfg, st, scripts, n - 1).outcome.Some? { k := CompletedIn(cfg, st, scripts, n - 1); } else {
      k := n - 1;
    }
  }

  /** Where the run without follow-ups completes, the one with them does something else. */
  lemma FollowUpsShow(cfg: LoopConfig, st: LoopState, f: seq<AgentMessage>, scripts: seq<TurnScript>)
    requires NoFollowUpsPushed(scripts) && f != [] && st.followUps == [] && st.outcome != Some(Completed)
    requires RunUpTo(cfg, st, scripts, |scripts|).outcome == Some(Completed)
    ensures var u, v := RunUpTo(cfg, st, scripts, |scripts|), RunUpTo(cfg, st.(followUps := f), scripts, |scripts|);
            v.outcome != u.outcome || v.events != u.events
  {
    hide TurnStep, Announce;
    var n, kept := |scripts|, st.(followUps := f);
    var k := CompletedIn(cfg, st, scripts, n);
    var u, v := RunUpTo(cfg, st, scripts, n), RunUpTo(cfg, kept, scripts, k + 1);
    RunShadows(cfg, st, f, scripts, k);
    assert scripts[k] in scripts;
    PassShadows(cfg, RunUpTo(cfg, st, scripts, k), f, scripts[k]);
    PassGrows(cfg, RunUpTo(cfg, kept, scripts, k), scripts[k]);
    if k + 1 < n {
      PassGrows(cfg, v, scripts[k + 1]);
      RunGrows(cfg, kept, scripts, k + 2, n);
      OpensATurn(v, scripts[k + 1]);
      assert RunUpTo(cfg, kept, scripts, n).events[|v.events|] == TurnStart;
    }
  }

  lemma OpensATurn(v: LoopState, s: TurnScript)
    requires !v.firstTurn
    ensures v.events + [TurnStart] <= Deliver(v, s).events
  {
  }

  // -------------------------------------------------------- steering left over

  lemma {:induction false} RelayStartsReplies(stream: seq<StreamEvent>)
    ensures forall e :: e in Relay(stream) && e.MessageStart? ==> !IsInput(e.message)
    ensures LastMessage(stream).Some? ==> Relay(stream) != []
  {
    hide Started;
    if stream != [] { RelayStartsReplies(stream[..|stream| - 1]); }
  }

  /** The first event behind what was delivered announces no input. */
  lemma FirstIsReply(cfg: LoopConfig, st: LoopState, s: TurnScript)
    ensures var at := |Deliver(st, s).events|;
            && at < |TurnStep(cfg, st, s).events|
            && var e := TurnStep(cfg, st, s).events[at]; e.MessageStart? ==> !IsInput(e.message)
  {
    hide Announce, TooManyTurns, Respond, AssistantEvents, AssistantOf;
    var d := Deliver(st, s);
    AskedFirst(s);
    RespondGrows(cfg, Ask(d, s), s);
    if !s.cancelled && !(cfg.maxTurns.Some? && d.turn > cfg.maxTurns.value) {
      assert TurnStep(cfg, st, s).events[|d.events|] == AssistantEvents(s)[0];
    }
  }

  lemma AskedFirst(s: TurnScript)
    ensures AssistantEvents(s) != []
            && (AssistantEvents(s)[0].MessageStart? ==> !IsInput(AssistantEvents(s)[0].message))
  {
    hide Relay;
    RelayStartsReplies(s.stream);
    var m := AssistantOf(s);
    assert [m][..0] == [] && Announce([m]) == [MessageStart(m), MessageEnd(m)];
    if Relay(s.stream) != [] {
      assert AssistantEvents(s)[0] == Relay(s.stream)[0] && Relay(s.stream)[0] in Relay(s.stream);
    }
  }

  lemma AnnouncedFirst(ms: seq<AgentMessage>)
    requires ms != []
    ensures Announce(ms) != [] && Announce(ms)[0] == MessageStart(ms[0])
  {
    if |ms| > 1 { AnnouncedFirst(ms[..|ms| - 1]); }
  }

  lemma DeliversNothing(st: LoopState, s: TurnScript)
    requires st.firstTurn && st.pending == []
    ensures Deliver(st, s).events == st.events
  {
  }

  /** A first pass that delivers an input differs from one that delivers nothing. */
  lemma SteeringShows(cfg: LoopConfig, u: LoopState, v: LoopState, scripts: seq<TurnScript>)
    requires scripts != [] && u.outcome.None? && v.outcome.None? && u.events == v.events && u.firstTurn && v.firstTurn
    requires u.pending == [] && v.pending != [] && IsInput(v.pending[0])
    ensures RunUpTo(cfg, u, scripts, |scripts|).events != RunUpTo(cfg, v, scripts, |scripts|).events
  {
    hide TurnStep, Announce;
    var s, at := scripts[0], |u.events|;
    assert RunUpTo(cfg, u, scripts, 0) == u && RunUpTo(cfg, v, scripts, 0) == v;
    assert RunUpTo(cfg, u, scripts, 1) == TurnStep(cfg, u, s) && RunUpTo(cfg, v, scripts, 1) == TurnStep(cfg, v, s);
    RunGrows(cfg, u, scripts, 1, |scripts|);
    RunGrows(cfg, v, scripts, 1, |scripts|);
    FirstIsReply(cfg, u, s);
    DeliversNothing(u, s);
    PassGrows(cfg, v, s);
    AnnouncedFirst(v.pending);
    assert Deliver(v, s).events[at] == MessageStart(v.pending[0]);
  }

  // ------------------------------------------------------------ the condition

  /** What is left on the queues of the harness is not read by the run: there is no
      pass, no steering message, and no follow-up when the rebuilt one completes. */
  predicate LeftUnread(cfg: LoopConfig, steering: seq<AgentMessage>, followUps: seq<AgentMessage>,
                       scripts: seq<TurnScript>, rebuilt: Option<RunOutcome>) {
    || scripts == []
    || (cfg.maxTurns.Some? && cfg.maxTurns.value < 1)
    || (steering == [] && (followUps == [] || rebuilt != Some(Completed)))
  }

  lemma OpeningIs(cfg: LoopConfig, memory: seq<AgentMessage>, steering: seq<AgentMessage>, followUps: seq<AgentMessage>,
                  prompts: seq<AgentMessage>)
    ensures var a, b := Opening(cfg, memory, steering, followUps, prompts), Opening(cfg, memory, [], [], prompts);
            && a.events == b.events && a.sent == b.sent && a.launched == b.launched && a.messages == b.messages
            && if cfg.maxTurns.Some? && cfg.maxTurns.value < 1
                 then a == b.(steering := steering, followUps := followUps) && a.outcome == Some(Failed)
               else && a.outcome.None? && b.outcome.None? && a.firstTurn && b.firstTurn && b.pending == []
                    && b.followUps == []
                    && (steering == [] ==> a == b.(followUps := followUps))
                    && (steering != [] ==> a.pending != [] && a.pending[0] == steering[0])
  {
    hide AppendInterrupted, AppendedAll, Announce;
  }

  /** Rebuilt with empty queues, a harness runs as the kept one does if and only if the
      run does not read what the kept one had left. */
  lemma LeftoversShowIff(cfg: LoopConfig, log: Log, memory: seq<AgentMessage>, steering: seq<AgentMessage>,
                         followUps: seq<AgentMessage>, prompts: seq<AgentMessage>, scripts: seq<TurnScript>,
                         cancelled: bool)
    requires Agree(MessagesOf(log), memory)
             && HarnessOk(cfg, MessagesOf(log), memory, steering, followUps, prompts, scripts)
    requires AllInputs(steering) && NoFollowUpsPushed(scripts)
    ensures var kept := RunHarness(cfg, memory, steering, followUps, prompts, scripts, cancelled);
            var rebuilt := RunHarness(cfg, MessagesOf(log), [], [], prompts, scripts, cancelled);
            TraceOf(rebuilt) == TraceOf(kept) <==> LeftUnread(cfg, steering, followUps, scripts, rebuilt.state.outcome)
  {
    hide Agree, MessagesOf, HarnessOk, RunUpTo, Opening, Announce, AppendedAll, Persisted;
    var mine := MessagesOf(log);
    RunTransparent(cfg, log, memory, steering, followUps, prompts, scripts, cancelled);
    OpeningIs(cfg, mine, steering, followUps, prompts);
    var u, v := Opening(cfg, mine, [], [], prompts), Opening(cfg, mine, steering, followUps, prompts);
    var n := |scripts|;
    if n == 0 || (cfg.maxTurns.Some? && cfg.maxTurns.value < 1) {
      NothingRuns(cfg, u, v, scripts);
    } else if steering != [] {
      assert steering[0] in steering;
      SteeringShows(cfg, u, v, scripts);
    } else if followUps != [] {
      RunShadows(cfg, u, followUps, scripts, n);
      if RunUpTo(cfg, u, scripts, n).outcome == Some(Completed) { FollowUpsShow(cfg, u, followUps, scripts); }
    } else {
      assert u == v;
    }
  }

  lemma NothingRuns(cfg: LoopConfig, u: LoopState, v: LoopState, scripts: seq<TurnScript>)
    requires scripts == [] || (u.outcome.Some? && v.outcome.Some?)
    ensures RunUpTo(cfg, u, scripts, |scripts|) == u && RunUpTo(cfg, v, scripts, |scripts|) == v
  {
    if scripts != [] {
      assert RunUpTo(cfg, u, scripts, 0) == u && RunUpTo(cfg, v, scripts, 0) == v;
      EndedStays(cfg, u, scripts, 0, |scripts|);
      EndedStays(cfg, v, scripts, 0, |scripts|);
    }
  }

  // ------------------------------------------------------- a lost follow-up

  const SETUP := LoopConfig(PhaseConfig(map[], None, None, None, (call: ToolCall) => "request", 0), None, OneAtATime)
  const PROMPT := UserMessage([TextBlock("clean up")])
  const QUEUED := UserMessage([TextBlock("and report")])

  /** A pass in which QUEUED is pushed and the provider fails; one in which it replies. */
  const FAILS := TurnScript(1, [], [QUEUED], false, [StreamError(Error, Stopped(Error, "overloaded"))], false,
                            Arrivals([], [], None), false)
  const REPLIES := TurnScript(2, [], [], false, [StreamDone(Stop, AssistantMessage([Text("done", None)], Stop, None))],
                              false,
                              Arrivals([], [], None), false)

  const NEW := Life([], [], [], [], [])
  const RUNS := [RunInput(SETUP, [], [], [PROMPT], [FAILS], false, false),
                 RunInput(SETUP, [], [], [PROMPT], [REPLIES, REPLIES], false, true)]

  lemma NoCallsRun(s: TurnScript)
    requires s in [FAILS, REPLIES]
    ensures CallsOf(AssistantOf(s)) == [] && AllPlain(s.steered) && AllPlain(s.followed) && Terminals(s.stream) == 1
  {
    assert s.stream[..0] == [];
    assert BlockCalls([]) == [];
    assert [Text("done", None)][1..] == [];
    assert CallsOf(QUEUED) == [];
  }

  lemma TurnIsOk(known: set<string>, s: TurnScript)
    requires s in [FAILS, REPLIES]
    ensures TurnOk(SETUP, known, s)
  {
    hide CallsOf, AssistantOf, AllPlain, Terminals;
    NoCallsRun(s);
    assert TriageOf(PhaseConfigAt(SETUP, s), []) == Triage([], map[], [], []);
  }

  lemma FailingPass(st: LoopState)
    requires st.outcome.None? && st.turn == 1
    ensures var t := TurnStep(SETUP, st, FAILS);
            && t.outcome == Some(Failed) && t.steering == st.steering && t.followUps == st.followUps + [QUEUED]
            && t.sent == st.sent + [ProviderContext(st.messages + st.pending)]
  {
    hide Announce, ProviderContext, AssistantEvents, CallsOf;
    assert AssistantOf(FAILS).stopReason.Error?;
    assert st.steering + [] == st.steering;
  }

  lemma ReplyingPass(st: LoopState)
    requires st.outcome.None? && st.steering == [] && |st.followUps| <= 1
    ensures var t := TurnStep(SETUP, st, REPLIES);
            && |t.sent| == |st.sent| + 1 && t.steering == [] && t.followUps == [] && t.pending == st.followUps
            && t.outcome == if st.followUps == [] then Some(Completed) else None
  {
    hide Announce, ProviderContext, AssistantEvents, CallsOf, EndWith, AssistantOf;
    NoCallsRun(REPLIES);
    assert !AssistantOf(REPLIES).stopReason.Error? && !AssistantOf(REPLIES).stopReason.Aborted? by { Replied(); }
    Ending();
  }

  lemma Replied()
    ensures AssistantOf(REPLIES).stopReason == Stop
  {
  }

  lemma Ending()
    ensures forall st: LoopState, o, parked :: EndWith(st, o, parked) ==
              st.(events := st.events + [AgentEnd(o, st.newMessages, parked)], outcome := Some(o))
  {
  }

  lemma Opens(memory: seq<AgentMessage>, followUps: seq<AgentMessage>)
    ensures var st := Opening(SETUP, memory, [], followUps, [PROMPT]);
            && st.outcome.None? && st.turn == 1 && st.steering == [] && st.followUps == followUps && st.sent == []
            && st.pending == []
  {
    hide AppendInterrupted, AppendedAll, Announce;
  }

  /** Whatever log and memory are, the assumptions hold for these passes. */
  lemma {:induction false} RunIsOk(logged: seq<AgentMessage>, st: LoopState, scripts: seq<TurnScript>, n: nat)
    requires n <= |scripts| && forall s :: s in scripts ==> s in [FAILS, REPLIES]
    ensures RunOk(SETUP, logged, st, scripts, n)
  {
    hide TurnOk, RunUpTo, KnownIds;
    if n > 0 {
      RunIsOk(logged, st, scripts, n - 1);
      assert scripts[n - 1] in scripts;
      TurnIsOk(KnownIds(Transcript(logged, RunUpTo(SETUP, st, scripts, n - 1))), scripts[n - 1]);
    }
  }

  /** The first run fails with QUEUED still on the queue. */
  lemma FirstRun()
    ensures var first := RunOne(NEW, RUNS[0]);
            && first.steering == [] && first.followUps == [QUEUED]
            && |first.traces| == 1 && first.traces[0].outcome == Some(Failed) && |first.traces[0].sent| == 1
  {
    hide Opening, TurnStep, Persisted, AppendedAll, MessagesOf;
    assert NEW.steering + [] == [] && NEW.followUps + [] == [];
    Opens([], []);
    var st := Opening(SETUP, [], [], [], [PROMPT]);
    assert RunUpTo(SETUP, st, [FAILS], 0) == st && RunUpTo(SETUP, st, [FAILS], 1) == TurnStep(SETUP, st, FAILS);
    FailingPass(st);
    assert [] + [QUEUED] == [QUEUED];
  }

  /** The second asks the provider once, and once more if QUEUED is still there. */
  lemma SecondRun(memory: seq<AgentMessage>, followUps: seq<AgentMessage>)
    requires |followUps| <= 1
    ensures var st := RunHarness(SETUP, memory, [], followUps, [PROMPT], [REPLIES, REPLIES], false).state;
            st.outcome == Some(Completed) && |st.sent| == 1 + |followUps|
  {
    hide Opening, TurnStep, AppendedAll;
    Opens(memory, followUps);
    var st, scripts := Opening(SETUP, memory, [], followUps, [PROMPT]), [REPLIES, REPLIES];
    var u := TurnStep(SETUP, st, REPLIES);
    assert RunUpTo(SETUP, st, scripts, 0) == st && RunUpTo(SETUP, st, scripts, 1) == u;
    ReplyingPass(st);
    if followUps != [] { ReplyingPass(u); }
    assert RunUpTo(SETUP, st, scripts, 2) == if u.outcome.Some? then u else TurnStep(SETUP, u, REPLIES);
  }

  lemma TheRunsAreOk(life: Life, i: nat)
    requires i < 2 && AllPlain(life.steering) && AllPlain(life.followUps)
    ensures InputOk(life, RUNS[i])
  {
    hide Opening, RunOk;
    var input := RUNS[i];
    assert CallsOf(PROMPT) == [] && CallsOf(QUEUED) == [];
    RunIsOk(MessagesOf(life.log),
            Opening(SETUP, life.memory, life.steering + input.steered, life.followUps + input.followed, input.prompts),
            input.scripts, |input.scripts|);
  }

  lemma LivedTwice(restarts: bool)
    ensures Lived(NEW, RUNS, restarts) ==
            var first := RunOne(NEW, RUNS[0]); RunOne(if restarts then FromLog(first) else first, RUNS[1])
    ensures Lived(NEW, RUNS[..1], restarts) == RunOne(NEW, RUNS[0])
  {
    hide RunOne, FromLog;
    assert RUNS[..1][..0] == [];
    assert Lived(NEW, RUNS[..1], restarts) == RunOne(NEW, RUNS[..1][0]);
  }

  lemma BothOk()
    ensures LifeOk(NEW, RUNS) && !QueuesEmptyAtRestarts(NEW, RUNS)
  {
    hide RunOne, InputOk, FromLog;
    FirstRun();
    LivedTwice(false);
    TheRunsAreOk(NEW, 0);
    assert CallsOf(QUEUED) == [];
    TheRunsAreOk(RunOne(NEW, RUNS[0]), 1);
    assert RUNS[..1][..0] == [] && RUNS[..1][0] == RUNS[0];
    assert LifeOk(NEW, []) && LifeOk(NEW, RUNS[..1]);
  }

  lemma SecondOf(life: Life)
    requires life.steering == [] && |life.followUps| <= 1 && |life.traces| == 1
    ensures var after := RunOne(life, RUNS[1]);
            |after.traces| == 2 && |after.traces[1].sent| == 1 + |life.followUps|
              && after.traces[1].outcome == Some(Completed)
  {
    hide RunHarness, Persisted;
    SecondRun(life.memory, life.followUps);
    assert life.steering + [] == [] && life.followUps + [] == life.followUps;
  }

  /** A follow-up left by a run that failed is put to the provider by the kept harness in
      its next run, and never by a rebuilt one, though all other assumptions hold. */
  lemma LostFollowUp()
    ensures LifeOk(NEW, RUNS) && !QueuesEmptyAtRestarts(NEW, RUNS)
    ensures var kept, restarted := Lived(NEW, RUNS, false), Lived(NEW, RUNS, true);
            && |kept.traces| == 2 && |kept.traces[1].sent| == 2 && kept.traces[1].outcome == Some(Completed)
            && |restarted.traces| == 2 && |restarted.traces[1].sent| == 1
            && restarted.traces[1].outcome == Some(Completed)
  {
    hide RunOne, InputOk, LifeOk, QueuesEmptyAtRestarts, Lived;
    FirstRun();
    BothOk();
    LivedTwice(false);
    LivedTwice(true);
    var first := RunOne(NEW, RUNS[0]);
    SecondOf(first);
    SecondOf(FromLog(first));
  }
}
