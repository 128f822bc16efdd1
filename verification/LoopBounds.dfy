/** The turn bound over whole runs: the provider is asked at most `max_turns` times. */
module LoopBounds {
  import opened Messages
  import opened Events
  import opened ToolPhase
  import opened AgentLoop

  // ----------------------------------------------------------- the turn bound

  lemma TurnCounts(cfg: LoopConfig, st: LoopState, s: TurnScript)
    requires st.outcome.None?
    ensures var t := TurnStep(cfg, st, s);
            && |st.sent| <= |t.sent| <= |st.sent| + 1
            && (t.outcome.None? ==> |t.sent| == |st.sent| + 1 && t.turn == st.turn + 1)
            && (cfg.maxTurns.Some? && st.turn > cfg.maxTurns.value ==> t.outcome.Some? && |t.sent| == |st.sent|)
  {
    hide CallsOf, AssistantOf, AssistantEvents, TurnPhase, TriageOf, Announce, TooManyTurns;
  }

  lemma {:induction false} RunCounts(cfg: LoopConfig, st: LoopState, scripts: seq<TurnScript>, n: nat)
    requires n <= |scripts| && cfg.maxTurns.Some? && cfg.maxTurns.value >= 1
    requires st.outcome.None? && st.turn == 1 && st.sent == []
    ensures var u := RunUpTo(cfg, st, scripts, n);
            && |u.sent| <= cfg.maxTurns.value
            && (u.outcome.None? ==> |u.sent| == u.turn - 1 == n)
  {
    hide TurnStep;
    if n > 0 {
      RunCounts(cfg, st, scripts, n - 1);
      var u := RunUpTo(cfg, st, scripts, n - 1);
      if u.outcome.None? { TurnCounts(cfg, u, scripts[n - 1]); }
    }
  }

  /** With a turn limit the provider is asked at most that often, and one pass more ends
      the run, whatever the environment does. */
  lemma TurnBound(cfg: LoopConfig, messages: seq<AgentMessage>, prelude: seq<AgentMessage>, prompts: seq<AgentMessage>,
                  steering: seq<AgentMessage>, followUps: seq<AgentMessage>, scripts: seq<TurnScript>, n: nat)
    requires n <= |scripts| && cfg.maxTurns.Some?
    ensures var u := RunUpTo(cfg, Begin(cfg, messages, prelude, prompts, steering, followUps), scripts, n);
            && |u.sent| <= (if cfg.maxTurns.value < 1 then 0 else cfg.maxTurns.value)
            && (n > cfg.maxTurns.value ==> u.outcome.Some?)
  {
    hide TurnStep;
    var st := Begin(cfg, messages, prelude, prompts, steering, followUps);
    if cfg.maxTurns.value < 1 {
      EndedStays(cfg, st, scripts, 0, n);
    } else {
      RunCounts(cfg, st, scripts, n);
      if n > cfg.maxTurns.value {
        var k := cfg.maxTurns.value;
        RunCounts(cfg, st, scripts, k);
        RunCounts(cfg, st, scripts, k + 1);
        var u := RunUpTo(cfg, st, scripts, k);
        if u.outcome.None? { TurnCounts(cfg, u, scripts[k]); }
        assert RunUpTo(cfg, st, scripts, k + 1).outcome.Some?;
        EndedStays(cfg, st, scripts, k + 1, n);
      }
    }
  }
}
