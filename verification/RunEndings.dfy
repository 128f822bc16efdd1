/** How a run ends and why: it completes only when the model is done and both queues are
    empty, it waits only on requests, and what goes wrong is in its last message. */
module RunEndings {
  import opened Messages
  import opened StreamEvents
  import opened Events
  import opened ToolHistory
  import opened Decisions
  import opened ToolPhase
  import opened AgentLoop
  import opened Passes
  import opened StreamReasons

  /** What a drain takes from a queue: all of it, or its first message. */
  function Drained(mode: QueueMode, queue: seq<AgentMessage>): seq<AgentMessage> {
    match mode
    case All => queue
    case OneAtATime => if queue == [] then [] else [queue[0]]
  }

  lemma TakenIs(mode: QueueMode, queue: seq<AgentMessage>)
    ensures queue[..Taken(mode, queue)] == Drained(mode, queue)
    ensures Taken(mode, queue) == 0 <==> queue == []
  {
  }

  predicate OverLimit(cfg: LoopConfig, st: LoopState) { cfg.maxTurns.Some? && st.turn > cfg.maxTurns.value }

  /** The provider is asked, and its message neither failed nor was aborted. */
  predicate Answered(cfg: LoopConfig, st: LoopState, s: TurnScript) {
    var m := AssistantOf(s);
    !s.cancelled && !OverLimit(cfg, st) && m.stopReason != Error && m.stopReason != Aborted
  }

  /** Which outcome a pass has, if it ends the run. */
  ghost predicate EndsFor(cfg: LoopConfig, st: LoopState, s: TurnScript, outcome: Option<RunOutcome>) {
    var m, tools := AssistantOf(s), CallsOf(AssistantOf(s)) != [];
    match outcome
    case Some(AbortedRun) =>
      || s.cancelled || (!OverLimit(cfg, st) && m.stopReason == Aborted)
      || (Answered(cfg, st, s) && tools && s.cancelledAfterTools)
    case Some(Failed) => !s.cancelled && (OverLimit(cfg, st) || m.stopReason == Error)
    case Some(WaitingInput) => Answered(cfg, st, s) && tools && !s.cancelledAfterTools && TurnPhase(cfg, s).parked != []
    case Some(Completed) =>
      Answered(cfg, st, s) && !tools && st.steering + s.steered == [] && st.followUps + s.followed == []
    case None =>
      && Answered(cfg, st, s)
      && if tools then !s.cancelledAfterTools && TurnPhase(cfg, s).parked == []
         else st.steering + s.steered != [] || st.followUps + s.followed != []
  }

  /** What a pass that does not end the run takes next: steering first, follow-ups only
      when there is no steering and no tool result to go on with. */
  ghost predicate TakesNext(cfg: LoopConfig, st: LoopState, s: TurnScript, t: LoopState) {
    var steering, followUps := st.steering + s.steered, st.followUps + s.followed;
    t.pending == if steering != [] then Drained(cfg.queueMode, steering)
                 else if CallsOf(AssistantOf(s)) != [] then []
                 else Drained(cfg.queueMode, followUps)
  }

  lemma AdvanceEnds(cfg: LoopConfig, st: LoopState, m: AgentMessage, results: seq<AgentMessage>, more: bool)
    requires st.outcome.None? && st.pending == []
    ensures var t := Advance(cfg, st, m, results, more);
            && t.outcome == (if more || st.steering != [] || st.followUps != [] then None else Some(Completed))
            && (t.outcome.None? ==>
                  t.pending == if st.steering != [] then Drained(cfg.queueMode, st.steering)
                               else if more then []
                               else Drained(cfg.queueMode, st.followUps))
  {
    TakenIs(cfg.queueMode, st.steering);
    TakenIs(cfg.queueMode, st.followUps);
  }

  lemma RespondEnds(cfg: LoopConfig, st: LoopState, s: TurnScript)
    requires st.outcome.None? && st.pending == []
    ensures var t, m, tools := Respond(cfg, st, s), AssistantOf(s), CallsOf(AssistantOf(s)) != [];
            && t.outcome ==
               (if m.stopReason == Error then Some(Failed)
                else if m.stopReason == Aborted || (tools && s.cancelledAfterTools) then Some(AbortedRun)
                else if tools && TurnPhase(cfg, s).parked != [] then Some(WaitingInput)
                else if tools || st.steering != [] || st.followUps != [] then None
                else Some(Completed))
            && (t.outcome.None? ==>
                  t.pending == if st.steering != [] then Drained(cfg.queueMode, st.steering)
                               else if tools then []
                               else Drained(cfg.queueMode, st.followUps))
  {
    hide CallsOf, AssistantOf, TurnPhase, TriageOf, Advance, Drained;
    AdvanceEnds(cfg, st, AssistantOf(s), [], false);
    AdvanceEnds(cfg, UseTools(cfg, st, s), AssistantOf(s), TurnPhase(cfg, s).results, true);
  }

  /** A pass ends the run for the reason it should, and otherwise goes on with what it should. */
  lemma PassOutcome(cfg: LoopConfig, st: LoopState, s: TurnScript)
    requires st.outcome.None?
    ensures var t := TurnStep(cfg, st, s);
            && (forall o :: EndsFor(cfg, st, s, o) <==> t.outcome == o)
            && (t.outcome.None? ==> TakesNext(cfg, st, s, t) && t.turn == st.turn + 1)
  {
    hide CallsOf, AssistantOf, AssistantEvents, Announce, TooManyTurns, TurnPhase, Respond, Drained;
    var d := Deliver(st, s);
    RespondEnds(cfg, Ask(d, s), s);
    CountsTurn(cfg, Ask(d, s), s);
  }

  lemma CountsTurn(cfg: LoopConfig, st: LoopState, s: TurnScript)
    requires st.outcome.None?
    ensures Respond(cfg, st, s).outcome.None? ==> Respond(cfg, st, s).turn == st.turn + 1
  {
    hide CallsOf, AssistantOf, TurnPhase, TriageOf;
  }

  /** The message a provider's stream stands for: its last, or a stopped one for none. */
  lemma MessageOf(s: TurnScript)
    ensures var ends := EndsOf(s.stream);
            if ends != [] then
              var e := ends[|ends| - 1];
              IsTerminal(e) && AssistantOf(s) == (if e.StreamDone? then e.message else e.error)
            else
              AssistantOf(s) == AssistantMessage([], if s.cancelledInStream then Aborted else Error,
                                                 Some(if s.cancelledInStream then "Operation aborted"
                                                      else "Provider produced no assistant message"))
  {
    hide EndsOf;
    LastOfEnds(s.stream);
  }

  // ------------------------------------------------------------- whole runs

  /** What an ended run's last message says of its outcome. */
  ghost predicate EndTold(cfg: LoopConfig, u: LoopState) {
    match u.outcome
    case Some(Completed) =>
      && u.steering == [] && u.followUps == [] && u.pending == []
      && u.messages != []
      && var m := u.messages[|u.messages| - 1];
         m.AssistantMessage? && CallsOf(m) == [] && m.stopReason != Error && m.stopReason != Aborted
    case Some(Failed) =>
      u.messages != [] && u.messages[|u.messages| - 1].AssistantMessage?
        && u.messages[|u.messages| - 1].stopReason == Error
    case _ => true
  }

  lemma PassTold(cfg: LoopConfig, st: LoopState, s: TurnScript)
    requires st.outcome.None?
    ensures EndTold(cfg, TurnStep(cfg, st, s))
  {
    hide CallsOf, AssistantOf, TooManyTurns, TurnPhase, TurnStep, PassAdds;
    PassOutcome(cfg, st, s);
    PassTail(cfg, st, s);
    var outcome := TurnStep(cfg, st, s).outcome;
    assert EndsFor(cfg, st, s, outcome);
    if outcome == Some(Completed) { PassEmpties(cfg, st, s); }
  }

  lemma PassTail(cfg: LoopConfig, st: LoopState, s: TurnScript)
    ensures var t := TurnStep(cfg, st, s);
            && t.messages == st.messages + PassAdds(cfg, st, s)
            && (!s.cancelled && OverLimit(cfg, st) ==>
                  t.messages != [] && t.messages[|t.messages| - 1] == Stopped(Error, TooManyTurns(cfg.maxTurns.value)))
            && (!s.cancelled && !OverLimit(cfg, st) && RespondAdds(cfg, s) == [] ==>
                  t.messages != [] && t.messages[|t.messages| - 1] == AssistantOf(s))
  {
    hide CallsOf, AssistantOf, TooManyTurns, RespondAdds, TurnStep;
    PassSame(cfg, st, st.messages, s);
  }

  lemma PassEmpties(cfg: LoopConfig, st: LoopState, s: TurnScript)
    requires st.outcome.None? && TurnStep(cfg, st, s).outcome == Some(Completed)
    ensures var t := TurnStep(cfg, st, s); t.steering == [] && t.followUps == [] && t.pending == []
  {
    hide CallsOf, AssistantOf, AssistantEvents, Announce, TooManyTurns, TurnPhase, TriageOf;
  }

  /** From any point where it holds: completed, both queues are empty and the last message is the model's
      last word; failed, the last message is the error. */
  lemma {:induction false} RunTold(cfg: LoopConfig, st: LoopState, scripts: seq<TurnScript>, n: nat)
    requires n <= |scripts| && EndTold(cfg, st)
    ensures EndTold(cfg, RunUpTo(cfg, st, scripts, n))
  {
    hide TurnStep, EndTold;
    if n > 0 {
      RunTold(cfg, st, scripts, n - 1);
      var u := RunUpTo(cfg, st, scripts, n - 1);
      if u.outcome.None? { PassTold(cfg, u, scripts[n - 1]); }
    }
  }

  lemma BeginTold(cfg: LoopConfig, messages: seq<AgentMessage>, prelude: seq<AgentMessage>, prompts: seq<AgentMessage>,
                  steering: seq<AgentMessage>, followUps: seq<AgentMessage>)
    ensures EndTold(cfg, Begin(cfg, messages, prelude, prompts, steering, followUps))
  {
    hide Announce;
  }

  /** So for every run of the loop. */
  lemma RunEndsTold(cfg: LoopConfig, messages: seq<AgentMessage>, prelude: seq<AgentMessage>,
                    prompts: seq<AgentMessage>, steering: seq<AgentMessage>, followUps: seq<AgentMessage>,
                    scripts: seq<TurnScript>)
    ensures EndTold(cfg, RunUpTo(cfg, Begin(cfg, messages, prelude, prompts, steering, followUps), scripts, |scripts|))
  {
    hide EndTold, Begin, RunUpTo;
    BeginTold(cfg, messages, prelude, prompts, steering, followUps);
    RunTold(cfg, Begin(cfg, messages, prelude, prompts, steering, followUps), scripts, |scripts|);
  }
}
