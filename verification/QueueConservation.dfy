/** Queue conservation over whole runs: queued messages are neither lost, doubled nor
    reordered on their way into history and the event stream. */
module QueueConservation {
  import opened Messages
  import opened Events
  import opened ToolHistory
  import opened ToolPhase
  import opened AgentLoop
  import opened RunInvariants
  import opened Passes

  // ---------------------------------------------------- what a pass takes

  /** What left the front of a queue that held `before` and now holds `after`. */
  function Front(before: seq<AgentMessage>, after: seq<AgentMessage>): seq<AgentMessage> {
    if |after| <= |before| then before[..|before| - |after|] else []
  }

  ghost predicate Splits(before: seq<AgentMessage>, taken: seq<AgentMessage>, after: seq<AgentMessage>) {
    taken + after == before && taken == Front(before, after)
  }

  /** One pass takes from the fronts of the queues exactly what it leaves pending, from
      one queue only. */
  lemma PassConserves(cfg: LoopConfig, st: LoopState, s: TurnScript)
    requires st.outcome.None?
    ensures var t := TurnStep(cfg, st, s);
            var steered, followed := Front(st.steering + s.steered, t.steering),
              Front(st.followUps + s.followed, t.followUps);
            && Splits(st.steering + s.steered, steered, t.steering)
            && Splits(st.followUps + s.followed, followed, t.followUps)
            && t.pending == steered + followed && (steered == [] || followed == [])
            && (t.outcome.Some? ==> t.pending == [])
  {
    hide AssistantEvents, Announce, TooManyTurns, Respond, AssistantOf;
    var d := Deliver(st, s);
    QueuesUntouched(d.steering);
    QueuesUntouched(d.followUps);
    if !s.cancelled && !(cfg.maxTurns.Some? && d.turn > cfg.maxTurns.value) { RespondConserves(cfg, Ask(d, s), s); }
  }

  ghost predicate Conserves(st: LoopState, t: LoopState) {
    var steered, followed := Front(st.steering, t.steering), Front(st.followUps, t.followUps);
    && Splits(st.steering, steered, t.steering) && Splits(st.followUps, followed, t.followUps)
    && t.pending == steered + followed && (steered == [] || followed == [])
    && (t.outcome.Some? ==> t.pending == [])
  }

  lemma RespondConserves(cfg: LoopConfig, st: LoopState, s: TurnScript)
    requires st.outcome.None? && st.pending == []
    ensures Conserves(st, Respond(cfg, st, s))
  {
    hide CallsOf, AssistantOf, TurnPhase, TriageOf, Advance, UseTools, Front;
    QueuesUntouched(st.steering);
    QueuesUntouched(st.followUps);
    UseToolsKeepsQueues(cfg, st, s);
    AdvanceConserves(cfg, st, AssistantOf(s), [], false);
    AdvanceConserves(cfg, UseTools(cfg, st, s), AssistantOf(s), TurnPhase(cfg, s).results, true);
  }

  lemma QueuesUntouched(q: seq<AgentMessage>)
    ensures Splits(q, [], q) && Front(q, q) == []
  {
  }

  lemma UseToolsKeepsQueues(cfg: LoopConfig, st: LoopState, s: TurnScript)
    ensures var u := UseTools(cfg, st, s);
            && u.steering == st.steering && u.followUps == st.followUps && u.pending == st.pending
            && u.outcome == st.outcome
  {
  }

  lemma AdvanceConserves(cfg: LoopConfig, st: LoopState, m: AgentMessage, results: seq<AgentMessage>, more: bool)
    requires st.outcome.None? && st.pending == []
    ensures Conserves(st, Advance(cfg, st, m, results, more))
  {
    hide Taken;
    var k, l := Taken(cfg.queueMode, st.steering), Taken(cfg.queueMode, st.followUps);
    assert st.steering[..k] + st.steering[k..] == st.steering;
    assert st.followUps[..l] + st.followUps[l..] == st.followUps;
    QueuesUntouched(st.followUps);
  }

  /** Everything ever on a queue in the first n passes: what it held and what was pushed. */
  function PushedSteering(cfg: LoopConfig, st: LoopState, scripts: seq<TurnScript>, n: nat): seq<AgentMessage>
    requires n <= |scripts|
  {
    if n == 0 then st.steering
    else if RunUpTo(cfg, st, scripts, n - 1).outcome.Some? then PushedSteering(cfg, st, scripts, n - 1)
    else PushedSteering(cfg, st, scripts, n - 1) + scripts[n - 1].steered
  }

  function PushedFollowUps(cfg: LoopConfig, st: LoopState, scripts: seq<TurnScript>, n: nat): seq<AgentMessage>
    requires n <= |scripts|
  {
    if n == 0 then st.followUps
    else if RunUpTo(cfg, st, scripts, n - 1).outcome.Some? then PushedFollowUps(cfg, st, scripts, n - 1)
    else PushedFollowUps(cfg, st, scripts, n - 1) + scripts[n - 1].followed
  }

  /** What the passes delivered into history, in order: each pass what was pending. */
  function Delivered(cfg: LoopConfig, st: LoopState, scripts: seq<TurnScript>, n: nat): seq<AgentMessage>
    requires n <= |scripts|
  {
    if n == 0 then []
    else
      var u := RunUpTo(cfg, st, scripts, n - 1);
      if u.outcome.Some? then Delivered(cfg, st, scripts, n - 1) else Delivered(cfg, st, scripts, n - 1) + u.pending
  }

  /** The messages taken from each queue, and all of them in the order they were taken. */
  datatype Takings = Takings(steered: seq<AgentMessage>, followed: seq<AgentMessage>, all: seq<AgentMessage>)

  function TakenBy(cfg: LoopConfig, st: LoopState, scripts: seq<TurnScript>, n: nat): Takings
    requires n <= |scripts|
  {
    if n == 0 then Takings([], [], [])
    else
      var before := TakenBy(cfg, st, scripts, n - 1);
      var u, t := RunUpTo(cfg, st, scripts, n - 1), RunUpTo(cfg, st, scripts, n);
      if u.outcome.Some? then before
      else
        var s, f := Front(u.steering + scripts[n - 1].steered, t.steering),
          Front(u.followUps + scripts[n - 1].followed, t.followUps);
        Takings(before.steered + s, before.followed + f, before.all + s + f)
  }

  // ------------------------------------------------------------ whole runs

  /** What was taken from the steering queue, and what is left, is what was on it. */
  lemma {:induction false} SteeringKept(cfg: LoopConfig, st: LoopState, scripts: seq<TurnScript>, n: nat)
    requires n <= |scripts|
    ensures TakenBy(cfg, st, scripts, n).steered + RunUpTo(cfg, st, scripts, n).steering
            == PushedSteering(cfg, st, scripts, n)
  {
    hide TurnStep, Front;
    if n > 0 {
      SteeringKept(cfg, st, scripts, n - 1);
      var u, t, s := RunUpTo(cfg, st, scripts, n - 1), RunUpTo(cfg, st, scripts, n), scripts[n - 1];
      if u.outcome.None? {
        PassConserves(cfg, u, s);
        MoveOn(TakenBy(cfg, st, scripts, n - 1).steered, u.steering, s.steered,
               Front(u.steering + s.steered, t.steering), t.steering);
      }
    }
  }

  lemma {:induction false} FollowUpsKept(cfg: LoopConfig, st: LoopState, scripts: seq<TurnScript>, n: nat)
    requires n <= |scripts|
    ensures TakenBy(cfg, st, scripts, n).followed + RunUpTo(cfg, st, scripts, n).followUps
            == PushedFollowUps(cfg, st, scripts, n)
  {
    hide TurnStep, Front;
    if n > 0 {
      FollowUpsKept(cfg, st, scripts, n - 1);
      var u, t, s := RunUpTo(cfg, st, scripts, n - 1), RunUpTo(cfg, st, scripts, n), scripts[n - 1];
      if u.outcome.None? {
        PassConserves(cfg, u, s);
        MoveOn(TakenBy(cfg, st, scripts, n - 1).followed, u.followUps, s.followed,
               Front(u.followUps + s.followed, t.followUps), t.followUps);
      }
    }
  }

  lemma MoveOn(before: seq<AgentMessage>, queue: seq<AgentMessage>, pushed: seq<AgentMessage>, taken: seq<AgentMessage>,
               left: seq<AgentMessage>)
    requires taken + left == queue + pushed
    ensures (before + taken) + left == (before + queue) + pushed
  {
    calc {
      (before + taken) + left;
      before + (taken + left);
      (before + queue) + pushed;
    }
  }

  /** What was delivered, and what is pending, is what was taken, in the order taken. */
  lemma {:induction false} DeliveredInOrder(cfg: LoopConfig, st: LoopState, scripts: seq<TurnScript>, n: nat)
    requires n <= |scripts| && (st.outcome.Some? ==> st.pending == [])
    ensures Delivered(cfg, st, scripts, n) + RunUpTo(cfg, st, scripts, n).pending
            == st.pending + TakenBy(cfg, st, scripts, n).all
    ensures RunUpTo(cfg, st, scripts, n).outcome.Some? ==> RunUpTo(cfg, st, scripts, n).pending == []
  {
    hide TurnStep, Front;
    if n == 0 {
      assert [] + st.pending == st.pending + [];
    } else {
      DeliveredInOrder(cfg, st, scripts, n - 1);
      var u, t, s := RunUpTo(cfg, st, scripts, n - 1), RunUpTo(cfg, st, scripts, n), scripts[n - 1];
      if u.outcome.None? {
        PassConserves(cfg, u, s);
        var all := TakenBy(cfg, st, scripts, n - 1).all;
        var x, y := Front(u.steering + s.steered, t.steering), Front(u.followUps + s.followed, t.followUps);
        TakeMore(Delivered(cfg, st, scripts, n - 1) + u.pending, st.pending, all, x, y);
      }
    }
  }

  lemma TakeMore(delivered: seq<AgentMessage>, first: seq<AgentMessage>, all: seq<AgentMessage>, x: seq<AgentMessage>,
                 y: seq<AgentMessage>)
    requires delivered == first + all
    ensures delivered + (x + y) == first + (all + x + y)
  {
  }

  /** The inputs history gained are exactly what was delivered: each once, in order. */
  lemma {:induction false} HistoryDelivered(cfg: LoopConfig, st: LoopState, scripts: seq<TurnScript>, n: nat)
    requires n <= |scripts|
    ensures var u, got := RunUpTo(cfg, st, scripts, n), Inputs(Delivered(cfg, st, scripts, n));
            Inputs(u.newMessages) == Inputs(st.newMessages) + got && Inputs(u.messages) == Inputs(st.messages) + got
  {
    hide TurnStep, Inputs, PassAdds, ProviderContext;
    if n == 0 {
      InputsNone(Inputs(st.newMessages));
      InputsNone(Inputs(st.messages));
    } else {
      HistoryDelivered(cfg, st, scripts, n - 1);
      var u := RunUpTo(cfg, st, scripts, n - 1);
      if u.outcome.None? {
        PassSame(cfg, u, u.messages, scripts[n - 1]);
        var own := PassAddsReplies(cfg, u, scripts[n - 1]);
        InputsOf(own);
        var got := Delivered(cfg, st, scripts, n - 1);
        InputsConcat(got, u.pending);
        AddInputs(u.newMessages, u.pending, own, Inputs(st.newMessages), Inputs(got));
        AddInputs(u.messages, u.pending, own, Inputs(st.messages), Inputs(got));
      }
    }
  }

  lemma InputsNone(ms: seq<AgentMessage>)
    ensures ms == ms + Inputs([])
  {
  }

  lemma AddInputs(ms: seq<AgentMessage>, pending: seq<AgentMessage>, own: seq<AgentMessage>, base: seq<AgentMessage>,
                  got: seq<AgentMessage>)
    requires Inputs(ms) == base + got && Inputs(own) == []
    ensures Inputs(ms + (pending + own)) == base + (got + Inputs(pending))
  {
    hide Inputs;
    InputsConcat(ms, pending + own);
    InputsConcat(pending, own);
    assert Inputs(pending) + [] == Inputs(pending);
    assert (base + got) + Inputs(pending) == base + (got + Inputs(pending));
  }

  /** ... and so are the inputs that ended in the event stream. */
  lemma {:induction false} EventsDelivered(cfg: LoopConfig, st: LoopState, scripts: seq<TurnScript>, n: nat)
    requires n <= |scripts| && FeasibleRun(cfg, scripts)
    ensures Inputs(Ended(RunUpTo(cfg, st, scripts, n).events))
            == Inputs(Ended(st.events)) + Inputs(Delivered(cfg, st, scripts, n))
  {
    hide TurnStep, Inputs, FeasibleTurn, Ended;
    if n == 0 {
      InputsNone(Inputs(Ended(st.events)));
    } else {
      EventsDelivered(cfg, st, scripts, n - 1);
      var u := RunUpTo(cfg, st, scripts, n - 1);
      if u.outcome.None? {
        var own := PassEnds(cfg, u, scripts[n - 1]);
        InputsOf(own);
        var got := Delivered(cfg, st, scripts, n - 1);
        InputsConcat(got, u.pending);
        AddInputs(Ended(u.events), u.pending, own, Inputs(Ended(st.events)), Inputs(got));
        assert Ended(u.events) + u.pending + own == Ended(u.events) + (u.pending + own);
      }
    }
  }

  /** Queue conservation, at any point of any run: what was taken from each queue and what
      it still holds is what was ever on it; what was taken has been delivered, or is
      pending, in the order taken; and the inputs that history and the event stream
      gained are what was delivered, once each and in that order.  When the run has
      ended nothing is pending, so everything taken has been delivered. */
  lemma QueuesConserved(cfg: LoopConfig, st: LoopState, scripts: seq<TurnScript>, n: nat)
    requires n <= |scripts| && FeasibleRun(cfg, scripts) && (st.outcome.Some? ==> st.pending == [])
    ensures var u, taken := RunUpTo(cfg, st, scripts, n), TakenBy(cfg, st, scripts, n);
            && taken.steered + u.steering == PushedSteering(cfg, st, scripts, n)
            && taken.followed + u.followUps == PushedFollowUps(cfg, st, scripts, n)
            && Delivered(cfg, st, scripts, n) + u.pending == st.pending + taken.all
            && (u.outcome.Some? ==> u.pending == [])
    ensures var u, got := RunUpTo(cfg, st, scripts, n), Inputs(Delivered(cfg, st, scripts, n));
            && Inputs(u.newMessages) == Inputs(st.newMessages) + got
            && Inputs(u.messages) == Inputs(st.messages) + got
            && Inputs(Ended(u.events)) == Inputs(Ended(st.events)) + got
    ensures AllInputs(Delivered(cfg, st, scripts, n)) ==>
              Inputs(Delivered(cfg, st, scripts, n)) == Delivered(cfg, st, scripts, n)
  {
    hide RunUpTo, TakenBy, PushedSteering, PushedFollowUps, Delivered, Inputs, Ended, FeasibleRun;
    SteeringKept(cfg, st, scripts, n);
    FollowUpsKept(cfg, st, scripts, n);
    DeliveredInOrder(cfg, st, scripts, n);
    HistoryDelivered(cfg, st, scripts, n);
    EventsDelivered(cfg, st, scripts, n);
    InputsOf(Delivered(cfg, st, scripts, n));
  }

  /** Both kinds of takings are interleaved, none lost: by count, all is the sum. */
  lemma {:induction false} AllTaken(cfg: LoopConfig, st: LoopState, scripts: seq<TurnScript>, n: nat)
    requires n <= |scripts|
    ensures var taken := TakenBy(cfg, st, scripts, n);
            multiset(taken.all) == multiset(taken.steered) + multiset(taken.followed)
  {
    hide RunUpTo, Front;
    if n > 0 { AllTaken(cfg, st, scripts, n - 1); }
  }
}
