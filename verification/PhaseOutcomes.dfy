/** What a tool phase leaves behind over all interleavings: each call that was heard
    from has exactly one outcome, a result or a request, and history is the same
    whatever the order of arrival. */
module PhaseOutcomes {
  import opened Messages
  import opened Events
  import opened Tools
  import opened RepairCanonical
  import opened Decisions
  import opened ToolPhase

  /** The one outcome of a call. */
  datatype Answer = Replied(result: AgentMessage) | Awaits(request: PendingInputRequest)

  function RunAnswer(r: Runnable, limit: Option<int>): Answer
    requires r.tool.executor.Some?
  {
    match ExecuteTool(r.tool, r.call, limit)
    case Finished(result, isError) => Replied(ResultMessage(r.call.id, r.call.name, result, isError))
    case ParkedCall(request) => Awaits(request)
  }

  function AnswerOf(cfg: PhaseConfig, call: ToolCall): Answer {
    match FateOf(cfg, call)
    case Settled(result) => Replied(result)
    case Parks(request) => Awaits(request)
    case Runs(tool) => RunAnswer(Runnable(call, tool), cfg.limit)
  }

  /** A tool that parks names its own call. */
  ghost predicate ParksOwnCall(cfg: PhaseConfig, call: ToolCall) {
    AnswerOf(cfg, call).Awaits? ==> AnswerOf(cfg, call).request.toolCallId == call.id
  }

  ghost predicate AllParkOwnCalls(cfg: PhaseConfig, calls: seq<ToolCall>) {
    forall c :: c in calls ==> ParksOwnCall(cfg, c)
  }

  // ------------------------------------------------------- what was queued

  /** The results and the requests on the queue, in order of arrival. */
  function ResultsIn(items: seq<QueueItem>): seq<AgentMessage> {
    if items == [] then []
    else
      var b := items[|items| - 1].body;
      if b.Emitted? && b.event.MessageEnd? && b.event.message.ToolResultMessage?
      then ResultsIn(items[..|items| - 1]) + [b.event.message]
      else ResultsIn(items[..|items| - 1])
  }

  function SignalsIn(items: seq<QueueItem>): seq<PendingInputRequest> {
    if items == [] then []
    else if items[|items| - 1].body.Signal? then SignalsIn(items[..|items| - 1]) + [items[|items| - 1].body.request]
    else SignalsIn(items[..|items| - 1])
  }

  lemma LastItemIsAnswer(t: Task, limit: Option<int>)
    requires t.run.tool.executor.Some?
    ensures var last := ItemsOf(t, limit)[|ItemsOf(t, limit)| - 1];
            match RunAnswer(t.run, limit)
            case Replied(m) => last == Emitted(MessageEnd(m)) && m.ToolResultMessage? && m.toolCallId == t.run.call.id
            case Awaits(q) => last == Signal(q)
  {
    var a, b, c := [Emitted(ToolExecutionStart(t.run.call))], Chatter(t.chatter), Report(t.run, limit);
    assert ItemsOf(t, limit) == a + b + c;
    assert ItemsOf(t, limit)[|ItemsOf(t, limit)| - 1] == c[|c| - 1];
  }

  ghost predicate DistinctTasks(tasks: seq<Task>) {
    forall i, j :: 0 <= i < j < |tasks| ==> tasks[i].run.call.id != tasks[j].run.call.id
  }

  ghost predicate ReportedResult(tasks: seq<Task>, limit: Option<int>, heard: set<nat>, i: nat, m: AgentMessage)
    requires Launchable(tasks)
  {
    i in heard && i < |tasks| && RunAnswer(tasks[i].run, limit) == Replied(m)
  }

  ghost predicate ReportedSignal(tasks: seq<Task>, limit: Option<int>, heard: set<nat>, i: nat, q: PendingInputRequest)
    requires Launchable(tasks)
  {
    i in heard && i < |tasks| && RunAnswer(tasks[i].run, limit) == Awaits(q)
  }

  ghost predicate OwnSignals(tasks: seq<Task>, limit: Option<int>)
    requires Launchable(tasks)
  {
    forall i :: 0 <= i < |tasks| && RunAnswer(tasks[i].run, limit).Awaits? ==>
      RunAnswer(tasks[i].run, limit).request.toolCallId == tasks[i].run.call.id
  }

  ghost predicate DistinctResultIds(rs: seq<AgentMessage>) {
    && (forall r :: r in rs ==> r.ToolResultMessage?)
    && (forall i, j :: 0 <= i < j < |rs| ==> rs[i].toolCallId != rs[j].toolCallId)
  }

  ghost predicate DistinctCalls(qs: seq<PendingInputRequest>) {
    forall i, j :: 0 <= i < j < |qs| ==> qs[i].toolCallId != qs[j].toolCallId
  }

  /** One counting item is one task's answer, and no task answers twice. */
  lemma {:induction false} QueueAnswers(items: seq<QueueItem>, tasks: seq<Task>, limit: Option<int>)
    requires Launchable(tasks) && Merge(items, tasks, limit) && DistinctTasks(tasks) && OwnSignals(tasks, limit)
    ensures forall m :: m in ResultsIn(items) <==> exists i: nat ::
              ReportedResult(tasks, limit, Reported(items, tasks, limit), i, m)
    ensures forall q :: q in SignalsIn(items) <==> exists i: nat ::
              ReportedSignal(tasks, limit, Reported(items, tasks, limit), i, q)
    ensures DistinctResultIds(ResultsIn(items)) && DistinctCalls(SignalsIn(items))
  {
    hide ItemsOf, Merge, Counts, RunAnswer;
    var heard := Reported(items, tasks, limit);
    if items == [] {
      NonEmptyItems(tasks, limit);
      assert heard == {};
    } else {
      var init, last := items[..|items| - 1], items[|items| - 1];
      MergePrefix(items, tasks, limit);
      QueueAnswers(init, tasks, limit);
      CountingReports(items, tasks, limit);
      var before := Reported(init, tasks, limit);
      if Counts(last.body) {
        var i := last.source.value;
        assert Merge(items, tasks, limit);
        EndItem(items, tasks, limit);
        LastItemIsAnswer(tasks[i], limit);
        NewAnswer(tasks, limit, before, i, last.body, ResultsIn(init), SignalsIn(init));
        assert heard == before + {i};
        assert ResultsIn(items) == ResultsIn(init) + MoreResults(last.body);
        assert SignalsIn(items) == SignalsIn(init) + MoreSignals(last.body);
      } else {
        NotCounting(last.body);
        assert heard == before;
      }
    }
  }

  lemma NotCounting(b: ItemBody)
    ensures Counts(b) <==> b.Signal? || (b.event.MessageEnd? && b.event.message.ToolResultMessage?)
  {
  }

  function MoreResults(b: ItemBody): seq<AgentMessage> {
    if b.Emitted? && b.event.MessageEnd? && b.event.message.ToolResultMessage? then [b.event.message] else []
  }

  function MoreSignals(b: ItemBody): seq<PendingInputRequest> {
    if b.Signal? then [b.request] else []
  }

  lemma EndItem(items: seq<QueueItem>, tasks: seq<Task>, limit: Option<int>)
    requires items != [] && Launchable(tasks) && Merge(items, tasks, limit) && Counts(items[|items| - 1].body)
    ensures var last := items[|items| - 1];
            && last.source.Some? && last.source.value < |tasks|
            && last.body == ItemsOf(tasks[last.source.value], limit)[|ItemsOf(tasks[last.source.value], limit)| - 1]
  {
    hide ItemsOf, Counts, Merge;
    CountingReports(items, tasks, limit);
    var last := items[|items| - 1];
    OnlyLastCounts(tasks[last.source.value], limit, |FromSource(items[..|items| - 1], last.source.value)|);
  }

  /** A task's answer, added to the answers of other tasks. */
  lemma NewAnswer(tasks: seq<Task>, limit: Option<int>, heard: set<nat>, i: nat, b: ItemBody, rs: seq<AgentMessage>,
                  qs: seq<PendingInputRequest>)
    requires Launchable(tasks) && DistinctTasks(tasks) && OwnSignals(tasks, limit) && i < |tasks| && i !in heard
    requires match RunAnswer(tasks[i].run, limit)
             case Replied(m) => b == Emitted(MessageEnd(m)) && m.ToolResultMessage?
               && m.toolCallId == tasks[i].run.call.id
             case Awaits(q) => b == Signal(q)
    requires forall m :: m in rs <==> exists j: nat :: ReportedResult(tasks, limit, heard, j, m)
    requires forall q :: q in qs <==> exists j: nat :: ReportedSignal(tasks, limit, heard, j, q)
    requires DistinctResultIds(rs) && DistinctCalls(qs)
    ensures forall m :: m in rs + MoreResults(b) <==> exists j: nat :: ReportedResult(tasks, limit, heard + {i}, j, m)
    ensures forall q :: q in qs + MoreSignals(b) <==> exists j: nat :: ReportedSignal(tasks, limit, heard + {i}, j, q)
    ensures DistinctResultIds(rs + MoreResults(b)) && DistinctCalls(qs + MoreSignals(b))
  {
    hide RunAnswer;
    var rs', qs' := rs + MoreResults(b), qs + MoreSignals(b);
    forall m ensures m in rs' <==> exists j: nat :: ReportedResult(tasks, limit, heard + {i}, j, m) {
      if m in rs {
        var j: nat :| ReportedResult(tasks, limit, heard, j, m);
        assert ReportedResult(tasks, limit, heard + {i}, j, m);
      } else if m in rs' {
        assert ReportedResult(tasks, limit, heard + {i}, i, m);
      }
      if j: nat :| ReportedResult(tasks, limit, heard + {i}, j, m) {
        if j != i { assert ReportedResult(tasks, limit, heard, j, m); }
      }
    }
    forall q ensures q in qs' <==> exists j: nat :: ReportedSignal(tasks, limit, heard + {i}, j, q) {
      if q in qs {
        var j: nat :| ReportedSignal(tasks, limit, heard, j, q);
        assert ReportedSignal(tasks, limit, heard + {i}, j, q);
      } else if q in qs' {
        assert ReportedSignal(tasks, limit, heard + {i}, i, q);
      }
      if j: nat :| ReportedSignal(tasks, limit, heard + {i}, j, q) {
        if j != i { assert ReportedSignal(tasks, limit, heard, j, q); }
      }
    }
    forall m | m in rs ensures m.ToolResultMessage? && m.toolCallId != tasks[i].run.call.id {
      var j: nat :| ReportedResult(tasks, limit, heard, j, m);
      ResultNamesCall(tasks[j].run, limit);
    }
    forall q | q in qs ensures q.toolCallId != tasks[i].run.call.id {
      var j: nat :| ReportedSignal(tasks, limit, heard, j, q);
    }
  }

  lemma ResultNamesCall(r: Runnable, limit: Option<int>)
    requires r.tool.executor.Some?
    ensures RunAnswer(r, limit).Replied? ==>
              var m := RunAnswer(r, limit).result;
              m.ToolResultMessage? && m.toolCallId == r.call.id && m.toolName == r.call.name
  {
  }

  // -------------------------------------------------- what the drain recorded

  lemma {:induction false} DrainedIs(o: Outcomes, items: seq<QueueItem>)
    requires DistinctResultIds(ResultsIn(items))
    ensures Drained(o, items).parked == o.parked + SignalsIn(items)
    ensures forall m :: m in ResultsIn(items) ==>
              m.toolCallId in Drained(o, items).results && Drained(o, items).results[m.toolCallId] == m
    ensures forall id :: (forall m :: m in ResultsIn(items) ==> m.toolCallId != id) ==>
              (id in Drained(o, items).results <==> id in o.results)
              && (id in o.results ==> Drained(o, items).results[id] == o.results[id])
  {
    if items != [] {
      var init, b := items[..|items| - 1], items[|items| - 1].body;
      assert ResultsIn(items) == ResultsIn(init) + MoreResults(b);
      assert DistinctResultIds(ResultsIn(init)) by { DistinctInit(ResultsIn(init), MoreResults(b)); }
      DrainedIs(o, init);
      assert forall m :: m in ResultsIn(items) <==> m in ResultsIn(init) || m in MoreResults(b);
      forall m | m in ResultsIn(init) && MoreResults(b) != [] ensures m.toolCallId != MoreResults(b)[0].toolCallId {
        var k :| 0 <= k < |ResultsIn(init)| && ResultsIn(init)[k] == m;
        assert ResultsIn(items)[k] == m && ResultsIn(items)[|ResultsIn(init)|] == MoreResults(b)[0];
      }
    }
  }

  lemma DistinctInit(a: seq<AgentMessage>, b: seq<AgentMessage>)
    requires DistinctResultIds(a + b)
    ensures DistinctResultIds(a)
  {
    assert forall i :: 0 <= i < |a| ==> a[i] == (a + b)[i] && a[i] in a + b;
  }

  // ------------------------------------------------------------ the triage

  /** What triage has settled, parked and set aside, call by call. */
  ghost predicate Triaged(cfg: PhaseConfig, calls: seq<ToolCall>, t: Triage) {
    TriagedResults(cfg, calls, t) && TriagedParked(cfg, calls, t) && TriagedRunnable(cfg, calls, t)
  }

  ghost predicate TriagedResults(cfg: PhaseConfig, calls: seq<ToolCall>, t: Triage) {
    && (forall id :: id in t.results <==> exists c :: c in calls && c.id == id && FateOf(cfg, c).Settled?)
    && (forall c :: c in calls && FateOf(cfg, c).Settled? ==>
          c.id in t.results && t.results[c.id] == FateOf(cfg, c).result)
  }

  ghost predicate TriagedParked(cfg: PhaseConfig, calls: seq<ToolCall>, t: Triage) {
    && (forall q :: q in t.parked <==> exists c :: c in calls && FateOf(cfg, c) == Parks(q))
    && DistinctCalls(t.parked)
  }

  ghost predicate TriagedRunnable(cfg: PhaseConfig, calls: seq<ToolCall>, t: Triage) {
    && (forall r :: r in t.runnable <==> r.call in calls && FateOf(cfg, r.call) == Runs(r.tool))
    && (forall i, j :: 0 <= i < j < |t.runnable| ==> t.runnable[i].call.id != t.runnable[j].call.id)
  }

  lemma ParkNamesCall(cfg: PhaseConfig, call: ToolCall)
    ensures FateOf(cfg, call).Parks? ==>
              FateOf(cfg, call).request.toolCallId == call.id && FateOf(cfg, call).request.toolName == call.name
    ensures FateOf(cfg, call).Settled? ==>
              var m := FateOf(cfg, call).result;
              m.ToolResultMessage? && m.toolCallId == call.id && m.toolName == call.name
    ensures FateOf(cfg, call).Runs? ==> FateOf(cfg, call).tool.executor.Some?
  {
  }

  lemma {:induction false} TriageIs(cfg: PhaseConfig, calls: seq<ToolCall>)
    requires DistinctIds(calls)
    ensures Triaged(cfg, calls, TriageOf(cfg, calls))
  {
    hide FateOf;
    if calls != [] {
      var init, last := calls[..|calls| - 1], calls[|calls| - 1];
      TriageIs(cfg, init);
      TriageStep(cfg, init, last, TriageOf(cfg, init));
      assert calls == init + [last];
    }
  }

  /** A call behind others with other ids. */
  ghost predicate NextCall(init: seq<ToolCall>, last: ToolCall, calls: seq<ToolCall>) {
    && calls == init + [last]
    && (forall c :: c in init ==> c.id != last.id && c in calls)
    && last in calls && (forall c :: c in calls ==> c in init || c == last)
  }

  lemma DistinctNext(init: seq<ToolCall>, last: ToolCall)
    requires DistinctIds(init + [last])
    ensures NextCall(init, last, init + [last])
  {
    var calls := init + [last];
    forall c | c in init ensures c.id != last.id && c in calls {
      var k :| 0 <= k < |init| && init[k] == c;
      assert calls[k] == c && calls[|init|] == last;
    }
  }

  lemma TriageStep(cfg: PhaseConfig, init: seq<ToolCall>, last: ToolCall, t: Triage)
    requires Triaged(cfg, init, t) && DistinctIds(init + [last])
    ensures Triaged(cfg, init + [last], Decided(cfg, t, last))
  {
    hide Decided, TriagedResults, TriagedParked, TriagedRunnable;
    DistinctNext(init, last);
    StepResults(cfg, init, last, init + [last], t);
    StepParked(cfg, init, last, init + [last], t);
    StepRunnable(cfg, init, last, init + [last], t);
  }

  lemma StepResults(cfg: PhaseConfig, init: seq<ToolCall>, last: ToolCall, calls: seq<ToolCall>, t: Triage)
    requires TriagedResults(cfg, init, t) && NextCall(init, last, calls)
    ensures TriagedResults(cfg, calls, Decided(cfg, t, last))
  {
    hide FateOf;
  }

  lemma StepParked(cfg: PhaseConfig, init: seq<ToolCall>, last: ToolCall, calls: seq<ToolCall>, t: Triage)
    requires TriagedParked(cfg, init, t) && NextCall(init, last, calls)
    ensures TriagedParked(cfg, calls, Decided(cfg, t, last))
  {
    hide FateOf;
    ParkNamesCall(cfg, last);
    forall q | q in t.parked ensures q.toolCallId != last.id {
      var c :| c in init && FateOf(cfg, c) == Parks(q);
      ParkNamesCall(cfg, c);
    }
  }

  lemma StepRunnable(cfg: PhaseConfig, init: seq<ToolCall>, last: ToolCall, calls: seq<ToolCall>, t: Triage)
    requires TriagedRunnable(cfg, init, t) && NextCall(init, last, calls)
    ensures TriagedRunnable(cfg, calls, Decided(cfg, t, last))
  {
    hide FateOf;
    forall r | r in t.runnable ensures r.call.id != last.id { }
  }

  // ----------------------------------------------------------- the whole phase

  /** A call whose outcome the phase knows: one that did not run, or whose task reported. */
  ghost predicate Heard(cfg: PhaseConfig, calls: seq<ToolCall>, a: Arrivals, c: ToolCall) {
    var tasks := Tasks(TriageOf(cfg, calls).runnable, a.chatter);
    FateOf(cfg, c).Runs? && Launchable(tasks) ==>
      exists i: nat :: i in Reported(a.queue, tasks, cfg.limit) && tasks[i].run.call == c
  }

  ghost predicate HasAnswer(cfg: PhaseConfig, calls: seq<ToolCall>, a: Arrivals, c: ToolCall, answer: Answer) {
    c in calls && Heard(cfg, calls, a, c) && AnswerOf(cfg, c) == answer
  }

  lemma SameCall(calls: seq<ToolCall>, c: ToolCall, d: ToolCall)
    requires DistinctIds(calls) && c in calls && d in calls && c.id == d.id
    ensures c == d
  {
    var i :| 0 <= i < |calls| && calls[i] == c;
    var j :| 0 <= j < |calls| && calls[j] == d;
    assert calls[i].id == calls[j].id;
  }

  lemma AnswerNamesCall(cfg: PhaseConfig, c: ToolCall)
    ensures AnswerOf(cfg, c).Replied? ==>
              var m := AnswerOf(cfg, c).result; m.ToolResultMessage? && m.toolCallId == c.id && m.toolName == c.name
  {
    ParkNamesCall(cfg, c);
    if FateOf(cfg, c).Runs? { ResultNamesCall(Runnable(c, FateOf(cfg, c).tool), cfg.limit); }
  }

  /** A runnable call's task, and the other way round. */
  lemma TaskOf(cfg: PhaseConfig, calls: seq<ToolCall>, a: Arrivals, i: nat)
    requires DistinctIds(calls)
    requires i < |TriageOf(cfg, calls).runnable|
    ensures var r := Tasks(TriageOf(cfg, calls).runnable, a.chatter)[i].run;
            && r.call in calls && FateOf(cfg, r.call) == Runs(r.tool) && r.tool.executor.Some?
            && RunAnswer(r, cfg.limit) == AnswerOf(cfg, r.call)
  {
    TriageIs(cfg, calls);
    var r := TriageOf(cfg, calls).runnable[i];
    assert r in TriageOf(cfg, calls).runnable;
    ParkNamesCall(cfg, r.call);
  }

  lemma TasksAreDistinct(cfg: PhaseConfig, calls: seq<ToolCall>, a: Arrivals)
    requires DistinctIds(calls) && AllParkOwnCalls(cfg, calls)
    ensures var tasks := Tasks(TriageOf(cfg, calls).runnable, a.chatter);
            DistinctTasks(tasks) && (Launchable(tasks) ==> OwnSignals(tasks, cfg.limit))
  {
    hide FateOf, RunAnswer, AnswerOf;
    TriageIs(cfg, calls);
    var tasks := Tasks(TriageOf(cfg, calls).runnable, a.chatter);
    forall i: nat | i < |tasks| && tasks[i].run.tool.executor.Some?
      ensures RunAnswer(tasks[i].run, cfg.limit).Awaits? ==>
                RunAnswer(tasks[i].run, cfg.limit).request.toolCallId == tasks[i].run.call.id
    {
      TaskOf(cfg, calls, a, i);
      assert ParksOwnCall(cfg, tasks[i].run.call);
    }
  }

  lemma TriageFor(cfg: PhaseConfig, calls: seq<ToolCall>, c: ToolCall)
    requires DistinctIds(calls) && c in calls
    ensures var t := TriageOf(cfg, calls);
            && (c.id in t.results <==> FateOf(cfg, c).Settled?)
            && (c.id in t.results ==> AnswerOf(cfg, c) == Replied(t.results[c.id]))
    ensures FateOf(cfg, c).Parks? ==> AnswerOf(cfg, c).Awaits?
  {
    hide FateOf, AnswerOf;
    TriageIs(cfg, calls);
    SettledAnswer(cfg, c);
    forall d | d in calls && d.id == c.id ensures d == c { SameCall(calls, c, d); }
  }

  /** The result queued for a call, if there is one, is its reply. */
  lemma QueuedFor(cfg: PhaseConfig, calls: seq<ToolCall>, a: Arrivals, c: ToolCall)
    requires Feasible(cfg, calls, a) && DistinctIds(calls) && AllParkOwnCalls(cfg, calls) && c in calls
    ensures forall m :: m in ResultsIn(a.queue) && m.ToolResultMessage? && m.toolCallId == c.id ==>
              FateOf(cfg, c).Runs? && Heard(cfg, calls, a, c) && AnswerOf(cfg, c) == Replied(m)
    ensures FateOf(cfg, c).Runs? && Heard(cfg, calls, a, c) && AnswerOf(cfg, c).Replied? ==>
              AnswerOf(cfg, c).result in ResultsIn(a.queue)
    ensures DistinctResultIds(ResultsIn(a.queue))
  {
    hide Merge, Complete, RunAnswer, FateOf, AnswerOf, ItemsOf, TriageOf, DistinctResultIds, AllParkOwnCalls,
      DistinctTasks, OwnSignals;
    var tasks := Tasks(TriageOf(cfg, calls).runnable, a.chatter);
    var heard := Reported(a.queue, tasks, cfg.limit);
    TasksAreDistinct(cfg, calls, a);
    QueueAnswers(a.queue, tasks, cfg.limit);
    forall m | m in ResultsIn(a.queue) && m.ToolResultMessage? && m.toolCallId == c.id
      ensures FateOf(cfg, c).Runs? && Heard(cfg, calls, a, c) && AnswerOf(cfg, c) == Replied(m)
    {
      var i: nat :| ReportedResult(tasks, cfg.limit, heard, i, m);
      TaskOf(cfg, calls, a, i);
      ResultNamesCall(tasks[i].run, cfg.limit);
      SameCall(calls, c, tasks[i].run.call);
    }
    if FateOf(cfg, c).Runs? && Heard(cfg, calls, a, c) && AnswerOf(cfg, c).Replied? {
      var i: nat :| i in heard && tasks[i].run.call == c;
      TaskOf(cfg, calls, a, i);
      assert ReportedResult(tasks, cfg.limit, heard, i, AnswerOf(cfg, c).result);
    }
  }

  /** The results recorded are the replies of the calls heard from. */
  lemma ResultsRecorded(cfg: PhaseConfig, calls: seq<ToolCall>, a: Arrivals, c: ToolCall)
    requires Feasible(cfg, calls, a) && DistinctIds(calls) && AllParkOwnCalls(cfg, calls) && c in calls
    ensures var t := TriageOf(cfg, calls);
            var results := Drained(Outcomes(t.results, t.parked), a.queue).results;
            && (c.id in results <==> Heard(cfg, calls, a, c) && AnswerOf(cfg, c).Replied?)
            && (c.id in results ==> results[c.id] == AnswerOf(cfg, c).result)
  {
    hide Feasible, AllParkOwnCalls, FateOf, AnswerOf, TriageOf, Drained, ResultsIn;
    var t := TriageOf(cfg, calls);
    TriageFor(cfg, calls, c);
    QueuedFor(cfg, calls, a, c);
    DrainedIs(Outcomes(t.results, t.parked), a.queue);
    assert forall m :: m in ResultsIn(a.queue) ==> m.ToolResultMessage?;
    AnswerNamesCall(cfg, c);
    assert !FateOf(cfg, c).Runs? ==> Heard(cfg, calls, a, c);
  }

  lemma SettledAnswer(cfg: PhaseConfig, c: ToolCall)
    ensures FateOf(cfg, c).Settled? ==> AnswerOf(cfg, c) == Replied(FateOf(cfg, c).result)
    ensures FateOf(cfg, c).Parks? ==> AnswerOf(cfg, c) == Awaits(FateOf(cfg, c).request)
  {
  }

  lemma {:induction false} OrderedIs(calls: seq<ToolCall>, results: map<string, AgentMessage>)
    ensures forall m :: m in Ordered(calls, results) <==> exists c ::
              c in calls && c.id in results && results[c.id] == m
  {
    if calls != [] {
      var init, last := calls[..|calls| - 1], calls[|calls| - 1];
      OrderedIs(init, results);
      assert forall c :: c in calls <==> c in init || c == last;
    }
  }

  lemma {:induction false} OrderedDistinct(calls: seq<ToolCall>, results: map<string, AgentMessage>)
    requires DistinctIds(calls)
    requires forall id :: id in results ==> results[id].ToolResultMessage? && results[id].toolCallId == id
    ensures DistinctResultIds(Ordered(calls, results))
  {
    if calls != [] {
      var init, last := calls[..|calls| - 1], calls[|calls| - 1];
      OrderedDistinct(init, results);
      OrderedIs(init, results);
      forall m | m in Ordered(init, results) ensures m.toolCallId != last.id {
        var c :| c in init && c.id in results && results[c.id] == m;
        var k :| 0 <= k < |init| && init[k] == c;
        assert calls[k].id != calls[|calls| - 1].id;
      }
    }
  }

  // ------------------------------------------------- the results yielded

  lemma EndsAreResults(t: Task, limit: Option<int>, n: nat)
    requires t.run.tool.executor.Some? && (forall e :: e in t.chatter ==> IsChatter(e)) && n < |ItemsOf(t, limit)|
    ensures var b := ItemsOf(t, limit)[n]; b.Emitted? && b.event.MessageEnd? ==> b.event.message.ToolResultMessage?
  {
    hide ExecuteTool;
    var a, b, c := [Emitted(ToolExecutionStart(t.run.call))], Chatter(t.chatter), Report(t.run, limit);
    assert ItemsOf(t, limit) == a + b + c;
    if 1 <= n < 1 + |b| {
      assert ItemsOf(t, limit)[n] == b[n - 1] == Emitted(t.chatter[n - 1]);
      assert t.chatter[n - 1] in t.chatter;
    } else if n >= 1 + |b| {
      assert ItemsOf(t, limit)[n] == c[n - 1 - |b|];
    }
  }

  /** The messages ended on the queue are the results on it. */
  lemma {:induction false} EndedOnQueue(items: seq<QueueItem>, tasks: seq<Task>, limit: Option<int>)
    requires Launchable(tasks) && Merge(items, tasks, limit)
    ensures Ended(Yielded(items)) == ResultsIn(items)
  {
    hide ItemsOf, Merge, Counts;
    if items != [] {
      var init, last := items[..|items| - 1], items[|items| - 1];
      MergePrefix(items, tasks, limit);
      EndedOnQueue(init, tasks, limit);
      CountingReports(items, tasks, limit);
      assert last.source.Some? ==> last.source.value < |tasks| by { SourceKnown(items, tasks, limit); }
      if last.source.Some? {
        EndsAreResults(tasks[last.source.value], limit, |FromSource(init, last.source.value)|);
      } else {
        SourceKnown(items, tasks, limit);
      }
      if last.body.Emitted? {
        assert (Yielded(init) + [last.body.event])[..|Yielded(init)|] == Yielded(init);
      }
    }
  }

  lemma SourceKnown(items: seq<QueueItem>, tasks: seq<Task>, limit: Option<int>)
    requires items != [] && Launchable(tasks) && Merge(items, tasks, limit)
    ensures var last := items[|items| - 1];
            if last.source.Some? then last.source.value < |tasks|
                 else last.body.Emitted? && last.body.event.ControlPlane?
  {
  }

  /** The messages ended by triage are the results it settled. */
  lemma {:induction false} EndedByTriage(cfg: PhaseConfig, calls: seq<ToolCall>)
    requires DistinctIds(calls)
    ensures var rs := Ended(TriageOf(cfg, calls).events);
            && (forall m :: m in rs <==> exists c :: c in calls && FateOf(cfg, c) == Settled(m))
            && DistinctResultIds(rs)
  {
    hide FateOf, Ended, ImmediateEvents, DistinctResultIds;
    if calls == [] {
      assert Ended([]) == [] && DistinctResultIds([]) by { NothingEnded(); }
    } else {
      var init, last := calls[..|calls| - 1], calls[|calls| - 1];
      EndedByTriage(cfg, init);
      ParkNamesCall(cfg, last);
      var t := TriageOf(cfg, init);
      assert calls == init + [last];
      if FateOf(cfg, last).Settled? {
        var m := FateOf(cfg, last).result;
        EndedConcat(t.events, ImmediateEvents(last, m));
        assert Ended(ImmediateEvents(last, m)) == [m] by { ImmediateEnds(last, m); }
        forall r | r in Ended(t.events) ensures r.ToolResultMessage? && r.toolCallId != last.id {
          var c :| c in init && FateOf(cfg, c) == Settled(r);
          ParkNamesCall(cfg, c);
          var k :| 0 <= k < |init| && init[k] == c;
          assert calls[k].id != calls[|calls| - 1].id;
        }
        assert DistinctResultIds([m]) by { OneIsDistinct(m); }
        DistinctConcat(Ended(t.events), [m]);
      }
    }
  }

  lemma NothingEnded()
    ensures Ended([]) == [] && DistinctResultIds([])
  {
  }

  lemma OneIsDistinct(m: AgentMessage)
    requires m.ToolResultMessage?
    ensures DistinctResultIds([m])
  {
  }

  lemma ImmediateEnds(call: ToolCall, m: AgentMessage)
    ensures Ended(ImmediateEvents(call, m)) == [m]
  {
    var e := ImmediateEvents(call, m);
    assert e[..3][..2] == e[..2] && e[..2][..1] == e[..1];
    assert Ended(e[..1]) == [] && Ended(e[..2]) == [] && Ended(e[..3]) == [];
  }

  // -------------------------------------------------------------- the phase

  /** The results of a phase are the replies heard, each once; the same ones are ended
      in its events, in order of arrival. */
  lemma PhaseResults(cfg: PhaseConfig, calls: seq<ToolCall>, a: Arrivals)
    requires Feasible(cfg, calls, a) && DistinctIds(calls) && AllParkOwnCalls(cfg, calls)
    ensures var p := PhaseOf(cfg, calls, a.queue);
            && (forall m :: m in p.results <==> exists c :: HasAnswer(cfg, calls, a, c, Replied(m)))
            && (forall m :: m in Ended(p.events) <==> m in p.results)
            && DistinctResultIds(p.results) && DistinctResultIds(Ended(p.events))
  {
    hide Feasible, AllParkOwnCalls, FateOf, AnswerOf, TriageOf, Drained, ResultsIn, Heard, DistinctResultIds, Yielded,
      Ended;
    var t := TriageOf(cfg, calls);
    var results := Drained(Outcomes(t.results, t.parked), a.queue).results;
    var p := PhaseOf(cfg, calls, a.queue);
    OrderedIs(calls, results);
    forall m ensures m in p.results <==> exists c :: HasAnswer(cfg, calls, a, c, Replied(m)) {
      if m in p.results {
        var c :| c in calls && c.id in results && results[c.id] == m;
        ResultsRecorded(cfg, calls, a, c);
        assert HasAnswer(cfg, calls, a, c, Replied(m));
      }
      if c :| HasAnswer(cfg, calls, a, c, Replied(m)) { ResultsRecorded(cfg, calls, a, c); }
    }
    RecordedDistinct(cfg, calls, a);
    EndedConcat(t.events, Yielded(a.queue));
    forall m ensures m in Ended(p.events) <==> exists c :: HasAnswer(cfg, calls, a, c, Replied(m)) {
      EndedIff(cfg, calls, a, m);
    }
    EndedDistinct(cfg, calls, a);
  }

  lemma RecordedDistinct(cfg: PhaseConfig, calls: seq<ToolCall>, a: Arrivals)
    requires Feasible(cfg, calls, a) && DistinctIds(calls) && AllParkOwnCalls(cfg, calls)
    ensures DistinctResultIds(PhaseOf(cfg, calls, a.queue).results)
  {
    hide Feasible, AllParkOwnCalls, FateOf, AnswerOf, TriageOf, Drained, Heard;
    var t := TriageOf(cfg, calls);
    var results := Drained(Outcomes(t.results, t.parked), a.queue).results;
    var own := map c | c in calls && c.id in results :: c.id := results[c.id];
    SameOrdered(calls, results, own);
    forall id | id in own ensures own[id].ToolResultMessage? && own[id].toolCallId == id {
      var c :| c in calls && c.id == id && c.id in results;
      ResultsRecorded(cfg, calls, a, c);
      AnswerNamesCall(cfg, c);
    }
    OrderedDistinct(calls, own);
  }

  lemma {:induction false} SameOrdered(calls: seq<ToolCall>, f: map<string, AgentMessage>, g: map<string, AgentMessage>)
    requires forall c :: c in calls ==> (c.id in f <==> c.id in g) && (c.id in f ==> f[c.id] == g[c.id])
    ensures Ordered(calls, f) == Ordered(calls, g)
  {
    if calls != [] { SameOrdered(calls[..|calls| - 1], f, g); }
  }

  lemma EndedIff(cfg: PhaseConfig, calls: seq<ToolCall>, a: Arrivals, m: AgentMessage)
    requires Feasible(cfg, calls, a) && DistinctIds(calls) && AllParkOwnCalls(cfg, calls)
    ensures m in Ended(TriageOf(cfg, calls).events) + Ended(Yielded(a.queue)) <==> exists c ::
              HasAnswer(cfg, calls, a, c, Replied(m))
  {
    hide Feasible, AllParkOwnCalls, FateOf, AnswerOf, TriageOf, Drained, ResultsIn, Heard, Yielded, Ended;
    var t := TriageOf(cfg, calls);
    EndedByTriage(cfg, calls);
    QueueEnds(cfg, calls, a);
    if m in Ended(t.events) {
      var c :| c in calls && FateOf(cfg, c) == Settled(m);
      SettledAnswer(cfg, c);
      assert Heard(cfg, calls, a, c) by { NotRunIsHeard(cfg, calls, a, c); }
      assert HasAnswer(cfg, calls, a, c, Replied(m));
    }
    if m in ResultsIn(a.queue) {
      var c := QueuedCall(cfg, calls, a, m);
      QueuedFor(cfg, calls, a, c);
      assert HasAnswer(cfg, calls, a, c, Replied(m));
    }
    if c :| HasAnswer(cfg, calls, a, c, Replied(m)) {
      QueuedFor(cfg, calls, a, c);
      SettledAnswer(cfg, c);
    }
  }

  lemma NotRunIsHeard(cfg: PhaseConfig, calls: seq<ToolCall>, a: Arrivals, c: ToolCall)
    requires !FateOf(cfg, c).Runs?
    ensures Heard(cfg, calls, a, c)
  {
  }

  lemma QueueEnds(cfg: PhaseConfig, calls: seq<ToolCall>, a: Arrivals)
    requires Feasible(cfg, calls, a)
    ensures Ended(Yielded(a.queue)) == ResultsIn(a.queue)
  {
    hide Merge, Complete, ItemsOf, Yielded, Ended, ResultsIn;
    EndedOnQueue(a.queue, Tasks(TriageOf(cfg, calls).runnable, a.chatter), cfg.limit);
  }

  lemma QueuedCall(cfg: PhaseConfig, calls: seq<ToolCall>, a: Arrivals, m: AgentMessage) returns (c: ToolCall)
    requires Feasible(cfg, calls, a) && DistinctIds(calls) && AllParkOwnCalls(cfg, calls) && m in ResultsIn(a.queue)
    ensures c in calls && m.ToolResultMessage? && c.id == m.toolCallId
  {
    hide Merge, Complete, RunAnswer, FateOf, AnswerOf, ItemsOf, TriageOf, AllParkOwnCalls, DistinctTasks, OwnSignals;
    var tasks := Tasks(TriageOf(cfg, calls).runnable, a.chatter);
    TasksAreDistinct(cfg, calls, a);
    QueueAnswers(a.queue, tasks, cfg.limit);
    var i: nat :| ReportedResult(tasks, cfg.limit, Reported(a.queue, tasks, cfg.limit), i, m);
    TaskOf(cfg, calls, a, i);
    ResultNamesCall(tasks[i].run, cfg.limit);
    c := tasks[i].run.call;
  }

  lemma EndedDistinct(cfg: PhaseConfig, calls: seq<ToolCall>, a: Arrivals)
    requires Feasible(cfg, calls, a) && DistinctIds(calls) && AllParkOwnCalls(cfg, calls)
    ensures DistinctResultIds(Ended(TriageOf(cfg, calls).events) + Ended(Yielded(a.queue)))
  {
    hide Feasible, AllParkOwnCalls, FateOf, AnswerOf, TriageOf, Drained, ResultsIn, Heard, Yielded, Ended;
    var rs, qs := Ended(TriageOf(cfg, calls).events), ResultsIn(a.queue);
    EndedByTriage(cfg, calls);
    QueueEnds(cfg, calls, a);
    if qs != [] {
      var c := QueuedCall(cfg, calls, a, qs[0]);
      QueuedFor(cfg, calls, a, c);
    }
    assert DistinctResultIds(qs);
    forall r, q | r in rs && q in qs
      ensures r.ToolResultMessage? && q.ToolResultMessage? && r.toolCallId != q.toolCallId {
      var c := QueuedCall(cfg, calls, a, q);
      QueuedFor(cfg, calls, a, c);
      var d :| d in calls && FateOf(cfg, d) == Settled(r);
      ParkNamesCall(cfg, d);
      if r.toolCallId == q.toolCallId { SameCall(calls, c, d); }
    }
    DistinctConcat(rs, qs);
  }

  lemma DistinctConcat(a: seq<AgentMessage>, b: seq<AgentMessage>)
    requires DistinctResultIds(a) && DistinctResultIds(b)
    requires forall r, q :: r in a && q in b ==>
               r.ToolResultMessage? && q.ToolResultMessage? && r.toolCallId != q.toolCallId
    ensures DistinctResultIds(a + b)
  {
    var c := a + b;
    assert forall i :: 0 <= i < |c| ==> c[i] == if i < |a| then a[i] else b[i - |a|];
    assert forall i :: 0 <= i < |a| ==> a[i] in a;
    assert forall i :: 0 <= i < |b| ==> b[i] in b;
  }

  /** The requests of a phase are the awaits heard, each once. */
  lemma PhaseParks(cfg: PhaseConfig, calls: seq<ToolCall>, a: Arrivals)
    requires Feasible(cfg, calls, a) && DistinctIds(calls) && AllParkOwnCalls(cfg, calls)
    ensures var p := PhaseOf(cfg, calls, a.queue);
            && (forall q :: q in p.parked <==> exists c :: HasAnswer(cfg, calls, a, c, Awaits(q)))
            && DistinctCalls(p.parked)
  {
    hide Merge, Complete, RunAnswer, FateOf, AnswerOf, ItemsOf, TriageOf, DistinctResultIds, DistinctTasks, OwnSignals,
      Drained, Heard;
    var t := TriageOf(cfg, calls);
    var tasks := Tasks(t.runnable, a.chatter);
    var heard := Reported(a.queue, tasks, cfg.limit);
    TriageIs(cfg, calls);
    TasksAreDistinct(cfg, calls, a);
    QueueAnswers(a.queue, tasks, cfg.limit);
    DrainedIs(Outcomes(t.results, t.parked), a.queue);
    forall q ensures q in t.parked + SignalsIn(a.queue) <==> exists c :: HasAnswer(cfg, calls, a, c, Awaits(q)) {
      ParkedIff(cfg, calls, a, q);
    }
    forall q, s | q in t.parked && s in SignalsIn(a.queue) ensures q.toolCallId != s.toolCallId {
      var c :| c in calls && FateOf(cfg, c) == Parks(q);
      ParkNamesCall(cfg, c);
      var i: nat :| ReportedSignal(tasks, cfg.limit, heard, i, s);
      TaskOf(cfg, calls, a, i);
      var d := tasks[i].run.call;
      assert ParksOwnCall(cfg, d);
      if q.toolCallId == s.toolCallId { SameCall(calls, c, d); }
    }
    DistinctCallsConcat(t.parked, SignalsIn(a.queue));
  }

  lemma DistinctCallsConcat(a: seq<PendingInputRequest>, b: seq<PendingInputRequest>)
    requires DistinctCalls(a) && DistinctCalls(b)
    requires forall q, s :: q in a && s in b ==> q.toolCallId != s.toolCallId
    ensures DistinctCalls(a + b)
  {
    assert forall i :: 0 <= i < |a| ==> a[i] in a;
    assert forall i :: 0 <= i < |b| ==> b[i] in b;
  }

  lemma ParkedIff(cfg: PhaseConfig, calls: seq<ToolCall>, a: Arrivals, q: PendingInputRequest)
    requires Feasible(cfg, calls, a) && DistinctIds(calls) && AllParkOwnCalls(cfg, calls)
    ensures q in TriageOf(cfg, calls).parked + SignalsIn(a.queue) <==> exists c ::
              HasAnswer(cfg, calls, a, c, Awaits(q))
  {
    hide Merge, Complete, RunAnswer, FateOf, AnswerOf, ItemsOf, TriageOf, DistinctResultIds, DistinctTasks, OwnSignals,
      AllParkOwnCalls;
    var t := TriageOf(cfg, calls);
    var tasks := Tasks(t.runnable, a.chatter);
    var heard := Reported(a.queue, tasks, cfg.limit);
    TriageIs(cfg, calls);
    TasksAreDistinct(cfg, calls, a);
    QueueAnswers(a.queue, tasks, cfg.limit);
    if q in t.parked {
      var c :| c in calls && FateOf(cfg, c) == Parks(q);
      SettledAnswer(cfg, c);
      assert HasAnswer(cfg, calls, a, c, Awaits(q));
    }
    if q in SignalsIn(a.queue) {
      var i: nat :| ReportedSignal(tasks, cfg.limit, heard, i, q);
      TaskOf(cfg, calls, a, i);
      assert HasAnswer(cfg, calls, a, tasks[i].run.call, Awaits(q));
    }
    if c :| HasAnswer(cfg, calls, a, c, Awaits(q)) {
      SettledAnswer(cfg, c);
      if FateOf(cfg, c).Runs? {
        var i: nat :| i in heard && tasks[i].run.call == c;
        TaskOf(cfg, calls, a, i);
        assert ReportedSignal(tasks, cfg.limit, heard, i, q);
      }
    }
  }

  /** Without cancellation every call is heard. */
  lemma AllHeard(cfg: PhaseConfig, calls: seq<ToolCall>, a: Arrivals, c: ToolCall)
    requires Feasible(cfg, calls, a) && DistinctIds(calls) && a.breakAt.None? && c in calls
    ensures Heard(cfg, calls, a, c)
  {
    hide Merge, FateOf, ItemsOf, TriageOf;
    var t := TriageOf(cfg, calls);
    var tasks := Tasks(t.runnable, a.chatter);
    TriageIs(cfg, calls);
    if FateOf(cfg, c).Runs? {
      var r := Runnable(c, FateOf(cfg, c).tool);
      assert r in t.runnable;
      var i: nat :| i < |t.runnable| && t.runnable[i] == r;
      assert i in Reported(a.queue, tasks, cfg.limit) && tasks[i].run.call == c;
    }
  }

  /** The replies to the calls, in call order. */
  function PhaseReplies(cfg: PhaseConfig, calls: seq<ToolCall>): seq<AgentMessage> {
    if calls == [] then []
    else
      var answer := AnswerOf(cfg, calls[|calls| - 1]);
      PhaseReplies(cfg, calls[..|calls| - 1]) + if answer.Replied? then [answer.result] else []
  }

  /** However the tasks interleave, without cancellation history gets the same
      results in the same order, and the same requests are raised. */
  lemma HistoryIsDeterministic(cfg: PhaseConfig, calls: seq<ToolCall>, a: Arrivals)
    requires Feasible(cfg, calls, a) && DistinctIds(calls) && AllParkOwnCalls(cfg, calls) && a.breakAt.None?
    ensures PhaseOf(cfg, calls, a.queue).results == PhaseReplies(cfg, calls)
    ensures forall q :: q in PhaseOf(cfg, calls, a.queue).parked <==> exists c ::
              c in calls && AnswerOf(cfg, c) == Awaits(q)
  {
    hide Feasible, AllParkOwnCalls, AnswerOf, TriageOf, Drained, Heard, DistinctIds;
    var t := TriageOf(cfg, calls);
    var results := Drained(Outcomes(t.results, t.parked), a.queue).results;
    forall c | c in calls
      ensures c.id in results <==> AnswerOf(cfg, c).Replied?
      ensures c.id in results ==> results[c.id] == AnswerOf(cfg, c).result
      ensures Heard(cfg, calls, a, c)
    {
      AllHeard(cfg, calls, a, c);
      ResultsRecorded(cfg, calls, a, c);
    }
    OrderedReplies(cfg, calls, results);
    PhaseParks(cfg, calls, a);
    forall q, c | c in calls && AnswerOf(cfg, c) == Awaits(q) ensures HasAnswer(cfg, calls, a, c, Awaits(q)) { }
  }

  lemma {:induction false} OrderedReplies(cfg: PhaseConfig, calls: seq<ToolCall>, results: map<string, AgentMessage>)
    requires forall c :: c in calls ==>
      (c.id in results <==> AnswerOf(cfg, c).Replied?) && (c.id in results ==> results[c.id] == AnswerOf(cfg, c).result)
    ensures Ordered(calls, results) == PhaseReplies(cfg, calls)
  {
    hide AnswerOf;
    if calls != [] { OrderedReplies(cfg, calls[..|calls| - 1], results); }
  }

  ghost predicate HasReply(p: Phase, c: ToolCall) {
    exists m :: m in p.results && m.ToolResultMessage? && m.toolCallId == c.id
  }

  ghost predicate HasRequest(p: Phase, c: ToolCall) {
    exists q :: q in p.parked && q.toolCallId == c.id
  }

  /** Never both; and without cancellation never neither. */
  lemma OneOutcomePerCall(cfg: PhaseConfig, calls: seq<ToolCall>, a: Arrivals, c: ToolCall)
    requires Feasible(cfg, calls, a) && DistinctIds(calls) && AllParkOwnCalls(cfg, calls) && c in calls
    ensures HasReply(PhaseOf(cfg, calls, a.queue), c) <==> Heard(cfg, calls, a, c) && AnswerOf(cfg, c).Replied?
    ensures HasRequest(PhaseOf(cfg, calls, a.queue), c) <==> Heard(cfg, calls, a, c) && AnswerOf(cfg, c).Awaits?
    ensures a.breakAt.None? ==> Heard(cfg, calls, a, c)
  {
    hide Feasible, AnswerOf, Heard, PhaseOf, DistinctIds;
    var p := PhaseOf(cfg, calls, a.queue);
    PhaseResults(cfg, calls, a);
    PhaseParks(cfg, calls, a);
    AnswerNamesCall(cfg, c);
    assert ParksOwnCall(cfg, c);
    if a.breakAt.None? { AllHeard(cfg, calls, a, c); }
    if HasReply(p, c) {
      var m :| m in p.results && m.ToolResultMessage? && m.toolCallId == c.id;
      var d :| HasAnswer(cfg, calls, a, d, Replied(m));
      AnswerNamesCall(cfg, d);
      SameCall(calls, c, d);
    }
    if HasRequest(p, c) {
      var q :| q in p.parked && q.toolCallId == c.id;
      var d :| HasAnswer(cfg, calls, a, d, Awaits(q));
      assert ParksOwnCall(cfg, d);
      SameCall(calls, c, d);
    }
    if Heard(cfg, calls, a, c) { assert HasAnswer(cfg, calls, a, c, AnswerOf(cfg, c)); }
  }
}
