/** The tool phase of a turn: decide every call, run the allowed ones at once, and
    drain the queue their events arrive on.

    Concurrency is the order of the queue: any merge of what the tasks put there. */
module ToolPhase {
  import opened Messages
  import opened Events
  import opened Tools
  import opened Decisions

  // ------------------------------------------------------------ deciding

  datatype Runnable = Runnable(call: ToolCall, tool: AgentTool)

  /** The phase's collections after deciding some of the calls. */
  datatype Triage = Triage(
    events: seq<AgentEvent>, results: map<string, AgentMessage>, parked: seq<PendingInputRequest>,
      runnable: seq<Runnable>)

  function ImmediateEvents(call: ToolCall, result: AgentMessage): seq<AgentEvent> {
    [ToolExecutionStart(call), ToolExecutionEnd(call, result.ToolResultMessage? && result.isError),
     MessageStart(result), MessageEnd(result)]
  }

  function Decided(cfg: PhaseConfig, t: Triage, call: ToolCall): Triage {
    match FateOf(cfg, call)
    case Settled(result) => t.(results := t.results[call.id := result],
                               events := t.events + ImmediateEvents(call, result))
    case Parks(request) => t.(parked := t.parked + [request])
    case Runs(tool) => t.(runnable := t.runnable + [Runnable(call, tool)])
  }

  function TriageOf(cfg: PhaseConfig, calls: seq<ToolCall>): Triage {
    if calls == [] then Triage([], map[], [], [])
    else Decided(cfg, TriageOf(cfg, calls[..|calls| - 1]), calls[|calls| - 1])
  }

  // ---------------------------------------------------------- the queue

  datatype ItemBody = Emitted(event: AgentEvent) | Signal(request: PendingInputRequest)

  /** An item on the queue: from the task that runs the i-th runnable call, or a
      control event somebody else emitted. */
  datatype QueueItem = QueueItem(source: Option<nat>, body: ItemBody)

  predicate IsChatter(e: AgentEvent) { e.ToolExecutionUpdate? || e.ControlPlane? }

  function Chatter(events: seq<AgentEvent>): (bodies: seq<ItemBody>)
    ensures |bodies| == |events| && forall i :: 0 <= i < |events| ==> bodies[i] == Emitted(events[i])
  {
    seq(|events|, i requires 0 <= i < |events| => Emitted(events[i]))
  }

  function Report(r: Runnable, limit: Option<int>): seq<ItemBody>
    requires r.tool.executor.Some?
  {
    match ExecuteTool(r.tool, r.call, limit)
    case Finished(result, isError) =>
      var m := ResultMessage(r.call.id, r.call.name, result, isError);
      [Emitted(ToolExecutionEnd(r.call, isError)), Emitted(MessageStart(m)), Emitted(MessageEnd(m))]
    case ParkedCall(request) => [Signal(request)]
  }

  /** `_execute_and_report`: everything one task puts on the queue, in its order;
      `chatter` is what its executor emits while it runs. */
  function TaskItems(r: Runnable, chatter: seq<AgentEvent>, limit: Option<int>): (items: seq<ItemBody>)
    requires r.tool.executor.Some?
    ensures items != []
  {
    [Emitted(ToolExecutionStart(r.call))] + Chatter(chatter) + Report(r, limit)
  }

  /** Whether an item counts toward completion. */
  predicate Counts(b: ItemBody) {
    b.Signal? || (b.event.MessageEnd? && b.event.message.ToolResultMessage?)
  }

  function Counted(items: seq<QueueItem>): nat {
    if items == [] then 0 else Counted(items[..|items| - 1]) + if Counts(items[|items| - 1].body) then 1 else 0
  }

  /** What one task has put on the queue so far. */
  function FromSource(items: seq<QueueItem>, i: nat): seq<ItemBody> {
    if items == [] then []
    else if items[|items| - 1].source == Some(i) then FromSource(items[..|items| - 1], i) + [items[|items| - 1].body]
    else FromSource(items[..|items| - 1], i)
  }

  /** One runnable call with what its executor emits on the way. */
  datatype Task = Task(run: Runnable, chatter: seq<AgentEvent>)

  function ItemsOf(t: Task, limit: Option<int>): seq<ItemBody>
    requires t.run.tool.executor.Some?
  {
    TaskItems(t.run, t.chatter, limit)
  }

  ghost predicate Launchable(tasks: seq<Task>) {
    forall i :: 0 <= i < |tasks| ==> tasks[i].run.tool.executor.Some? && forall e ::
      e in tasks[i].chatter ==> IsChatter(e)
  }

  ghost predicate KnownSources(items: seq<QueueItem>, n: nat) {
    forall p :: 0 <= p < |items| ==>
      match items[p].source
      case Some(i) => i < n
      case None => items[p].body.Emitted? && items[p].body.event.ControlPlane?
  }

  /** An interleaving: each task's items appear in its own order, as far as it got. */
  ghost predicate Merge(items: seq<QueueItem>, tasks: seq<Task>, limit: Option<int>)
    requires Launchable(tasks)
  {
    && KnownSources(items, |tasks|)
    && forall i: nat :: i < |tasks| ==> FromSource(items, i) <= ItemsOf(tasks[i], limit)
  }

  /** An interleaving in which every task got to its end. */
  ghost predicate Complete(items: seq<QueueItem>, tasks: seq<Task>, limit: Option<int>)
    requires Launchable(tasks)
  {
    Merge(items, tasks, limit) && forall i: nat :: i < |tasks| ==> FromSource(items, i) == ItemsOf(tasks[i], limit)
  }

  // ---------------------------------------------------------- the outcome

  datatype Outcomes = Outcomes(results: map<string, AgentMessage>, parked: seq<PendingInputRequest>)

  function Drain(o: Outcomes, b: ItemBody): Outcomes {
    match b
    case Signal(request) => o.(parked := o.parked + [request])
    case Emitted(e) =>
      if e.MessageEnd? && e.message.ToolResultMessage? then o.(results := o.results[e.message.toolCallId := e.message])
           else o
  }

  function Drained(o: Outcomes, items: seq<QueueItem>): Outcomes {
    if items == [] then o else Drain(Drained(o, items[..|items| - 1]), items[|items| - 1].body)
  }

  /** The events yielded: everything queued but the park signals, in queue order. */
  function Yielded(items: seq<QueueItem>): seq<AgentEvent> {
    if items == [] then []
    else if items[|items| - 1].body.Signal? then Yielded(items[..|items| - 1])
    else Yielded(items[..|items| - 1]) + [items[|items| - 1].body.event]
  }

  /** The results in the order of the calls. */
  function Ordered(calls: seq<ToolCall>, results: map<string, AgentMessage>): seq<AgentMessage> {
    if calls == [] then []
    else if calls[|calls| - 1].id in results
    then Ordered(calls[..|calls| - 1], results) + [results[calls[|calls| - 1].id]]
    else Ordered(calls[..|calls| - 1], results)
  }

  datatype Phase = Phase(events: seq<AgentEvent>, results: seq<AgentMessage>, parked: seq<PendingInputRequest>)

  /** `_run_tool_phase`, given what reached the queue. */
  function PhaseOf(cfg: PhaseConfig, calls: seq<ToolCall>, items: seq<QueueItem>): Phase {
    var t := TriageOf(cfg, calls);
    var o := Drained(Outcomes(t.results, t.parked), items);
    Phase(t.events + Yielded(items), Ordered(calls, o.results), o.parked)
  }

  /** The tasks of a phase, with what their executors emit. */
  function Tasks(runnable: seq<Runnable>, chatter: seq<seq<AgentEvent>>): (tasks: seq<Task>)
    ensures |tasks| == |runnable|
  {
    seq(|runnable|, i requires 0 <= i < |runnable| => Task(runnable[i], if i < |chatter| then chatter[i] else []))
  }

  // ----------------------------------------------------- counting outcomes

  /** Only the last item of a task counts. */
  lemma OnlyLastCounts(t: Task, limit: Option<int>, n: nat)
    requires t.run.tool.executor.Some? && (forall e :: e in t.chatter ==> IsChatter(e))
    requires n < |ItemsOf(t, limit)|
    ensures Counts(ItemsOf(t, limit)[n]) <==> n == |ItemsOf(t, limit)| - 1
  {
    hide ExecuteTool;
    var a, b, c := [Emitted(ToolExecutionStart(t.run.call))], Chatter(t.chatter), Report(t.run, limit);
    assert ItemsOf(t, limit) == a + b + c;
    if 1 <= n < 1 + |b| {
      assert ItemsOf(t, limit)[n] == b[n - 1] == Emitted(t.chatter[n - 1]);
      assert t.chatter[n - 1] in t.chatter;
    } else if n >= 1 + |b| {
      assert ItemsOf(t, limit)[n] == c[n - 1 - |b|];
    }
  }

  lemma MergePrefix(items: seq<QueueItem>, tasks: seq<Task>, limit: Option<int>)
    requires items != [] && Launchable(tasks) && Merge(items, tasks, limit)
    ensures Merge(items[..|items| - 1], tasks, limit)
  {
    hide ItemsOf;
    var init := items[..|items| - 1];
    assert forall i: nat :: FromSource(init, i) <= FromSource(items, i);
    forall i: nat | i < |tasks| ensures FromSource(init, i) <= ItemsOf(tasks[i], limit) {
      assert FromSource(init, i) <= FromSource(items, i);
    }
  }

  /** The tasks that have reported: those whose items are all there. */
  ghost function Reported(items: seq<QueueItem>, tasks: seq<Task>, limit: Option<int>): set<nat>
    requires Launchable(tasks)
  {
    set i: nat | i < |tasks| && FromSource(items, i) == ItemsOf(tasks[i], limit)
  }

  /** An item counts exactly when it is the one its task ends with. */
  lemma CountingReports(items: seq<QueueItem>, tasks: seq<Task>, limit: Option<int>)
    requires items != [] && Launchable(tasks) && Merge(items, tasks, limit)
    ensures var init, last := items[..|items| - 1], items[|items| - 1];
            && (Counts(last.body) ==> last.source.Some? && last.source.value < |tasks|)
            && (last.source.Some? && last.source.value < |tasks| ==>
                  && last.source.value !in Reported(init, tasks, limit)
                  && |FromSource(init, last.source.value)| < |ItemsOf(tasks[last.source.value], limit)|
                  && last.body == ItemsOf(tasks[last.source.value], limit)[|FromSource(init, last.source.value)|])
            && Reported(items, tasks, limit) ==
               Reported(init, tasks, limit) + if Counts(last.body) then {last.source.value} else {}
  {
    hide ItemsOf, Counts;
    var init, last := items[..|items| - 1], items[|items| - 1];
    match last.source
    case None => assert !Counts(last.body) by { ControlDoesNotCount(last.body); }
    case Some(i) =>
      var n := |FromSource(init, i)|;
      assert FromSource(items, i)[n] == last.body;
      OnlyLastCounts(tasks[i], limit, n);
  }

  lemma ControlDoesNotCount(b: ItemBody)
    requires b.Emitted? && b.event.ControlPlane?
    ensures !Counts(b)
  {
  }

  lemma {:induction false} CountedIsReported(items: seq<QueueItem>, tasks: seq<Task>, limit: Option<int>)
    requires Launchable(tasks) && Merge(items, tasks, limit)
    ensures Counted(items) == |Reported(items, tasks, limit)|
  {
    hide Counts, ItemsOf, Merge;
    if items == [] {
      assert forall i: nat :: i < |tasks| ==> ItemsOf(tasks[i], limit) != [] by { NonEmptyItems(tasks, limit); }
      assert Reported(items, tasks, limit) == {};
    } else {
      MergePrefix(items, tasks, limit);
      CountedIsReported(items[..|items| - 1], tasks, limit);
      CountingReports(items, tasks, limit);
    }
  }

  lemma NonEmptyItems(tasks: seq<Task>, limit: Option<int>)
    requires Launchable(tasks)
    ensures forall i: nat :: i < |tasks| ==> ItemsOf(tasks[i], limit) != []
  {
  }

  ghost function Below(n: nat): (s: set<nat>)
    ensures |s| == n && forall i: nat :: i in s <==> i < n
  {
    if n == 0 then {} else Below(n - 1) + {n - 1}
  }

  /** As many items count as there are tasks exactly when all of them have reported. */
  lemma AllReported(items: seq<QueueItem>, tasks: seq<Task>, limit: Option<int>)
    requires Launchable(tasks) && Merge(items, tasks, limit)
    ensures Counted(items) <= |tasks|
    ensures Counted(items) == |tasks| <==> Complete(items, tasks, limit)
  {
    hide Counts, ItemsOf;
    CountedIsReported(items, tasks, limit);
    var all, some := Below(|tasks|), Reported(items, tasks, limit);
    SubsetSizes(some, all);
    if Counted(items) == |tasks| {
      forall i: nat | i < |tasks| ensures FromSource(items, i) == ItemsOf(tasks[i], limit) { assert i in all; }
    }
    if Complete(items, tasks, limit) { assert some == all; }
  }

  lemma {:induction false} SubsetSizes(a: set<nat>, b: set<nat>)
    requires a <= b
    ensures |a| <= |b| && (|a| == |b| ==> a == b)
  {
    if a != {} {
      var x :| x in a;
      SubsetSizes(a - {x}, b - {x});
    } else if |b| == 0 {
      assert b == {};
    }
  }

  // ------------------------------------------------------------- the loops

  /** `_drain_item`: record one item; say whether it counts. */
  method DrainItem(item: QueueItem, results: map<string, AgentMessage>, parked: seq<PendingInputRequest>)
    returns (resultsOut: map<string, AgentMessage>, parkedOut: seq<PendingInputRequest>, counts: bool)
    ensures Outcomes(resultsOut, parkedOut) == Drain(Outcomes(results, parked), item.body)
    ensures counts == Counts(item.body)
  {
    resultsOut, parkedOut, counts := results, parked, true;
    match item.body {
      case Signal(request) => parkedOut := parked + [request];
      case Emitted(e) =>
        if e.MessageEnd? && e.message.ToolResultMessage? {
          resultsOut := results[e.message.toolCallId := e.message];
        } else {
          counts := false;
        }
    }
  }

  /** `_run_concurrent_tools`: take items until every task has been counted, or until
      cancellation is seen after `breakAt` items; then empty the queue.

      `queue` is everything put on the queue before it is found empty at the end. */
  method RunConcurrentTools(ghost tasks: seq<Task>, target: nat, ghost limit: Option<int>, queue: seq<QueueItem>,
                            breakAt: Option<nat>, results: map<string, AgentMessage>, parked: seq<PendingInputRequest>)
    returns (events: seq<AgentEvent>, o: Outcomes)
    requires Launchable(tasks) && |tasks| == target && Merge(queue, tasks, limit)
    requires if breakAt.None? then Complete(queue, tasks, limit) else breakAt.value <= |queue|
    ensures events == Yielded(queue) && o == Drained(Outcomes(results, parked), queue)
  {
    hide Merge, Counts, Drain;
    var i, received := 0, 0;
    events, o := [], Outcomes(results, parked);
    AllReported(queue, tasks, limit);
    assert queue[..|queue|] == queue;
    while received < target
      invariant i <= |queue| && received == Counted(queue[..i]) && (breakAt.Some? ==> i <= breakAt.value)
      invariant events == Yielded(queue[..i]) && o == Drained(Outcomes(results, parked), queue[..i])
      decreases |queue| - i
    {
      if breakAt == Some(i) { break; }
      assert i < |queue|;
      assert queue[..i + 1][..i] == queue[..i];
      var item := queue[i];
      var counts;
      var r, p;
      r, p, counts := DrainItem(item, o.results, o.parked);
      o := Outcomes(r, p);
      if counts { received := received + 1; }
      if !item.body.Signal? { events := events + [item.body.event]; }
      i := i + 1;
    }
    while i < |queue|
      invariant i <= |queue|
      invariant events == Yielded(queue[..i]) && o == Drained(Outcomes(results, parked), queue[..i])
    {
      assert queue[..i + 1][..i] == queue[..i];
      var item := queue[i];
      var r, p, _ := DrainItem(item, o.results, o.parked);
      o := Outcomes(r, p);
      if !item.body.Signal? { events := events + [item.body.event]; }
      i := i + 1;
    }
  }

  /** What the environment does during a phase: what executors emit, what arrives on
      the queue, and when a cancellation is seen. */
  datatype Arrivals = Arrivals(chatter: seq<seq<AgentEvent>>, queue: seq<QueueItem>, breakAt: Option<nat>)

  ghost predicate Feasible(cfg: PhaseConfig, calls: seq<ToolCall>, a: Arrivals) {
    var tasks := Tasks(TriageOf(cfg, calls).runnable, a.chatter);
    && Launchable(tasks) && Merge(a.queue, tasks, cfg.limit)
    && (tasks == [] ==> a.queue == [])
    && if a.breakAt.None? then Complete(a.queue, tasks, cfg.limit) else a.breakAt.value <= |a.queue|
  }

  /** `_run_tool_phase` */
  method RunToolPhase(cfg: PhaseConfig, calls: seq<ToolCall>, a: Arrivals)
    returns (events: seq<AgentEvent>, toolResults: seq<AgentMessage>, parked: seq<PendingInputRequest>)
    requires Feasible(cfg, calls, a)
    ensures Phase(events, toolResults, parked) == PhaseOf(cfg, calls, a.queue)
  {
    hide Merge, Complete, Launchable, Drain;
    var runnable: seq<Runnable> := [];
    var results: map<string, AgentMessage> := map[];
    events, parked, toolResults := [], [], [];
    for i := 0 to |calls|
      invariant Triage(events, results, parked, runnable) == TriageOf(cfg, calls[..i])
    {
      assert calls[..i + 1][..i] == calls[..i];
      var call := calls[i];
      match FateOf(cfg, call) {
        case Settled(result) =>
          results := results[call.id := result];
          events := events + ImmediateEvents(call, result);
        case Parks(request) => parked := parked + [request];
        case Runs(tool) => runnable := runnable + [Runnable(call, tool)];
      }
    }
    assert calls[..|calls|] == calls;
    if runnable != [] {
      var more, o := RunConcurrentTools(Tasks(runnable, a.chatter), |runnable|, cfg.limit, a.queue, a.breakAt, results,
                                        parked);
      events, results, parked := events + more, o.results, o.parked;
    } else {
      assert a.queue == [] && events + [] == events;
    }
    for i := 0 to |calls|
      invariant toolResults == Ordered(calls[..i], results)
    {
      assert calls[..i + 1][..i] == calls[..i];
      if calls[i].id in results { toolResults := toolResults + [results[calls[i].id]]; }
    }
    assert calls[..|calls|] == calls;
  }
}
