/** When call ids do not repeat and no call has two results, repair depends only
    on the non-result messages and on which result each id has.

    This is what makes the order in which results reached a log invisible. */
module RepairCanonical {
  import opened Messages
  import opened ToolMatching
  import opened ToolHistory

  function Ids(calls: seq<ToolCall>): set<string> {
    set c | c in calls :: c.id
  }

  predicate DistinctIds(calls: seq<ToolCall>) {
    forall i, j :: 0 <= i < j < |calls| ==> calls[i].id != calls[j].id
  }

  function CallIdSet(ms: seq<AgentMessage>): set<string> {
    if ms == [] then {} else CallIdSet(ms[..|ms| - 1]) + Ids(CallsOf(ms[|ms| - 1]))
  }

  /** Every tool call has an id of its own. */
  predicate FreshCalls(ms: seq<AgentMessage>) {
    ms == [] || (
      && FreshCalls(ms[..|ms| - 1])
      && DistinctIds(CallsOf(ms[|ms| - 1]))
      && Ids(CallsOf(ms[|ms| - 1])) !! CallIdSet(ms[..|ms| - 1]))
  }

  /** The last result for each id. */
  function ResultMap(ms: seq<AgentMessage>): map<string, AgentMessage> {
    if ms == [] then map[]
    else if ms[|ms| - 1].ToolResultMessage? then ResultMap(ms[..|ms| - 1])[ms[|ms| - 1].toolCallId := ms[|ms| - 1]]
    else ResultMap(ms[..|ms| - 1])
  }

  /** No id has two results. */
  predicate SingleResults(ms: seq<AgentMessage>) {
    ms == [] || (
      && SingleResults(ms[..|ms| - 1])
      && (ms[|ms| - 1].ToolResultMessage? ==> ms[|ms| - 1].toolCallId !in ResultMap(ms[..|ms| - 1])))
  }

  /** What a provider can tell apart: the non-result messages and each id's result. */
  datatype View = View(spine: seq<AgentMessage>, answers: map<string, AgentMessage>)

  function ViewOf(ms: seq<AgentMessage>): View {
    View(NonResults(ms), ResultMap(ms))
  }

  function Reply(answers: map<string, AgentMessage>, call: ToolCall): AgentMessage {
    if call.id in answers then answers[call.id] else Interruption(call)
  }

  function Replies(answers: map<string, AgentMessage>, calls: seq<ToolCall>): seq<AgentMessage> {
    if calls == [] then [] else Replies(answers, calls[..|calls| - 1]) + [Reply(answers, calls[|calls| - 1])]
  }

  /** The transcript a view stands for: each message followed by its replies. */
  function Canon(spine: seq<AgentMessage>, answers: map<string, AgentMessage>): seq<AgentMessage> {
    if spine == [] then []
    else Canon(spine[..|spine| - 1], answers) + [spine[|spine| - 1]] + Replies(answers, CallsOf(spine[|spine| - 1]))
  }

  // ------------------------------------------------------- index-based readings

  lemma {:induction false} CallIdSetHas(ms: seq<AgentMessage>, k: Key)
    requires IsKey(ms, k)
    ensures CallAt(ms, k).id in CallIdSet(ms)
  {
    hide CallsOf;
    if k.message < |ms| - 1 {
      assert IsKey(ms[..|ms| - 1], k);
      CallIdSetHas(ms[..|ms| - 1], k);
    } else {
      assert CallAt(ms, k) in CallsOf(ms[|ms| - 1]);
    }
  }

  lemma LastCallsAreNew(ms: seq<AgentMessage>, j: Key, k: Key)
    requires FreshCalls(ms) && IsKey(ms, j) && IsKey(ms, k) && j.message < k.message == |ms| - 1
    ensures CallAt(ms, j).id != CallAt(ms, k).id
  {
    hide CallsOf;
    assert IsKey(ms[..|ms| - 1], j);
    CallIdSetHas(ms[..|ms| - 1], j);
    assert CallAt(ms, k) in CallsOf(ms[|ms| - 1]);
  }

  /** Fresh calls: a call's id names its key. */
  lemma {:induction false} FreshCallsInjective(ms: seq<AgentMessage>, j: Key, k: Key)
    requires FreshCalls(ms) && IsKey(ms, j) && IsKey(ms, k) && CallAt(ms, j).id == CallAt(ms, k).id
    ensures j == k
  {
    hide CallsOf;
    var init := ms[..|ms| - 1];
    if j.message < |ms| - 1 && k.message < |ms| - 1 {
      assert IsKey(init, j) && IsKey(init, k);
      FreshCallsInjective(init, j, k);
    } else if j.message < k.message {
      LastCallsAreNew(ms, j, k);
    } else if k.message < j.message {
      LastCallsAreNew(ms, k, j);
    } else {
      var calls := CallsOf(ms[|ms| - 1]);
      assert calls[j.offset - 1].id == calls[k.offset - 1].id;
    }
  }

  lemma {:induction false} ResultMapHas(ms: seq<AgentMessage>, id: string, p: nat)
    requires IsResult(ms, id, p)
    ensures id in ResultMap(ms)
    ensures SingleResults(ms) ==> ResultMap(ms)[id] == ms[p]
  {
    var init := ms[..|ms| - 1];
    if p < |ms| - 1 {
      assert IsResult(init, id, p);
      ResultMapHas(init, id, p);
    }
  }

  lemma {:induction false} ResultMapFrom(ms: seq<AgentMessage>, id: string) returns (p: nat)
    requires id in ResultMap(ms)
    ensures IsResult(ms, id, p) && ms[p] == ResultMap(ms)[id]
  {
    var last := ms[|ms| - 1];
    if last.ToolResultMessage? && last.toolCallId == id {
      p := |ms| - 1;
    } else {
      p := ResultMapFrom(ms[..|ms| - 1], id);
    }
  }

  // ---------------------------------------------------------- the canonical form

  lemma ChosenIsReply(ms: seq<AgentMessage>, k: Key)
    requires FreshCalls(ms) && SingleResults(ms) && IsKey(ms, k)
    ensures Chosen(ms, Match(ms), k) == Reply(ResultMap(ms), CallAt(ms, k))
  {
    hide CallsOf, Match, IsInterruption, FreshCalls, SingleResults;
    var st, id := Match(ms), CallAt(ms, k).id;
    MatchFinished(ms);
    if st.selected[k].Kept? {
      ResultMapHas(ms, id, st.selected[k].position);
    } else if id in ResultMap(ms) {
      var p := ResultMapFrom(ms, id);
      assert Exhausted(ms, st, k);
      var j :| Holds(st, j, p);
      FreshCallsInjective(ms, j, k);
    }
  }

  lemma {:induction false} CallResultsAreReplies(ms: seq<AgentMessage>, i: nat, n: nat)
    requires FreshCalls(ms) && SingleResults(ms) && i < |ms| && n <= |CallsOf(ms[i])|
    ensures CallResults(ms, Match(ms), i, n) == Replies(ResultMap(ms), CallsOf(ms[i])[..n])
  {
    hide CallsOf, Match, FreshCalls, SingleResults, Chosen, Reply;
    if n > 0 {
      CallResultsAreReplies(ms, i, n - 1);
      ChosenIsReply(ms, Key(i, n));
      assert CallsOf(ms[i])[..n][..n - 1] == CallsOf(ms[i])[..n - 1];
    }
  }

  lemma {:induction false} RebuiltIsCanon(ms: seq<AgentMessage>, n: nat)
    requires FreshCalls(ms) && SingleResults(ms) && n <= |ms|
    ensures Rebuilt(ms, Match(ms), n) == Canon(NonResults(ms[..n]), ResultMap(ms))
  {
    hide CallsOf, Match, FreshCalls, SingleResults, ResultMap;
    if n > 0 {
      RebuiltIsCanon(ms, n - 1);
      assert ms[..n][..n - 1] == ms[..n - 1];
      if !ms[n - 1].ToolResultMessage? {
        var spine := NonResults(ms[..n]);
        assert spine[..|spine| - 1] == NonResults(ms[..n - 1]) && spine[|spine| - 1] == ms[n - 1];
        CallResultsAreReplies(ms, n - 1, |CallsOf(ms[n - 1])|);
        assert CallsOf(ms[n - 1])[..|CallsOf(ms[n - 1])|] == CallsOf(ms[n - 1]);
      }
    }
  }

  /** Repair is the canonical form of the transcript's view. */
  lemma RepairIsCanon(ms: seq<AgentMessage>)
    requires FreshCalls(ms) && SingleResults(ms)
    ensures Repair(ms).messages == Canon(NonResults(ms), ResultMap(ms))
  {
    RebuiltIsCanon(ms, |ms|);
    assert ms[..|ms|] == ms;
  }

  // ----------------------------------------------------- dropping failed turns

  lemma {:induction false} ReplayableView(ms: seq<AgentMessage>)
    ensures NonResults(Replayable(ms)) == Replayable(NonResults(ms))
    ensures ResultMap(Replayable(ms)) == ResultMap(ms)
    ensures CallIdSet(Replayable(ms)) == CallIdSet(ms)
    ensures SingleResults(ms) ==> SingleResults(Replayable(ms))
    ensures FreshCalls(ms) ==> FreshCalls(Replayable(ms))
  {
    hide CallsOf;
    if ms != [] {
      var init, last := ms[..|ms| - 1], ms[|ms| - 1];
      ReplayableView(init);
      if EmptyFailedTurn(last) {
        FailedTurnHasNoCalls(last);
        assert (NonResults(init) + [last])[..|NonResults(init)|] == NonResults(init);
      } else {
        assert (Replayable(init) + [last])[..|Replayable(init)|] == Replayable(init);
        assert (NonResults(init) + [last])[..|NonResults(init)|] == NonResults(init);
      }
    }
  }

  lemma FailedTurnHasNoCalls(m: AgentMessage)
    requires EmptyFailedTurn(m)
    ensures CallsOf(m) == []
  {
  }

  /** The provider context is a function of the view: two transcripts that agree
      on the non-result messages and on each id's result are shown alike. */
  lemma ContextFromView(a: seq<AgentMessage>, b: seq<AgentMessage>)
    requires FreshCalls(a) && SingleResults(a) && FreshCalls(b) && SingleResults(b)
    requires ViewOf(a) == ViewOf(b)
    ensures ProviderContext(a) == ProviderContext(b)
  {
    hide CallsOf, Repair, FreshCalls, SingleResults, Replayable, NonResults, ResultMap;
    ReplayableView(a);
    ReplayableView(b);
    RepairIsCanon(Replayable(a));
    RepairIsCanon(Replayable(b));
  }
}
