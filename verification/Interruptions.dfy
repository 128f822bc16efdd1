/** The harness's append-repair as it is written, over calls in order; what it
    appends depends only on what a provider can tell apart. */
module Interruptions {
  import opened Messages
  import opened ToolMatching
  import opened ToolHistory
  import opened RepairCanonical
  import opened RepairAppend

  /** Every tool call of a transcript, in order. */
  function AllCalls(ms: seq<AgentMessage>): seq<ToolCall> {
    if ms == [] then [] else AllCalls(ms[..|ms| - 1]) + CallsOf(ms[|ms| - 1])
  }

  /** One interruption per id that has no result yet. */
  function InterruptionsFor(calls: seq<ToolCall>, answers: map<string, AgentMessage>): seq<AgentMessage> {
    if calls == [] then []
    else
      var before, call := InterruptionsFor(calls[..|calls| - 1], answers), calls[|calls| - 1];
      if call.id in answers || call.id in ResultMap(before) then before else before + [Interruption(call)]
  }

  /** The first n keys name the calls of the first messages, in order. */
  lemma {:induction false} KeysNameCalls(ms: seq<AgentMessage>, n: nat)
    requires n <= |ms|
    ensures |KeysBelow(ms, n)| == |AllCalls(ms[..n])|
    ensures forall j :: 0 <= j < |KeysBelow(ms, n)| ==>
              IsKey(ms, KeysBelow(ms, n)[j]) && CallAt(ms, KeysBelow(ms, n)[j]) == AllCalls(ms[..n])[j]
  {
    hide CallsOf;
    if n > 0 {
      KeysNameCalls(ms, n - 1);
      KeysAreKeys(ms, n);
      assert ms[..n][..n - 1] == ms[..n - 1];
      MessageKeysAt(n - 1, |CallsOf(ms[n - 1])|);
    }
  }

  lemma {:induction false} AppendedAreInterruptions(ms: seq<AgentMessage>, n: nat)
    requires n <= |AllCalls(ms)| && n <= |Keys(ms)| && AreKeys(ms, Keys(ms))
    ensures Appended(ms, Keys(ms), n) == InterruptionsFor(AllCalls(ms)[..n], ResultMap(ms))
  {
    hide CallsOf, AllCalls, KeysBelow;
    if n > 0 {
      AppendedAreInterruptions(ms, n - 1);
      KeyNamesCall(ms, n - 1);
      assert AllCalls(ms)[..n][..n - 1] == AllCalls(ms)[..n - 1];
    }
  }

  lemma KeyNamesCall(ms: seq<AgentMessage>, j: nat)
    requires j < |Keys(ms)| && j < |AllCalls(ms)|
    ensures IsKey(ms, Keys(ms)[j]) && CallAt(ms, Keys(ms)[j]) == AllCalls(ms)[j]
  {
    KeysNameCalls(ms, |ms|);
    assert ms[..|ms|] == ms;
  }

  lemma AppendedAllIs(ms: seq<AgentMessage>)
    ensures AppendedAll(ms) == InterruptionsFor(AllCalls(ms), ResultMap(ms))
  {
    KeysNameCalls(ms, |ms|);
    KeysAreKeys(ms, |ms|);
    assert ms[..|ms|] == ms;
    AppendedAreInterruptions(ms, |AllCalls(ms)|);
    assert AllCalls(ms)[..|AllCalls(ms)|] == AllCalls(ms);
  }

  lemma {:induction false} CallsOfSpine(ms: seq<AgentMessage>)
    ensures AllCalls(NonResults(ms)) == AllCalls(ms)
  {
    hide CallsOf;
    if ms != [] {
      var init, last := ms[..|ms| - 1], ms[|ms| - 1];
      CallsOfSpine(init);
      if last.ToolResultMessage? {
        ResultsHaveNoCalls(last);
      } else {
        assert (NonResults(init) + [last])[..|NonResults(init)|] == NonResults(init);
      }
    }
  }

  /** Transcripts that look alike are repaired with the same results, in the same order. */
  lemma SameInterruptions(a: seq<AgentMessage>, b: seq<AgentMessage>)
    requires ViewOf(a) == ViewOf(b)
    ensures AppendedAll(a) == AppendedAll(b)
  {
    CallsOfSpine(a);
    CallsOfSpine(b);
    AppendedAllIs(a);
    AppendedAllIs(b);
  }

  /** `_append_interrupted_tool_results`, on a copy of the history. */
  method AppendInterruptedResults(messages: seq<AgentMessage>) returns (repaired: seq<AgentMessage>)
    ensures repaired == AppendInterrupted(messages)
  {
    hide CallsOf;
    var returned: set<string> := {};
    for i := 0 to |messages|
      invariant returned == ResultMap(messages[..i]).Keys
    {
      assert messages[..i + 1][..i] == messages[..i];
      if messages[i].ToolResultMessage? { returned := returned + {messages[i].toolCallId}; }
    }
    assert messages[..|messages|] == messages;
    ghost var answers := ResultMap(messages);
    ghost var appended: seq<AgentMessage> := [];
    repaired := messages;
    for i := 0 to |messages|
      invariant appended == InterruptionsFor(AllCalls(messages[..i]), answers)
      invariant repaired == messages + appended && returned == answers.Keys + ResultMap(appended).Keys
    {
      assert messages[..i + 1][..i] == messages[..i];
      var calls := CallsOf(messages[i]);
      ghost var earlier := AllCalls(messages[..i]);
      assert earlier + [] == earlier;
      for j := 0 to |calls|
        invariant appended == InterruptionsFor(earlier + calls[..j], answers)
        invariant repaired == messages + appended && returned == answers.Keys + ResultMap(appended).Keys
      {
        assert (earlier + calls[..j + 1])[..|earlier| + j] == earlier + calls[..j];
        if calls[j].id !in returned {
          returned := returned + {calls[j].id};
          repaired := repaired + [Interruption(calls[j])];
          assert (appended + [Interruption(calls[j])])[..|appended|] == appended;
          appended := appended + [Interruption(calls[j])];
        }
      }
      assert calls[..|calls|] == calls;
    }
    AppendedAllIs(messages);
  }
}
