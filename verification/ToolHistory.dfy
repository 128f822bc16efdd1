/** `repair_tool_history` and `provider_context`: the repaired transcript, its
    counters, and the loop that computes them. */
module ToolHistory {
  import opened Messages
  import opened ToolMatching

  datatype ToolHistoryRepair = ToolHistoryRepair(
    messages: seq<AgentMessage>,
    changed: bool,
    synthesizedResults: nat,
    droppedOrphanResults: nat,
    droppedDuplicateResults: nat,
    reorderedResults: nat)

  /** The result message a matching gives the call at k. */
  function Chosen(ms: seq<AgentMessage>, st: Matching, k: Key): AgentMessage
    requires IsKey(ms, k)
  {
    if k in st.selected && st.selected[k].Kept? && st.selected[k].position < |ms|
    then ms[st.selected[k].position]
    else Interruption(CallAt(ms, k))
  }

  /** The results for the first n calls of message i, in call order. */
  function CallResults(ms: seq<AgentMessage>, st: Matching, i: nat, n: nat): seq<AgentMessage>
    requires i < |ms| && n <= |CallsOf(ms[i])|
  {
    if n == 0 then [] else CallResults(ms, st, i, n - 1) + [Chosen(ms, st, Key(i, n))]
  }

  /** The repaired form of the first n messages. */
  function Rebuilt(ms: seq<AgentMessage>, st: Matching, n: nat): seq<AgentMessage>
    requires n <= |ms|
  {
    if n == 0 then []
    else if ms[n - 1].ToolResultMessage? then Rebuilt(ms, st, n - 1)
    else Rebuilt(ms, st, n - 1) + [ms[n - 1]] + CallResults(ms, st, n - 1, |CallsOf(ms[n - 1])|)
  }

  function SynthesizedKeys(st: Matching): set<Key> {
    set k | k in st.selected && st.selected[k].Synthesized?
  }

  predicate Moved(st: Matching, k: Key) {
    k in st.selected && st.selected[k].Kept? && st.selected[k].position != Expected(k)
  }

  function MovedKeys(st: Matching): set<Key> {
    set k | k in st.selected && Moved(st, k)
  }

  function CallIds(ms: seq<AgentMessage>): set<string> {
    set k | k in Keys(ms) :: (assert IsKey(ms, k); CallAt(ms, k).id)
  }

  /** Positions of results no call keeps. */
  function Dropped(ms: seq<AgentMessage>, st: Matching): set<nat> {
    set p: nat | 0 <= p < |ms| && ms[p].ToolResultMessage? && p !in st.used
  }

  function Orphans(ms: seq<AgentMessage>, st: Matching): set<nat> {
    set p | p in Dropped(ms, st) && ms[p].toolCallId !in CallIds(ms)
  }

  function Duplicates(ms: seq<AgentMessage>, st: Matching): set<nat> {
    set p | p in Dropped(ms, st) && ms[p].toolCallId in CallIds(ms)
  }

  function Repair(ms: seq<AgentMessage>): ToolHistoryRepair {
    var st := Match(ms);
    var repaired := Rebuilt(ms, st, |ms|);
    ToolHistoryRepair(
      repaired, repaired != ms,
      |SynthesizedKeys(st)|, |Orphans(ms, st)|, |Duplicates(ms, st)|, |MovedKeys(st)|)
  }

  /** An empty failed or aborted turn, kept durably but never shown to a provider. */
  predicate EmptyFailedTurn(m: AgentMessage) {
    m.AssistantMessage? && (m.stopReason.Error? || m.stopReason.Aborted?) && m.blocks == []
  }

  function Replayable(ms: seq<AgentMessage>): seq<AgentMessage> {
    if ms == [] then []
    else if EmptyFailedTurn(ms[|ms| - 1]) then Replayable(ms[..|ms| - 1])
    else Replayable(ms[..|ms| - 1]) + [ms[|ms| - 1]]
  }

  function ProviderContext(ms: seq<AgentMessage>): seq<AgentMessage> {
    Repair(Replayable(ms)).messages
  }

  // ------------------------------------------------------------- the loops

  function Get(m: map<string, seq<nat>>, id: string): seq<nat> {
    if id in m then m[id] else []
  }

  method CallOccurrences(ms: seq<AgentMessage>) returns (occurrences: seq<Key>)
    ensures occurrences == Keys(ms)
  {
    hide CallsOf;
    occurrences := [];
    for i := 0 to |ms|
      invariant occurrences == KeysBelow(ms, i)
    {
      var calls := CallsOf(ms[i]);
      for offset := 0 to |calls|
        invariant occurrences == KeysBelow(ms, i) + MessageKeys(i, offset)
      {
        occurrences := occurrences + [Key(i, offset + 1)];
      }
    }
  }

  method ResultsById(ms: seq<AgentMessage>) returns (resultsById: map<string, seq<nat>>)
    ensures forall id :: Get(resultsById, id) == ResultsFor(ms, id)
  {
    resultsById := map[];
    for i := 0 to |ms|
      invariant forall id :: Get(resultsById, id) == ResultsBelow(ms, id, i)
    {
      if ms[i].ToolResultMessage? {
        var id := ms[i].toolCallId;
        ghost var before := resultsById;
        resultsById := resultsById[id := Get(resultsById, id) + [i]];
        forall other ensures Get(resultsById, other) == ResultsBelow(ms, other, i + 1) {
          assert Get(before, other) == ResultsBelow(ms, other, i);
        }
      }
    }
  }

  method ReservePass(ms: seq<AgentMessage>, occurrences: seq<Key>) returns (st: Matching)
    requires AreKeys(ms, occurrences)
    ensures st == Reserved(ms, occurrences, |occurrences|)
  {
    hide CallsOf;
    var selected: map<Key, Selection>, used: set<nat> := map[], {};
    for i := 0 to |occurrences|
      invariant Matching(selected, used) == Reserved(ms, occurrences, i)
    {
      var k := occurrences[i];
      var expected := Expected(k);
      if expected < |ms| {
        var candidate := ms[expected];
        if candidate.ToolResultMessage? && candidate.toolCallId == CallAt(ms, k).id && expected !in used {
          selected := selected[k := Kept(expected)];
          used := used + {expected};
        }
      }
    }
    st := Matching(selected, used);
  }

  lemma SynthesizedAfter(st: Matching, k: Key, s: Selection, used: set<nat>)
    requires k in st.selected ==> st.selected[k].Kept? && s.Kept?
    ensures SynthesizedKeys(Matching(st.selected[k := s], used))
            == SynthesizedKeys(st) + (if s.Synthesized? then {k} else {})
  {
  }

  /** Pass 2, with the count of results it had to synthesize. */
  method AssignPass(ms: seq<AgentMessage>, occurrences: seq<Key>, resultsById: map<string, seq<nat>>,
                    reserved: Matching)
    returns (st: Matching, synthesized: nat)
    requires AreKeys(ms, occurrences) && reserved == Reserved(ms, occurrences, |occurrences|)
    requires forall id :: Get(resultsById, id) == ResultsFor(ms, id)
    requires SynthesizedKeys(reserved) == {}
    ensures st == Assigned(ms, occurrences, |occurrences|) && synthesized == |SynthesizedKeys(st)|
  {
    hide CallsOf, IsInterruption, SynthesizedKeys;
    st, synthesized := reserved, 0;
    for i := 0 to |occurrences|
      invariant st == Assigned(ms, occurrences, i)
      invariant synthesized == |SynthesizedKeys(st)|
      invariant forall k :: k in SynthesizedKeys(st) ==> k in st.selected
    {
      var k := occurrences[i];
      if k !in st.selected {
        ghost var before := st;
        var candidates := Unused(Get(resultsById, CallAt(ms, k).id), st.used);
        if candidates != [] {
          var after := After(candidates, k.message);
          var pool := if after != [] then after else candidates;
          var best := FirstGenuine(ms, pool);
          var position := if best.Some? then best.value else pool[0];
          st := Matching(st.selected[k := Kept(position)], st.used + {position});
          SynthesizedAfter(before, k, Kept(position), st.used);
        } else {
          st := st.(selected := st.selected[k := Synthesized]);
          synthesized := synthesized + 1;
          SynthesizedAfter(before, k, Synthesized, st.used);
        }
      }
    }
  }

  method UpgradePass(ms: seq<AgentMessage>, occurrences: seq<Key>, resultsById: map<string, seq<nat>>, filled: Matching)
    returns (st: Matching)
    requires AreKeys(ms, occurrences) && filled == Assigned(ms, occurrences, |occurrences|)
    requires forall id :: Get(resultsById, id) == ResultsFor(ms, id)
    ensures st == Upgraded(ms, occurrences, |occurrences|) && SynthesizedKeys(st) == SynthesizedKeys(filled)
  {
    hide CallsOf, IsInterruption, SynthesizedKeys;
    st := filled;
    for i := 0 to |occurrences|
      invariant st == Upgraded(ms, occurrences, i)
      invariant SynthesizedKeys(st) == SynthesizedKeys(filled)
    {
      var k := occurrences[i];
      if k in st.selected && st.selected[k].Kept? {
        var position := st.selected[k].position;
        if position < |ms| && IsInterruption(ms[position]) {
          var replacement := FirstGenuine(ms, Unused(Get(resultsById, CallAt(ms, k).id), st.used));
          if replacement.Some? {
            var used := st.used - {position} + {replacement.value};
            SynthesizedAfter(st, k, Kept(replacement.value), used);
            st := Matching(st.selected[k := Kept(replacement.value)], used);
          }
        }
      }
    }
  }

  /** The moved keys of the messages before i and the first n calls of message i. */
  ghost function MovedBelow(st: Matching, i: nat, n: nat): set<Key> {
    set k | k in st.selected && Moved(st, k) && (k.message < i || (k.message == i && k.offset <= n))
  }

  lemma MovedBelowStep(ms: seq<AgentMessage>, st: Matching, i: nat, n: nat)
    requires forall k :: k in st.selected <==> IsKey(ms, k)
    requires i < |ms| && n < |CallsOf(ms[i])|
    ensures MovedBelow(st, i, n + 1)
            == MovedBelow(st, i, n) + (if Moved(st, Key(i, n + 1)) then {Key(i, n + 1)} else {})
    ensures Key(i, n + 1) !in MovedBelow(st, i, n)
  {
  }

  lemma MovedBelowNext(ms: seq<AgentMessage>, st: Matching, i: nat)
    requires forall k :: k in st.selected <==> IsKey(ms, k)
    requires i < |ms|
    ensures MovedBelow(st, i + 1, 0) == MovedBelow(st, i, |CallsOf(ms[i])|)
  {
    hide CallsOf;
  }

  lemma MovedBelowAll(ms: seq<AgentMessage>, st: Matching)
    requires forall k :: k in st.selected <==> IsKey(ms, k)
    ensures MovedBelow(st, 0, 0) == {} && MovedBelow(st, |ms|, 0) == MovedKeys(st)
  {
    hide CallsOf;
  }

  method RebuildMessages(ms: seq<AgentMessage>, st: Matching) returns (repaired: seq<AgentMessage>, reordered: nat)
    requires forall k :: k in st.selected <==> IsKey(ms, k)
    ensures repaired == Rebuilt(ms, st, |ms|) && reordered == |MovedKeys(st)|
  {
    hide CallsOf, MovedBelow, MovedKeys, Chosen, Moved;
    MovedBelowAll(ms, st);
    repaired, reordered := [], 0;
    for i := 0 to |ms|
      invariant repaired == Rebuilt(ms, st, i)
      invariant reordered == |MovedBelow(st, i, 0)|
    {
      MovedBelowNext(ms, st, i);
      var message := ms[i];
      if !message.ToolResultMessage? {
        repaired := repaired + [message];
        var calls := CallsOf(message);
        for offset := 0 to |calls|
          invariant repaired == Rebuilt(ms, st, i) + [message] + CallResults(ms, st, i, offset)
          invariant reordered == |MovedBelow(st, i, offset)|
        {
          MovedBelowStep(ms, st, i, offset);
          var k := Key(i, offset + 1);
          repaired := repaired + [Chosen(ms, st, k)];
          if Moved(st, k) {
            reordered := reordered + 1;
          }
        }
      } else {
        ResultsHaveNoCalls(message);
      }
    }
  }

  lemma ResultsHaveNoCalls(m: AgentMessage)
    requires m.ToolResultMessage?
    ensures CallsOf(m) == []
  {
  }

  method RepairToolHistory(ms: seq<AgentMessage>) returns (r: ToolHistoryRepair)
    ensures r == Repair(ms)
  {
    var occurrences := CallOccurrences(ms);
    var resultsById := ResultsById(ms);
    var reserved := ReservePass(ms, occurrences);
    assert SynthesizedKeys(reserved) == {} by { KeysDistinct(ms, |ms|); ReservedSound(ms, occurrences, |occurrences|); }
    var filled, synthesized := AssignPass(ms, occurrences, resultsById, reserved);
    var st := UpgradePass(ms, occurrences, resultsById, filled);
    assert forall k :: k in st.selected <==> IsKey(ms, k) by { MatchFinished(ms); }
    var repaired, reordered := RebuildMessages(ms, st);
    r := ToolHistoryRepair(
      repaired, repaired != ms, synthesized, |Orphans(ms, st)|, |Duplicates(ms, st)|, reordered);
  }
}
