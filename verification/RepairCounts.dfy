/** Repair is a maximum matching, and its counters are exact, id by id. */
module RepairCounts {
  import opened Messages
  import opened ToolMatching
  import opened ToolHistory

  function Min(a: nat, b: nat): nat { if a <= b then a else b }

  function Monus(a: nat, b: nat): nat { if a <= b then 0 else a - b }

  ghost function CallKeys(ms: seq<AgentMessage>, id: string): set<Key> {
    set k | k in Keys(ms) && IsKey(ms, k) && CallAt(ms, k).id == id
  }

  ghost function ResultsOf(ms: seq<AgentMessage>, id: string): set<nat> {
    set p: nat | 0 <= p < |ms| && IsResult(ms, id, p)
  }

  ghost function GenuineOf(ms: seq<AgentMessage>, id: string): set<nat> {
    set p | p in ResultsOf(ms, id) && !IsInterruption(ms[p])
  }

  ghost function KeptKeys(ms: seq<AgentMessage>, st: Matching, id: string): set<Key> {
    set k | k in CallKeys(ms, id) && k in st.selected && st.selected[k].Kept?
  }

  ghost function GenuineKeys(ms: seq<AgentMessage>, st: Matching, id: string): set<Key> {
    set k | k in KeptKeys(ms, st, id) && st.selected[k].position < |ms| && !IsInterruption(ms[st.selected[k].position])
  }

  ghost function Positions(st: Matching, ks: set<Key>): set<nat> {
    set k | k in ks && k in st.selected && st.selected[k].Kept? :: st.selected[k].position
  }

  /** Kept keys and their positions are equally many. */
  lemma {:induction false} PositionsCount(st: Matching, ks: set<Key>)
    requires Injective(st)
    requires forall k :: k in ks ==> k in st.selected && st.selected[k].Kept?
    ensures |Positions(st, ks)| == |ks|
  {
    if ks != {} {
      var k :| k in ks;
      var p := st.selected[k].position;
      PositionsCount(st, ks - {k});
      assert Holds(st, k, p);
      forall j | j in ks - {k} ensures st.selected[j].position != p {
        assert Holds(st, j, st.selected[j].position);
      }
      assert Positions(st, ks) == Positions(st, ks - {k}) + {p};
    }
  }

  lemma {:induction false} SubsetCount<T>(a: set<T>, b: set<T>)
    requires a <= b
    ensures |a| <= |b| && |b - a| == |b| - |a|
  {
    assert b == a + (b - a);
  }

  lemma KeyMembership(ms: seq<AgentMessage>, k: Key)
    ensures IsKey(ms, k) <==> k in Keys(ms)
  {
    if IsKey(ms, k) { KeysComplete(ms, |ms|, k); }
  }

  lemma KeptPositionsAreResults(ms: seq<AgentMessage>, st: Matching, id: string)
    requires Typed(ms, st)
    ensures Positions(st, KeptKeys(ms, st, id)) <= ResultsOf(ms, id)
    ensures Positions(st, GenuineKeys(ms, st, id)) <= GenuineOf(ms, id)
  {
    hide IsInterruption, CallsOf;
    forall k | k in KeptKeys(ms, st, id) ensures st.selected[k].position in ResultsOf(ms, id) {
      assert IsResult(ms, CallAt(ms, k).id, st.selected[k].position);
    }
  }

  /** A sound matching keeps no more than there are calls and results, nor more
      genuine results than there are calls and genuine results. */
  lemma KeptAtMost(ms: seq<AgentMessage>, st: Matching, id: string)
    requires Sound(ms, st)
    ensures |KeptKeys(ms, st, id)| <= Min(|CallKeys(ms, id)|, |ResultsOf(ms, id)|)
    ensures |GenuineKeys(ms, st, id)| <= Min(|CallKeys(ms, id)|, |GenuineOf(ms, id)|)
  {
    var kept, genuine := KeptKeys(ms, st, id), GenuineKeys(ms, st, id);
    KeptPositionsAreResults(ms, st, id);
    PositionsCount(st, kept);
    PositionsCount(st, genuine);
    assert kept <= CallKeys(ms, id) && genuine <= CallKeys(ms, id);
    hide *;
    SubsetCount(kept, CallKeys(ms, id));
    SubsetCount(genuine, CallKeys(ms, id));
    SubsetCount(Positions(st, kept), ResultsOf(ms, id));
    SubsetCount(Positions(st, genuine), GenuineOf(ms, id));
    MinIsGlb(|kept|, |CallKeys(ms, id)|, |ResultsOf(ms, id)|);
    MinIsGlb(|genuine|, |CallKeys(ms, id)|, |GenuineOf(ms, id)|);
  }

  lemma MinIsGlb(n: nat, a: nat, b: nat)
    requires n <= a && n <= b
    ensures n <= Min(a, b)
  {
  }

  /** The used results for id are exactly those its kept keys hold. */
  lemma UsedAreKept(ms: seq<AgentMessage>, st: Matching, id: string)
    requires Sound(ms, st)
    ensures Positions(st, KeptKeys(ms, st, id)) == set p | p in ResultsOf(ms, id) && p in st.used
    ensures Positions(st, GenuineKeys(ms, st, id)) == set p | p in GenuineOf(ms, id) && p in st.used
  {
    hide IsInterruption, CallsOf;
    forall p | p in ResultsOf(ms, id) && p in st.used
      ensures p in Positions(st, KeptKeys(ms, st, id))
      ensures !IsInterruption(ms[p]) ==> p in Positions(st, GenuineKeys(ms, st, id))
    {
      var k :| Holds(st, k, p);
      KeyMembership(ms, k);
      assert k in KeptKeys(ms, st, id);
    }
  }

  /** For every id: the results kept are as many as calls and results allow, and
      so are the genuine ones; the rest of the calls are synthesized. */
  lemma RepairKeepsMaximum(ms: seq<AgentMessage>, id: string)
    ensures |KeptKeys(ms, Match(ms), id)| == Min(|CallKeys(ms, id)|, |ResultsOf(ms, id)|)
    ensures |GenuineKeys(ms, Match(ms), id)| == Min(|CallKeys(ms, id)|, |GenuineOf(ms, id)|)
  {
    hide IsInterruption, CallsOf, Match;
    var st := Match(ms);
    MatchFinished(ms);
    KeptAtMost(ms, st, id);
    UsedAreKept(ms, st, id);
    var kept, genuine, calls := KeptKeys(ms, st, id), GenuineKeys(ms, st, id), CallKeys(ms, id);
    PositionsCount(st, kept);
    PositionsCount(st, genuine);
    if kept != calls {
      var k :| k in calls && k !in kept;
      assert st.selected[k].Synthesized? && Exhausted(ms, st, k);
      assert Positions(st, kept) == ResultsOf(ms, id);
    }
    if genuine != calls {
      var k :| k in calls && k !in genuine;
      assert Settled(ms, st, k) && (st.selected[k].Synthesized? ==> Exhausted(ms, st, k));
      assert Positions(st, genuine) == GenuineOf(ms, id);
    }
  }

  /** No sound matching keeps more results, or more genuine results, for any id. */
  lemma RepairIsMaximum(ms: seq<AgentMessage>, other: Matching, id: string)
    requires Sound(ms, other)
    ensures |KeptKeys(ms, other, id)| <= |KeptKeys(ms, Match(ms), id)|
    ensures |GenuineKeys(ms, other, id)| <= |GenuineKeys(ms, Match(ms), id)|
  {
    KeptAtMost(ms, other, id);
    RepairKeepsMaximum(ms, id);
  }

  /** The slices of the counted sets that belong to one id. */
  ghost function SynthesizedOf(ms: seq<AgentMessage>, id: string): set<Key> {
    set k | k in SynthesizedKeys(Match(ms)) && IsKey(ms, k) && CallAt(ms, k).id == id
  }

  ghost function OrphansOf(ms: seq<AgentMessage>, id: string): set<nat> {
    set p | p in Orphans(ms, Match(ms)) && ms[p].toolCallId == id
  }

  ghost function DuplicatesOf(ms: seq<AgentMessage>, id: string): set<nat> {
    set p | p in Duplicates(ms, Match(ms)) && ms[p].toolCallId == id
  }

  lemma CallIdsAre(ms: seq<AgentMessage>, id: string)
    ensures id in CallIds(ms) <==> CallKeys(ms, id) != {}
  {
    hide CallsOf;
    if id in CallIds(ms) {
      var k :| k in Keys(ms) && IsKey(ms, k) && CallAt(ms, k).id == id;
      assert k in CallKeys(ms, id);
    }
    if CallKeys(ms, id) != {} {
      var k :| k in CallKeys(ms, id);
      assert k in Keys(ms) && CallAt(ms, k).id == id;
    }
  }

  /** What is synthesized and dropped for an id, in terms of its kept keys. */
  lemma Slices(ms: seq<AgentMessage>, id: string)
    ensures var st := Match(ms);
            var dropped := ResultsOf(ms, id) - Positions(st, KeptKeys(ms, st, id));
            && SynthesizedOf(ms, id) == CallKeys(ms, id) - KeptKeys(ms, st, id)
            && DuplicatesOf(ms, id) == (if CallKeys(ms, id) == {} then {} else dropped)
            && OrphansOf(ms, id) == (if CallKeys(ms, id) == {} then dropped else {})
  {
    hide IsInterruption, CallsOf, Match, CallIds;
    var st := Match(ms);
    MatchFinished(ms);
    UsedAreKept(ms, st, id);
    CallIdsAre(ms, id);
    forall k ensures IsKey(ms, k) <==> k in Keys(ms) { KeyMembership(ms, k); }
    assert forall p :: p in ResultsOf(ms, id) && p !in st.used <==> p in Dropped(ms, st) && ms[p].toolCallId == id;
  }

  lemma CountersAreExact(ms: seq<AgentMessage>, id: string)
    ensures |SynthesizedOf(ms, id)| == Monus(|CallKeys(ms, id)|, |ResultsOf(ms, id)|)
    ensures |DuplicatesOf(ms, id)| ==
            if CallKeys(ms, id) == {} then 0
            else Monus(|ResultsOf(ms, id)|, |CallKeys(ms, id)|)
    ensures |OrphansOf(ms, id)| == if CallKeys(ms, id) == {} then |ResultsOf(ms, id)| else 0
  {
    hide IsInterruption, CallsOf, Match, CallKeys, ResultsOf, SynthesizedOf, DuplicatesOf, OrphansOf, Positions, Sound,
      Finished;
    var st := Match(ms);
    assert Sound(ms, st) && Injective(st) by { MatchIsSound(ms); }
    Slices(ms, id);
    RepairKeepsMaximum(ms, id);
    var kept := KeptKeys(ms, st, id);
    PositionsCount(st, kept);
    SubsetCount(kept, CallKeys(ms, id));
    assert Positions(st, kept) <= ResultsOf(ms, id) by { MatchIsSound(ms); KeptPositionsAreResults(ms, st, id); }
    SubsetCount(Positions(st, kept), ResultsOf(ms, id));
  }

  lemma MatchIsSound(ms: seq<AgentMessage>)
    ensures Sound(ms, Match(ms)) && Typed(ms, Match(ms)) && Injective(Match(ms))
  {
    MatchFinished(ms);
  }

  /** The report's totals are exactly the union of those slices. */
  lemma CountersCoverEveryId(ms: seq<AgentMessage>)
    ensures forall k :: k in SynthesizedKeys(Match(ms)) ==> IsKey(ms, k) && k in SynthesizedOf(ms, CallAt(ms, k).id)
    ensures forall p :: p in Orphans(ms, Match(ms)) ==> p in OrphansOf(ms, ms[p].toolCallId)
    ensures forall p :: p in Duplicates(ms, Match(ms)) ==> p in DuplicatesOf(ms, ms[p].toolCallId)
  {
    hide IsInterruption, CallsOf, Match, CallIds;
    MatchFinished(ms);
  }

  /** Nothing is synthesized exactly when no id has more calls than results. */
  lemma NothingSynthesizedIff(ms: seq<AgentMessage>)
    ensures Repair(ms).synthesizedResults == 0 <==> forall id :: |CallKeys(ms, id)| <= |ResultsOf(ms, id)|
  {
    hide IsInterruption, CallsOf, Match, CallIds;
    CountersCoverEveryId(ms);
    if Repair(ms).synthesizedResults == 0 {
      forall id ensures |CallKeys(ms, id)| <= |ResultsOf(ms, id)| {
        CountersAreExact(ms, id);
        assert SynthesizedKeys(Match(ms)) == {};
        assert SynthesizedOf(ms, id) == {};
      }
    } else {
      var k :| k in SynthesizedKeys(Match(ms));
      CountersAreExact(ms, CallAt(ms, k).id);
      assert k in SynthesizedOf(ms, CallAt(ms, k).id);
    }
  }
}
