/** The shape of a repaired transcript, and repair as a normal form. */
module RepairShape {
  import opened Messages
  import opened ToolMatching
  import opened ToolHistory

  /** One result per call, ids in call order. */
  ghost predicate Answers(rs: seq<AgentMessage>, calls: seq<ToolCall>) {
    |rs| == |calls| && forall j :: 0 <= j < |rs| ==> rs[j].ToolResultMessage? && rs[j].toolCallId == calls[j].id
  }

  /** The message at i is not a result and its calls are answered right behind it. */
  ghost predicate Answered(ms: seq<AgentMessage>, i: nat) {
    && i < |ms| && i + |CallsOf(ms[i])| < |ms|
    && !ms[i].ToolResultMessage?
    && Answers(ms[i + 1..i + 1 + |CallsOf(ms[i])|], CallsOf(ms[i]))
  }

  lemma AnsweredAt(ms: seq<AgentMessage>, i: nat, o: nat)
    requires Answered(ms, i) && 1 <= o <= |CallsOf(ms[i])|
    ensures IsResult(ms, CallsOf(ms[i])[o - 1].id, i + o)
  {
    hide CallsOf;
    assert ms[i + 1..i + 1 + |CallsOf(ms[i])|][o - 1] == ms[i + o];
  }

  /** From i on, the transcript is a run of answered messages and nothing else. */
  ghost predicate NormalFrom(ms: seq<AgentMessage>, i: nat)
    decreases |ms| - i
  {
    i == |ms| || (i < |ms| && Answered(ms, i) && NormalFrom(ms, i + 1 + |CallsOf(ms[i])|))
  }

  ghost predicate Normal(ms: seq<AgentMessage>) { NormalFrom(ms, 0) }

  lemma {:induction false} NormalAppend(a: seq<AgentMessage>, i: nat, m: AgentMessage, rs: seq<AgentMessage>)
    requires NormalFrom(a, i) && !m.ToolResultMessage? && Answers(rs, CallsOf(m))
    ensures NormalFrom(a + [m] + rs, i)
    decreases |a| - i
  {
    hide CallsOf, Answers;
    var b := a + [m] + rs;
    if i == |a| {
      assert b[i] == m && b[i + 1..i + 1 + |rs|] == rs;
      assert |rs| == |CallsOf(m)| by { AnswersLength(rs, CallsOf(m)); }
      assert NormalFrom(b, |b|);
    } else {
      var n := |CallsOf(a[i])|;
      assert b[i] == a[i] && b[i + 1..i + 1 + n] == a[i + 1..i + 1 + n];
      NormalAppend(a, i + 1 + n, m, rs);
    }
  }

  lemma AnswersLength(rs: seq<AgentMessage>, calls: seq<ToolCall>)
    requires Answers(rs, calls)
    ensures |rs| == |calls|
  {
  }

  lemma {:induction false} CallResultsAnswer(ms: seq<AgentMessage>, st: Matching, i: nat, n: nat)
    requires Typed(ms, st) && i < |ms| && n <= |CallsOf(ms[i])|
    ensures |CallResults(ms, st, i, n)| == n
    ensures forall j :: 0 <= j < n ==> CallResults(ms, st, i, n)[j] == Chosen(ms, st, Key(i, j + 1))
    ensures Answers(CallResults(ms, st, i, n), CallsOf(ms[i])[..n])
  {
    hide CallsOf;
    if n > 0 { CallResultsAnswer(ms, st, i, n - 1); }
  }

  lemma AllCallResultsAnswer(ms: seq<AgentMessage>, st: Matching, i: nat)
    requires Typed(ms, st) && i < |ms|
    ensures Answers(CallResults(ms, st, i, |CallsOf(ms[i])|), CallsOf(ms[i]))
  {
    CallResultsAnswer(ms, st, i, |CallsOf(ms[i])|);
    assert CallsOf(ms[i])[..|CallsOf(ms[i])|] == CallsOf(ms[i]);
  }

  /** Rebuilding answers every call in place. */
  lemma {:induction false} RebuiltNormal(ms: seq<AgentMessage>, st: Matching, n: nat)
    requires Typed(ms, st) && n <= |ms|
    ensures NormalFrom(Rebuilt(ms, st, n), 0)
  {
    hide CallsOf, Answers, Typed, NormalFrom;
    if n == 0 {
      EmptyNormal();
    } else {
      RebuiltNormal(ms, st, n - 1);
      if !ms[n - 1].ToolResultMessage? {
        AllCallResultsAnswer(ms, st, n - 1);
        NormalAppend(Rebuilt(ms, st, n - 1), 0, ms[n - 1], CallResults(ms, st, n - 1, |CallsOf(ms[n - 1])|));
      }
    }
  }

  /** Rebuilding keeps every non-result message, in order. */
  lemma {:induction false} RebuiltNonResults(ms: seq<AgentMessage>, st: Matching, n: nat)
    requires Typed(ms, st) && n <= |ms|
    ensures NonResults(Rebuilt(ms, st, n)) == NonResults(ms[..n])
  {
    hide CallsOf, Answers, Typed;
    if n > 0 {
      RebuiltNonResults(ms, st, n - 1);
      assert ms[..n][..n - 1] == ms[..n - 1];
      if !ms[n - 1].ToolResultMessage? {
        var results := CallResults(ms, st, n - 1, |CallsOf(ms[n - 1])|);
        AllCallResultsAnswer(ms, st, n - 1);
        OnlyResults(results, CallsOf(ms[n - 1]));
        NonResultsConcat(Rebuilt(ms, st, n - 1) + [ms[n - 1]], results);
      }
    }
  }

  lemma EmptyNormal()
    ensures NormalFrom([], 0)
  {
  }

  lemma {:induction false} OnlyResults(rs: seq<AgentMessage>, calls: seq<ToolCall>)
    requires Answers(rs, calls)
    ensures NonResults(rs) == []
  {
    if rs != [] { OnlyResults(rs[..|rs| - 1], calls[..|rs| - 1]); }
  }

  /** Every call of a repaired transcript is answered in place; nothing else moves. */
  lemma RepairOutputShape(ms: seq<AgentMessage>)
    ensures Normal(Repair(ms).messages)
    ensures NonResults(Repair(ms).messages) == NonResults(ms)
  {
    hide CallsOf, NormalFrom, Rebuilt, Match, Typed;
    assert Typed(ms, Match(ms)) by { TypedMatch(ms); }
    RebuiltNormal(ms, Match(ms), |ms|);
    RebuiltNonResults(ms, Match(ms), |ms|);
    assert ms[..|ms|] == ms;
  }

  lemma TypedMatch(ms: seq<AgentMessage>)
    ensures Typed(ms, Match(ms)) && Injective(Match(ms))
  {
    MatchFinished(ms);
  }

  // ------------------------------------------------- normal transcripts are fixed

  /** Every call has its result at its expected position. */
  ghost predicate AllInPlace(ms: seq<AgentMessage>) {
    forall k :: IsKey(ms, k) ==> IsResult(ms, CallAt(ms, k).id, Expected(k))
  }

  ghost predicate ExpectedBy(ms: seq<AgentMessage>, k: Key, p: nat) {
    IsKey(ms, k) && Expected(k) == p
  }

  /** Every result is expected by some call. */
  ghost predicate AllExpectedBySome(ms: seq<AgentMessage>) {
    forall p: nat :: p < |ms| && ms[p].ToolResultMessage? ==> exists k :: ExpectedBy(ms, k, p)
  }

  lemma {:induction false} NormalInPlace(ms: seq<AgentMessage>, i: nat)
    requires NormalFrom(ms, i)
    ensures forall k :: IsKey(ms, k) && k.message >= i ==> IsResult(ms, CallAt(ms, k).id, Expected(k))
    ensures forall p: nat :: i <= p < |ms| && ms[p].ToolResultMessage? ==> exists k :: ExpectedBy(ms, k, p)
    decreases |ms| - i
  {
    hide CallsOf, Answers;
    if i < |ms| {
      var next := i + 1 + |CallsOf(ms[i])|;
      NormalInPlace(ms, next);
      forall k | IsKey(ms, k) && k.message >= i ensures IsResult(ms, CallAt(ms, k).id, Expected(k)) {
        if i < k.message < next {
          AnsweredAt(ms, i, k.message - i);
          ResultsHaveNoCalls(ms[k.message]);
        } else if k.message == i {
          AnsweredAt(ms, i, k.offset);
        }
      }
      forall p: nat | i <= p < |ms| && ms[p].ToolResultMessage? ensures exists k :: ExpectedBy(ms, k, p) {
        if p < next { assert ExpectedBy(ms, Key(i, p - i), p); }
      }
    }
  }

  /** With every call answered in place, no two calls expect the same position. */
  lemma ExpectedInjective(ms: seq<AgentMessage>, j: Key, k: Key)
    requires AllInPlace(ms) && IsKey(ms, j) && IsKey(ms, k) && Expected(j) == Expected(k)
    ensures j == k
  {
    hide CallsOf;
    if j.message < k.message {
      var inner := Key(j.message, k.message - j.message);
      assert IsKey(ms, inner) && Expected(inner) == k.message;
      ResultsHaveNoCalls(ms[k.message]);
    } else if k.message < j.message {
      var inner := Key(k.message, j.message - k.message);
      assert IsKey(ms, inner) && Expected(inner) == j.message;
      ResultsHaveNoCalls(ms[j.message]);
    }
  }

  ghost predicate KeptInPlace(st: Matching, ks: seq<Key>, n: nat)
    requires n <= |ks|
  {
    forall j :: 0 <= j < n ==> ks[j] in st.selected && st.selected[ks[j]] == Kept(Expected(ks[j]))
  }

  ghost function ExpectedBelow(ks: seq<Key>, n: nat): set<nat>
    requires n <= |ks|
  {
    set j: nat | 0 <= j < n :: Expected(ks[j])
  }

  /** The first n keys are matched in place and nothing else is. */
  ghost predicate InPlace(st: Matching, ks: seq<Key>, n: nat)
    requires n <= |ks|
  {
    KeptInPlace(st, ks, n) && st.used == ExpectedBelow(ks, n)
  }

  lemma ReserveInPlace(ms: seq<AgentMessage>, st: Matching, ks: seq<Key>, n: nat)
    requires AreKeys(ms, ks) && Distinct(ks) && n < |ks| && AllInPlace(ms) && InPlace(st, ks, n)
    ensures InPlace(Reserve(ms, st, ks[n]), ks, n + 1)
  {
    hide CallsOf;
    var k := ks[n];
    assert Expected(k) !in st.used by {
      forall j: nat | 0 <= j < n ensures Expected(ks[j]) != Expected(k) {
        if Expected(ks[j]) == Expected(k) { ExpectedInjective(ms, ks[j], k); }
      }
    }
    assert IsResult(ms, CallAt(ms, k).id, Expected(k));
    var r := Reserve(ms, st, k);
    assert r == Matching(st.selected[k := Kept(Expected(k))], st.used + {Expected(k)});
    assert ExpectedBelow(ks, n + 1) == ExpectedBelow(ks, n) + {Expected(k)};
  }

  lemma {:induction false} ReservedInPlace(ms: seq<AgentMessage>, ks: seq<Key>, n: nat)
    requires AreKeys(ms, ks) && Distinct(ks) && n <= |ks| && AllInPlace(ms)
    ensures InPlace(Reserved(ms, ks, n), ks, n)
  {
    hide CallsOf, AllInPlace, Reserve;
    if n > 0 {
      ReservedInPlace(ms, ks, n - 1);
      ReserveInPlace(ms, Reserved(ms, ks, n - 1), ks, n - 1);
    } else {
      assert InPlace(Matching(map[], {}), ks, 0);
    }
  }

  lemma {:induction false} AssignedInPlace(ms: seq<AgentMessage>, ks: seq<Key>, n: nat)
    requires AreKeys(ms, ks) && n <= |ks| && KeptInPlace(Reserved(ms, ks, |ks|), ks, |ks|)
    ensures Assigned(ms, ks, n) == Reserved(ms, ks, |ks|)
  {
    hide CallsOf;
    if n > 0 { AssignedInPlace(ms, ks, n - 1); }
  }

  lemma {:induction false} NoneUnused(ps: seq<nat>, used: set<nat>)
    requires forall p :: p in ps ==> p in used
    ensures Unused(ps, used) == []
  {
    if ps != [] { NoneUnused(ps[1..], used); }
  }

  lemma {:induction false} UpgradedInPlace(ms: seq<AgentMessage>, ks: seq<Key>, n: nat)
    requires AreKeys(ms, ks) && n <= |ks|
    requires forall p: nat :: p < |ms| && ms[p].ToolResultMessage? ==> p in Assigned(ms, ks, |ks|).used
    ensures Upgraded(ms, ks, n) == Assigned(ms, ks, |ks|)
  {
    hide CallsOf, IsInterruption, Assigned;
    if n > 0 {
      UpgradedInPlace(ms, ks, n - 1);
      var k := ks[n - 1];
      ResultsBelowAre(ms, CallAt(ms, k).id, |ms|);
      NoneUnused(ResultsFor(ms, CallAt(ms, k).id), Assigned(ms, ks, |ks|).used);
    }
  }

  /** In place throughout: every key keeps its expected position and every result is used. */
  ghost predicate Aligned(ms: seq<AgentMessage>, st: Matching) {
    && (forall k :: k in st.selected <==> IsKey(ms, k))
    && (forall k :: k in st.selected ==> st.selected[k] == Kept(Expected(k)))
    && (forall p: nat :: p < |ms| && ms[p].ToolResultMessage? ==> p in st.used)
  }

  lemma InPlaceUsesAll(ms: seq<AgentMessage>, st: Matching)
    requires AllExpectedBySome(ms) && InPlace(st, Keys(ms), |Keys(ms)|)
    ensures forall p: nat :: p < |ms| && ms[p].ToolResultMessage? ==> p in st.used
  {
    hide CallsOf;
    forall p: nat | p < |ms| && ms[p].ToolResultMessage? ensures p in st.used {
      var k :| ExpectedBy(ms, k, p);
      KeysComplete(ms, |ms|, k);
      var j :| 0 <= j < |Keys(ms)| && Keys(ms)[j] == k;
      assert Expected(Keys(ms)[j]) == p;
    }
  }

  lemma InPlaceMatch(ms: seq<AgentMessage>)
    requires AllInPlace(ms) && AllExpectedBySome(ms)
    ensures Aligned(ms, Match(ms))
  {
    hide CallsOf, IsInterruption, AllInPlace, AllExpectedBySome, IsKey, Upgraded, Assigned, Reserved, Keys;
    var ks := Keys(ms);
    KeysAreDistinct(ms);
    ReservedInPlace(ms, ks, |ks|);
    AssignedInPlace(ms, ks, |ks|);
    var st := Reserved(ms, ks, |ks|);
    InPlaceUsesAll(ms, st);
    UpgradedInPlace(ms, ks, |ks|);
    MatchFinished(ms);
    ReservedSound(ms, ks, |ks|);
  }

  lemma KeysAreDistinct(ms: seq<AgentMessage>)
    ensures Distinct(Keys(ms))
  {
    KeysDistinct(ms, |ms|);
  }

  lemma {:induction false} RebuiltSkips(ms: seq<AgentMessage>, st: Matching, i: nat, n: nat)
    requires i + n <= |ms| && forall p :: i <= p < i + n ==> ms[p].ToolResultMessage?
    ensures Rebuilt(ms, st, i + n) == Rebuilt(ms, st, i)
  {
    hide CallsOf;
    if n > 0 { RebuiltSkips(ms, st, i, n - 1); }
  }

  lemma BlockFixed(ms: seq<AgentMessage>, st: Matching, i: nat)
    requires Answered(ms, i) && Typed(ms, st)
    requires forall k :: IsKey(ms, k) ==> k in st.selected && st.selected[k] == Kept(Expected(k))
    ensures CallResults(ms, st, i, |CallsOf(ms[i])|) == ms[i + 1..i + 1 + |CallsOf(ms[i])|]
  {
    hide CallsOf, Answers, Typed, CallResults, IsInterruption;
    var calls := CallsOf(ms[i]);
    CallResultsAnswer(ms, st, i, |calls|);
    var rs := CallResults(ms, st, i, |calls|);
    forall j | 0 <= j < |calls| ensures rs[j] == ms[i + 1 + j] {
      assert IsKey(ms, Key(i, j + 1));
      AnsweredAt(ms, i, j + 1);
    }
  }

  lemma {:induction false} RebuiltFixed(ms: seq<AgentMessage>, st: Matching, i: nat)
    requires NormalFrom(ms, i) && i <= |ms| && Typed(ms, st)
    requires forall k :: IsKey(ms, k) ==> k in st.selected && st.selected[k] == Kept(Expected(k))
    requires Rebuilt(ms, st, i) == ms[..i]
    ensures Rebuilt(ms, st, |ms|) == ms
    decreases |ms| - i
  {
    hide CallsOf, Answers, IsKey, Typed;
    if i < |ms| {
      var n := |CallsOf(ms[i])|;
      BlockFixed(ms, st, i);
      assert ms[..i] + [ms[i]] + ms[i + 1..i + 1 + n] == ms[..i + 1 + n];
      forall p | i + 1 <= p < i + 1 + n ensures ms[p].ToolResultMessage? { AnsweredAt(ms, i, p - i); }
      RebuiltSkips(ms, st, i + 1, n);
      RebuiltFixed(ms, st, i + 1 + n);
    }
  }

  ghost function Unchanged(ms: seq<AgentMessage>): ToolHistoryRepair {
    ToolHistoryRepair(ms, false, 0, 0, 0, 0)
  }

  /** A transcript already in normal form comes back unchanged, all counters zero. */
  lemma NormalIsFixed(ms: seq<AgentMessage>)
    requires Normal(ms)
    ensures Repair(ms) == Unchanged(ms)
  {
    hide CallsOf, Match, Rebuilt, Keys;
    NormalInPlace(ms, 0);
    var st := Match(ms);
    InPlaceMatch(ms);
    TypedMatch(ms);
    RebuiltFixed(ms, st, 0) by { RebuiltZero(ms, st); }
    assert SynthesizedKeys(st) == {};
    assert MovedKeys(st) == {};
    assert Dropped(ms, st) == {};
    assert Orphans(ms, st) == {} && Duplicates(ms, st) == {};
  }

  lemma RebuiltZero(ms: seq<AgentMessage>, st: Matching)
    ensures Rebuilt(ms, st, 0) == ms[..0]
  {
  }

  /** Repair is idempotent: its output is one of its own fixed points. */
  lemma RepairIdempotent(ms: seq<AgentMessage>)
    ensures Repair(Repair(ms).messages) == Unchanged(Repair(ms).messages)
  {
    hide *;
    RepairOutputShape(ms);
    NormalIsFixed(Repair(ms).messages);
  }

  ghost predicate AllCountersZero(r: ToolHistoryRepair) {
    r.synthesizedResults == 0 && r.droppedOrphanResults == 0 && r.droppedDuplicateResults == 0
      && r.reorderedResults == 0
  }

  lemma BlockInPlace(ms: seq<AgentMessage>, i: nat)
    requires AllInPlace(ms) && i < |ms| && !ms[i].ToolResultMessage?
    ensures Answered(ms, i)
    ensures forall j: nat :: i < j < i + 1 + |CallsOf(ms[i])| ==> CallsOf(ms[j]) == []
  {
    hide CallsOf;
    var calls := CallsOf(ms[i]);
    if |calls| > 0 { assert IsKey(ms, Key(i, |calls|)); }
    var rs := ms[i + 1..i + 1 + |calls|];
    forall j | 0 <= j < |rs| ensures rs[j].ToolResultMessage? && rs[j].toolCallId == calls[j].id
      && CallsOf(ms[i + 1 + j]) == [] {
      assert IsKey(ms, Key(i, j + 1));
      ResultsHaveNoCalls(ms[i + 1 + j]);
    }
    forall j: nat | i < j < i + 1 + |calls| ensures CallsOf(ms[j]) == [] {
      assert rs[j - i - 1].ToolResultMessage? && CallsOf(ms[i + 1 + (j - i - 1)]) == [];
    }
  }

  /** A transcript in place is normal: walk it block by block. */
  lemma {:induction false} InPlaceIsNormal(ms: seq<AgentMessage>, i: nat)
    requires AllInPlace(ms) && AllExpectedBySome(ms) && i <= |ms|
    requires forall j: nat :: j < i ==> j + |CallsOf(ms[j])| < i
    ensures NormalFrom(ms, i)
    decreases |ms| - i
  {
    hide CallsOf, AllInPlace, Answers;
    if i < |ms| {
      assert forall k: Key :: k.message < i && IsKey(ms, k) ==> Expected(k) < i;
      assert !exists k :: ExpectedBy(ms, k, i);
      BlockInPlace(ms, i);
      InPlaceIsNormal(ms, i + 1 + |CallsOf(ms[i])|);
    }
  }

  lemma ZeroCountersMeanAligned(ms: seq<AgentMessage>)
    requires AllCountersZero(Repair(ms))
    ensures AllInPlace(ms) && AllExpectedBySome(ms)
  {
    hide CallsOf, Match, Rebuilt, Keys, CallIds;
    var st := Match(ms);
    MatchFinished(ms);
    assert SynthesizedKeys(st) == {} && MovedKeys(st) == {};
    assert Orphans(ms, st) == {} && Duplicates(ms, st) == {};
    forall k | IsKey(ms, k) ensures IsResult(ms, CallAt(ms, k).id, Expected(k)) {
      assert k in st.selected && k !in SynthesizedKeys(st) && k !in MovedKeys(st);
    }
    forall p: nat | p < |ms| && ms[p].ToolResultMessage? ensures exists k :: ExpectedBy(ms, k, p) {
      assert p !in Orphans(ms, st) && p !in Duplicates(ms, st);
      assert p in st.used;
      var k :| Holds(st, k, p);
      assert k !in MovedKeys(st);
      assert ExpectedBy(ms, k, p);
    }
  }

  /** `changed` is raised exactly when some counter is nonzero, and exactly when
      the transcript was not in normal form. */
  lemma ChangedIff(ms: seq<AgentMessage>)
    ensures Repair(ms).changed <==> !AllCountersZero(Repair(ms))
    ensures Repair(ms).changed <==> !Normal(ms)
  {
    hide CallsOf, Match, Rebuilt, AllInPlace, AllExpectedBySome, NormalFrom;
    if AllCountersZero(Repair(ms)) {
      ZeroCountersMeanAligned(ms);
      InPlaceIsNormal(ms, 0);
    }
    if Normal(ms) {
      NormalIsFixed(ms);
    } else {
      RepairOutputShape(ms);
    }
  }
}
