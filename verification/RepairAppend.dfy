/** The harness's own repair appends an interruption for every call that has no
    result anywhere.  Doing that first changes nothing a later repair shows. */
module RepairAppend {
  import opened Messages
  import opened ToolMatching
  import opened ToolHistory
  import opened RepairCounts
  import opened RepairCanonical

  /** The interruptions appended for the first n keys: one per id that has no result yet. */
  function Appended(ms: seq<AgentMessage>, ks: seq<Key>, n: nat): seq<AgentMessage>
    requires AreKeys(ms, ks) && n <= |ks|
  {
    if n == 0 then []
    else
      var before := Appended(ms, ks, n - 1);
      var call := CallAt(ms, ks[n - 1]);
      if call.id in ResultMap(ms) || call.id in ResultMap(before) then before else before + [Interruption(call)]
  }

  function AppendedAll(ms: seq<AgentMessage>): seq<AgentMessage> {
    Appended(ms, Keys(ms), |Keys(ms)|)
  }

  /** `_append_interrupted_tool_results` on a transcript. */
  function AppendInterrupted(ms: seq<AgentMessage>): seq<AgentMessage> {
    ms + AppendedAll(ms)
  }

  ghost predicate Missing(ms: seq<AgentMessage>, id: string) {
    id !in ResultMap(ms)
  }

  ghost predicate InterruptionFor(ms: seq<AgentMessage>, k: Key, m: AgentMessage) {
    IsKey(ms, k) && m == Interruption(CallAt(ms, k))
  }

  lemma NoResultsSingle()
    ensures SingleResults([])
  {
  }

  lemma OneMoreInterruption(ms: seq<AgentMessage>, call: ToolCall)
    ensures var m := Interruption(call); m.ToolResultMessage? && m.toolCallId == call.id
    ensures ResultMap(ms + [Interruption(call)]) == ResultMap(ms)[call.id := Interruption(call)]
    ensures SingleResults(ms) && call.id !in ResultMap(ms) ==> SingleResults(ms + [Interruption(call)])
  {
    assert (ms + [Interruption(call)])[..|ms|] == ms;
  }

  lemma {:induction false} AppendedAre(ms: seq<AgentMessage>, ks: seq<Key>, n: nat)
    requires AreKeys(ms, ks) && n <= |ks|
    ensures forall m :: m in Appended(ms, ks, n) ==> exists k :: InterruptionFor(ms, k, m)
    ensures forall m :: m in Appended(ms, ks, n) ==> m.ToolResultMessage? && Missing(ms, m.toolCallId)
    ensures SingleResults(Appended(ms, ks, n))
    ensures forall j :: 0 <= j < n ==>
              CallAt(ms, ks[j]).id in ResultMap(ms) || CallAt(ms, ks[j]).id in ResultMap(Appended(ms, ks, n))
  {
    hide CallsOf, Missing, ResultMap, SingleResults, Interruption;
    if n == 0 {
      assert SingleResults([]) by { NoResultsSingle(); }
    } else {
      AppendedAre(ms, ks, n - 1);
      var before, call := Appended(ms, ks, n - 1), CallAt(ms, ks[n - 1]);
      assert InterruptionFor(ms, ks[n - 1], Interruption(call));
      MissingMeans(ms, call.id);
      OneMoreInterruption(before, call);
    }
  }

  lemma MissingMeans(ms: seq<AgentMessage>, id: string)
    ensures Missing(ms, id) <==> id !in ResultMap(ms)
  {
  }

  /** What appending adds: results only, each an interruption of a call without a
      result, at most one per id, and one for every such id. */
  lemma AppendedFacts(ms: seq<AgentMessage>)
    ensures forall m :: m in AppendedAll(ms) ==> m.ToolResultMessage? && Missing(ms, m.toolCallId)
    ensures forall m :: m in AppendedAll(ms) ==> exists k :: InterruptionFor(ms, k, m)
    ensures SingleResults(AppendedAll(ms))
    ensures forall k :: IsKey(ms, k) && Missing(ms, CallAt(ms, k).id) ==> CallAt(ms, k).id in ResultMap(AppendedAll(ms))
  {
    hide CallsOf;
    AppendedAre(ms, Keys(ms), |Keys(ms)|);
    forall k | IsKey(ms, k) && Missing(ms, CallAt(ms, k).id) ensures CallAt(ms, k).id in ResultMap(AppendedAll(ms)) {
      KeysComplete(ms, |ms|, k);
      var j :| 0 <= j < |Keys(ms)| && Keys(ms)[j] == k;
    }
  }

  // --------------------------------------------------- keys and results survive

  lemma {:induction false} KeysOfExtension(ms: seq<AgentMessage>, more: seq<AgentMessage>, n: nat)
    requires n <= |ms| + |more| && forall m :: m in more ==> m.ToolResultMessage?
    ensures KeysBelow(ms + more, n) == KeysBelow(ms, if n <= |ms| then n else |ms|)
  {
    hide CallsOf;
    if n > 0 {
      KeysOfExtension(ms, more, n - 1);
      if n > |ms| {
        assert (ms + more)[n - 1] == more[n - 1 - |ms|];
        ResultsHaveNoCalls((ms + more)[n - 1]);
      }
    }
  }

  lemma KeyOfExtension(ms: seq<AgentMessage>, more: seq<AgentMessage>, k: Key)
    requires forall m :: m in more ==> m.ToolResultMessage?
    ensures IsKey(ms + more, k) <==> IsKey(ms, k)
    ensures IsKey(ms, k) ==> CallAt(ms + more, k) == CallAt(ms, k)
  {
    hide CallsOf;
    if |ms| <= k.message < |ms + more| {
      assert (ms + more)[k.message] == more[k.message - |ms|];
      ResultsHaveNoCalls((ms + more)[k.message]);
    }
  }

  lemma {:induction false} ResultsOfExtension(ms: seq<AgentMessage>, more: seq<AgentMessage>, id: string, n: nat)
    requires n <= |ms + more| && forall m :: m in more ==> m.ToolResultMessage? && m.toolCallId != id
    ensures ResultsBelow(ms + more, id, n) == ResultsBelow(ms, id, if n <= |ms| then n else |ms|)
  {
    if n > 0 {
      ResultsOfExtension(ms, more, id, n - 1);
      if n > |ms| { assert (ms + more)[n - 1] == more[n - 1 - |ms|]; }
    }
  }

  lemma {:induction false} UnusedAgrees(ps: seq<nat>, a: set<nat>, b: set<nat>)
    requires forall p :: p in ps ==> (p in a <==> p in b)
    ensures Unused(ps, a) == Unused(ps, b)
  {
    if ps != [] { UnusedAgrees(ps[1..], a, b); }
  }

  lemma {:induction false} FirstGenuineAgrees(a: seq<AgentMessage>, b: seq<AgentMessage>, ps: seq<nat>)
    requires forall p: nat :: p in ps ==> p < |a| && p < |b| && a[p] == b[p]
    ensures FirstGenuine(a, ps) == FirstGenuine(b, ps)
  {
    hide IsInterruption;
    if ps != [] {
      assert forall p: nat :: p in ps[1..] ==> p in ps;
      FirstGenuineAgrees(a, b, ps[1..]);
    }
  }

  lemma PickFromAgrees(a: seq<AgentMessage>, b: seq<AgentMessage>, ps: seq<nat>, i: nat)
    requires ps != [] && forall p :: p in ps ==> p < |a| && p < |b| && a[p] == b[p]
    ensures PickFrom(a, ps, i) == PickFrom(b, ps, i)
  {
    hide IsInterruption;
    FirstGenuineAgrees(a, b, After(ps, i));
    FirstGenuineAgrees(a, b, ps);
  }

  // --------------------------------------------- the two matchings in lockstep

  /** The extension of a transcript by results only for ids that had none, one each. */
  ghost predicate Fills(ms: seq<AgentMessage>, more: seq<AgentMessage>) {
    && FreshCalls(ms)
    && (forall m :: m in more ==> m.ToolResultMessage? && Missing(ms, m.toolCallId))
    && (forall m :: m in more ==> exists k :: InterruptionFor(ms, k, m))
    && SingleResults(more)
    && (forall k :: IsKey(ms, k) && Missing(ms, CallAt(ms, k).id) ==> CallAt(ms, k).id in ResultMap(more))
  }

  ghost predicate SameKey(ms: seq<AgentMessage>, a: Matching, b: Matching, k: Key)
    requires IsKey(ms, k)
  {
    if Missing(ms, CallAt(ms, k).id) then
      && (k in a.selected ==> a.selected[k] == Synthesized)
      && (k in b.selected ==> b.selected[k].Kept? && b.selected[k].position >= |ms|)
    else
      && (k in a.selected <==> k in b.selected)
      && (k in a.selected ==> a.selected[k] == b.selected[k])
  }

  ghost predicate SameUsed(ms: seq<AgentMessage>, a: Matching, b: Matching) {
    forall p: nat :: p < |ms| ==> (p in a.used <==> p in b.used)
  }

  /** The matchings agree on every call that had a result; the others are
      synthesized on one side and appended on the other. */
  ghost predicate Lockstep(ms: seq<AgentMessage>, a: Matching, b: Matching) {
    && (forall k :: IsKey(ms, k) ==> SameKey(ms, a, b, k))
    && SameUsed(ms, a, b)
  }

  lemma KeyOfFill(ms: seq<AgentMessage>, more: seq<AgentMessage>, k: Key)
    requires Fills(ms, more)
    ensures IsKey(ms + more, k) <==> IsKey(ms, k)
    ensures IsKey(ms, k) ==> CallAt(ms + more, k) == CallAt(ms, k)
  {
    hide CallsOf, FreshCalls, SingleResults;
    KeyOfExtension(ms, more, k);
  }

  lemma MissingHasNone(ms: seq<AgentMessage>, id: string, p: nat)
    requires Missing(ms, id)
    ensures !IsResult(ms, id, p)
  {
    if IsResult(ms, id, p) { ResultMapHas(ms, id, p); }
  }

  lemma SameResults(ms: seq<AgentMessage>, more: seq<AgentMessage>, id: string)
    requires Fills(ms, more) && !Missing(ms, id)
    ensures ResultsFor(ms + more, id) == ResultsFor(ms, id)
    ensures forall p :: p in ResultsFor(ms, id) ==> p < |ms| && (ms + more)[p] == ms[p]
  {
    hide FreshCalls, SingleResults;
    ResultsOfExtension(ms, more, id, |ms + more|);
    ResultsBelowAre(ms, id, |ms|);
  }

  /** Replacing one key's entry on both sides by equal ones keeps the lockstep. */
  lemma SameUpdate(ms: seq<AgentMessage>, a: Matching, b: Matching, k: Key, s: Selection, ua: set<nat>, ub: set<nat>)
    requires Lockstep(ms, a, b) && IsKey(ms, k) && !Missing(ms, CallAt(ms, k).id)
    requires SameUsed(ms, Matching(map[], ua), Matching(map[], ub))
    ensures Lockstep(ms, Matching(a.selected[k := s], ua), Matching(b.selected[k := s], ub))
  {
    hide CallsOf, Missing;
    var a', b' := Matching(a.selected[k := s], ua), Matching(b.selected[k := s], ub);
    forall j | IsKey(ms, j) ensures SameKey(ms, a', b', j) {
      assert SameKey(ms, a, b, j);
    }
    forall p: nat | p < |ms| ensures p in a'.used <==> p in b'.used {
      assert p in Matching(map[], ua).used <==> p in Matching(map[], ub).used;
    }
  }

  /** Filling a missing key with an appended position on the right (and, once, a
      synthesized result on the left) keeps the lockstep. */
  lemma MissingUpdate(ms: seq<AgentMessage>, a: Matching, b: Matching, k: Key, a': Matching, b': Matching)
    requires Lockstep(ms, a, b) && IsKey(ms, k) && Missing(ms, CallAt(ms, k).id)
    requires a' == a || a' == a.(selected := a.selected[k := Synthesized])
    requires b' == b || (exists p: nat :: p >= |ms| && b' == Matching(b.selected[k := Kept(p)], b.used + {p}))
    ensures Lockstep(ms, a', b')
  {
    hide CallsOf, Missing;
    forall j | IsKey(ms, j) ensures SameKey(ms, a', b', j) {
      assert SameKey(ms, a, b, j);
    }
    forall p: nat | p < |ms| ensures p in a'.used <==> p in b'.used {
      assert p in a.used <==> p in b.used;
    }
  }

  lemma ReserveLockstep(ms: seq<AgentMessage>, more: seq<AgentMessage>, a: Matching, b: Matching, k: Key)
    requires Fills(ms, more) && IsKey(ms, k) && IsKey(ms + more, k) && Lockstep(ms, a, b)
    ensures Lockstep(ms, Reserve(ms, a, k), Reserve(ms + more, b, k))
  {
    hide CallsOf, FreshCalls, SingleResults, Lockstep, Missing;
    KeyOfFill(ms, more, k);
    var e, id := Expected(k), CallAt(ms, k).id;
    var a', b' := Reserve(ms, a, k), Reserve(ms + more, b, k);
    if Missing(ms, id) {
      MissingHasNone(ms, id, e);
      assert a' == a;
      assert b' == b || e >= |ms|;
      MissingUpdate(ms, a, b, k, a', b');
    } else {
      if e < |ms| {
        assert (ms + more)[e] == ms[e];
        assert e in a.used <==> e in b.used by { LockstepUsed(ms, a, b, e); }
        if a' != a {
          LockstepUsedAll(ms, a, b);
          SameUpdate(ms, a, b, k, Kept(e), a.used + {e}, b.used + {e});
        }
      } else if e < |ms + more| {
        assert (ms + more)[e] == more[e - |ms|];
      }
    }
  }

  lemma LockstepUsed(ms: seq<AgentMessage>, a: Matching, b: Matching, p: nat)
    requires Lockstep(ms, a, b) && p < |ms|
    ensures p in a.used <==> p in b.used
  {
  }

  lemma LockstepUsedAll(ms: seq<AgentMessage>, a: Matching, b: Matching)
    requires Lockstep(ms, a, b)
    ensures SameUsed(ms, a, b)
  {
  }

  lemma LockstepAt(ms: seq<AgentMessage>, a: Matching, b: Matching, k: Key)
    requires Lockstep(ms, a, b) && IsKey(ms, k)
    ensures SameKey(ms, a, b, k)
  {
  }

  /** The one result an id without results is given by the extension. */
  lemma FilledResult(ms: seq<AgentMessage>, more: seq<AgentMessage>, k: Key) returns (p: nat)
    requires Fills(ms, more) && IsKey(ms, k) && Missing(ms, CallAt(ms, k).id)
    ensures |ms| <= p < |ms + more|
    ensures forall q: nat :: IsResult(ms + more, CallAt(ms, k).id, q) <==> q == p
    ensures (ms + more)[p] == Interruption(CallAt(ms, k))
  {
    hide CallsOf;
    var id := CallAt(ms, k).id;
    var r := ResultMapFrom(more, id);
    p := |ms| + r;
    assert more[r] in more && (ms + more)[p] == more[r];
    var j :| InterruptionFor(ms, j, more[r]);
    FreshCallsInjective(ms, j, k);
    forall q: nat ensures IsResult(ms + more, id, q) <==> q == p {
      if q < |ms| {
        MissingHasNone(ms, id, q);
      } else if IsResult(ms + more, id, q) {
        assert IsResult(more, id, q - |ms|);
        SingleResultsInjective(more, id, q - |ms|, r);
      }
    }
  }

  lemma {:induction false} SingleResultsInjective(ms: seq<AgentMessage>, id: string, p: nat, q: nat)
    requires SingleResults(ms) && IsResult(ms, id, p) && IsResult(ms, id, q)
    ensures p == q
  {
    var init := ms[..|ms| - 1];
    if p < |ms| - 1 {
      assert IsResult(init, id, p);
      ResultMapHas(init, id, p);
    }
    if q < |ms| - 1 {
      assert IsResult(init, id, q);
      ResultMapHas(init, id, q);
      if p < |ms| - 1 { SingleResultsInjective(init, id, p, q); }
    }
  }

  lemma AssignLockstep(ms: seq<AgentMessage>, more: seq<AgentMessage>, a: Matching, b: Matching, k: Key)
    requires Fills(ms, more) && IsKey(ms, k) && IsKey(ms + more, k) && Lockstep(ms, a, b) && Sound(ms + more, b)
    ensures Lockstep(ms, Assign(ms, a, k), Assign(ms + more, b, k))
  {
    hide CallsOf, FreshCalls, SingleResults, Lockstep, Missing, Fills, IsInterruption;
    KeyOfFill(ms, more, k);
    LockstepAt(ms, a, b, k);
    var id := CallAt(ms, k).id;
    if Missing(ms, id) {
      AssignMissing(ms, more, a, b, k);
    } else {
      SameResults(ms, more, id);
      LockstepUsedAll(ms, a, b);
      var results := ResultsFor(ms, id);
      UnusedAgrees(results, a.used, b.used);
      var candidates := Unused(results, a.used);
      if k !in a.selected {
        if candidates == [] {
          SameUpdate(ms, a, b, k, Synthesized, a.used, b.used);
        } else {
          PickFromAgrees(ms, ms + more, candidates, k.message);
          var p := PickFrom(ms, candidates, k.message);
          SameUpdate(ms, a, b, k, Kept(p), a.used + {p}, b.used + {p});
        }
      }
    }
  }

  lemma AssignMissing(ms: seq<AgentMessage>, more: seq<AgentMessage>, a: Matching, b: Matching, k: Key)
    requires Fills(ms, more) && IsKey(ms, k) && IsKey(ms + more, k) && Lockstep(ms, a, b) && Sound(ms + more, b)
    requires Missing(ms, CallAt(ms, k).id) && CallAt(ms + more, k) == CallAt(ms, k)
    ensures Lockstep(ms, Assign(ms, a, k), Assign(ms + more, b, k))
    ensures k in Assign(ms + more, b, k).selected && Assign(ms + more, b, k).selected[k].Kept?
  {
    hide CallsOf, FreshCalls, SingleResults, Lockstep, Missing, Fills, IsInterruption;
    LockstepAt(ms, a, b, k);
    var id := CallAt(ms, k).id;
    var a', b' := Assign(ms, a, k), Assign(ms + more, b, k);
    var p := FilledResult(ms, more, k);
    assert a' == a || a' == a.(selected := a.selected[k := Synthesized]) by {
      NoResultsFor(ms, id);
    }
    if k !in b.selected {
      if p in b.used {
        UsedByItsKey(ms, more, b, k, p);
      }
      ResultsBelowAre(ms + more, id, |ms + more|);
      assert p in Unused(ResultsFor(ms + more, id), b.used);
      assert b' == Matching(b.selected[k := Kept(p)], b.used + {p});
    }
    assert SameKey(ms, a, b, k);
    MissingUpdate(ms, a, b, k, a', b');
  }

  lemma {:induction false} NoResultsBelow(ms: seq<AgentMessage>, id: string, n: nat)
    requires Missing(ms, id) && n <= |ms|
    ensures ResultsBelow(ms, id, n) == []
  {
    hide Missing;
    if n > 0 {
      NoResultsBelow(ms, id, n - 1);
      MissingHasNone(ms, id, n - 1);
    }
  }

  lemma NoResultsFor(ms: seq<AgentMessage>, id: string)
    requires Missing(ms, id)
    ensures ResultsFor(ms, id) == []
  {
    NoResultsBelow(ms, id, |ms|);
  }

  /** With fresh ids, a used result is held by the only call with its id. */
  lemma UsedByItsKey(ms: seq<AgentMessage>, more: seq<AgentMessage>, b: Matching, k: Key, p: nat)
    requires Fills(ms, more) && IsKey(ms, k) && Sound(ms + more, b) && p in b.used
    requires IsResult(ms + more, CallAt(ms, k).id, p)
    ensures k in b.selected
  {
    hide CallsOf, FreshCalls, SingleResults, Missing;
    var j :| Holds(b, j, p);
    KeyOfFill(ms, more, j);
    FreshCallsInjective(ms, j, k);
  }

  lemma UpgradeLockstep(ms: seq<AgentMessage>, more: seq<AgentMessage>, a: Matching, b: Matching, k: Key)
    requires Fills(ms, more) && IsKey(ms, k) && IsKey(ms + more, k) && Lockstep(ms, a, b)
    requires k in a.selected ==> Typed(ms, a)
    ensures Lockstep(ms, Upgrade(ms, a, k), Upgrade(ms + more, b, k))
  {
    hide CallsOf, FreshCalls, SingleResults, Lockstep, Missing, Fills, IsInterruption;
    KeyOfFill(ms, more, k);
    LockstepAt(ms, a, b, k);
    var id := CallAt(ms, k).id;
    if Missing(ms, id) {
      UpgradeMissing(ms, more, b, k);
    } else if k in a.selected && a.selected[k].Kept? {
      SameResults(ms, more, id);
      LockstepUsedAll(ms, a, b);
      var p, results := a.selected[k].position, ResultsFor(ms, id);
      assert (ms + more)[p] == ms[p];
      UnusedAgrees(results, a.used, b.used);
      FirstGenuineAgrees(ms, ms + more, Unused(results, a.used));
      var best := FirstGenuine(ms, Unused(results, a.used));
      if best.Some? {
        SameUpdate(ms, a, b, k, Kept(best.value), a.used - {p} + {best.value}, b.used - {p} + {best.value});
      }
    }
  }

  lemma UpgradeMissing(ms: seq<AgentMessage>, more: seq<AgentMessage>, b: Matching, k: Key)
    requires Fills(ms, more) && IsKey(ms, k) && IsKey(ms + more, k) && Missing(ms, CallAt(ms, k).id)
    requires CallAt(ms + more, k) == CallAt(ms, k)
    ensures Upgrade(ms + more, b, k) == b
  {
    hide CallsOf, FreshCalls, SingleResults, Missing, Fills;
    var id := CallAt(ms, k).id;
    var p := FilledResult(ms, more, k);
    ResultsBelowAre(ms + more, id, |ms + more|);
    InterruptionIsOne(CallAt(ms, k));
  }

  lemma InterruptionIsOne(call: ToolCall)
    ensures IsInterruption(Interruption(call))
  {
    var content := [TextBlock(INTERRUPTED)];
    assert content[1..] == [];
    assert MediaText(content[1..]) == "";
    assert MediaText(content) == INTERRUPTED + "";
    assert INTERRUPTED + "" == INTERRUPTED;
  }

  lemma {:induction false} ReservedLockstep(ms: seq<AgentMessage>, more: seq<AgentMessage>, ks: seq<Key>, n: nat)
    requires Fills(ms, more) && AreKeys(ms, ks) && AreKeys(ms + more, ks) && n <= |ks|
    ensures Lockstep(ms, Reserved(ms, ks, n), Reserved(ms + more, ks, n))
  {
    hide CallsOf, Fills, Lockstep, Reserve;
    if n == 0 {
      EmptyLockstep(ms);
    } else {
      ReservedLockstep(ms, more, ks, n - 1);
      ReserveLockstep(ms, more, Reserved(ms, ks, n - 1), Reserved(ms + more, ks, n - 1), ks[n - 1]);
    }
  }

  lemma EmptyLockstep(ms: seq<AgentMessage>)
    ensures Lockstep(ms, Matching(map[], {}), Matching(map[], {}))
  {
  }

  lemma {:induction false} AssignedLockstep(ms: seq<AgentMessage>, more: seq<AgentMessage>, ks: seq<Key>, n: nat)
    requires Fills(ms, more) && AreKeys(ms, ks) && AreKeys(ms + more, ks) && Distinct(ks) && n <= |ks|
    ensures Lockstep(ms, Assigned(ms, ks, n), Assigned(ms + more, ks, n))
  {
    hide CallsOf, Fills, Lockstep, Assign, Sound, Distinct;
    if n == 0 {
      ReservedLockstep(ms, more, ks, |ks|);
    } else {
      AssignedLockstep(ms, more, ks, n - 1);
      AssignedSound(ms + more, ks, n - 1);
      AssignLockstep(ms, more, Assigned(ms, ks, n - 1), Assigned(ms + more, ks, n - 1), ks[n - 1]);
    }
  }

  lemma {:induction false} UpgradedLockstep(ms: seq<AgentMessage>, more: seq<AgentMessage>, ks: seq<Key>, n: nat)
    requires Fills(ms, more) && AreKeys(ms, ks) && AreKeys(ms + more, ks) && Distinct(ks) && n <= |ks|
    ensures Lockstep(ms, Upgraded(ms, ks, n), Upgraded(ms + more, ks, n))
  {
    hide CallsOf, Fills, Lockstep, Upgrade, Typed, Distinct;
    if n == 0 {
      AssignedLockstep(ms, more, ks, |ks|);
    } else {
      UpgradedLockstep(ms, more, ks, n - 1);
      UpgradedSound(ms, ks, n - 1);
      UpgradeLockstep(ms, more, Upgraded(ms, ks, n - 1), Upgraded(ms + more, ks, n - 1), ks[n - 1]);
    }
  }

  lemma MatchLockstep(ms: seq<AgentMessage>, more: seq<AgentMessage>)
    requires Fills(ms, more)
    ensures Lockstep(ms, Match(ms), Match(ms + more))
  {
    hide CallsOf, Lockstep, Upgraded, FreshCalls, SingleResults, Missing;
    KeysOfExtension(ms, more, |ms + more|);
    KeysDistinct(ms, |ms|);
    UpgradedLockstep(ms, more, Keys(ms), |Keys(ms)|);
  }

  // ------------------------------------------------------------- the theorem

  lemma MatchedAt(ms: seq<AgentMessage>, k: Key)
    requires IsKey(ms, k)
    ensures k in Match(ms).selected
    ensures Match(ms).selected[k].Kept? ==> IsResult(ms, CallAt(ms, k).id, Match(ms).selected[k].position)
  {
    hide CallsOf, Match, IsInterruption;
    MatchFinished(ms);
  }

  lemma SameChoice(ms: seq<AgentMessage>, more: seq<AgentMessage>, k: Key)
    requires Fills(ms, more) && IsKey(ms, k) && IsKey(ms + more, k)
    ensures Chosen(ms + more, Match(ms + more), k) == Chosen(ms, Match(ms), k)
    ensures Missing(ms, CallAt(ms, k).id) ==> k in Match(ms + more).selected && Match(ms + more).selected[k].Kept?
  {
    hide CallsOf, Lockstep, Match, FreshCalls, SingleResults, Missing, Fills, IsInterruption, IsKey;
    KeyOfFill(ms, more, k);
    MatchLockstep(ms, more);
    LockstepAt(ms, Match(ms), Match(ms + more), k);
    MatchedAt(ms, k);
    MatchedAt(ms + more, k);
    if Missing(ms, CallAt(ms, k).id) {
      var p := FilledResult(ms, more, k);
    }
  }

  lemma {:induction false} SameCallResults(ms: seq<AgentMessage>, more: seq<AgentMessage>, i: nat, n: nat)
    requires Fills(ms, more) && i < |ms| && n <= |CallsOf(ms[i])| && (ms + more)[i] == ms[i]
    ensures CallResults(ms + more, Match(ms + more), i, n) == CallResults(ms, Match(ms), i, n)
  {
    hide CallsOf, Match, Fills, Chosen;
    if n > 0 {
      SameCallResults(ms, more, i, n - 1);
      SameChoice(ms, more, Key(i, n));
    }
  }

  lemma {:induction false} SameRebuilt(ms: seq<AgentMessage>, more: seq<AgentMessage>, n: nat)
    requires Fills(ms, more) && n <= |ms + more|
    ensures Rebuilt(ms + more, Match(ms + more), n) == Rebuilt(ms, Match(ms), if n <= |ms| then n else |ms|)
  {
    hide CallsOf, Match, FreshCalls, SingleResults, Missing;
    if n > 0 {
      SameRebuilt(ms, more, n - 1);
      if n <= |ms| {
        SameCallResults(ms, more, n - 1, |CallsOf(ms[n - 1])|);
      } else {
        assert (ms + more)[n - 1] == more[n - 1 - |ms|];
      }
    }
  }

  lemma AppendFills(ms: seq<AgentMessage>)
    requires FreshCalls(ms)
    ensures Fills(ms, AppendedAll(ms))
  {
    hide CallsOf, FreshCalls, SingleResults, AppendedAll, Missing;
    AppendedFacts(ms);
  }

  /** With fresh call ids, a transcript the harness has repaired by appending is
      shown exactly as before, with nothing left to synthesize. */
  lemma AppendThenRepair(ms: seq<AgentMessage>)
    requires FreshCalls(ms)
    ensures Repair(AppendInterrupted(ms)).messages == Repair(ms).messages
    ensures Repair(AppendInterrupted(ms)).synthesizedResults == 0
  {
    hide CallsOf, Match, FreshCalls, Rebuilt, AppendedAll, Fills, SingleResults, Missing, IsInterruption;
    var more := AppendedAll(ms);
    AppendFills(ms);
    SameRebuilt(ms, more, |ms + more|);
    AppendedFacts(ms);
    MatchFinished(ms + more);
    forall k | IsKey(ms + more, k) ensures Match(ms + more).selected[k].Kept? {
      KeyOfFill(ms, more, k);
      SameChoice(ms, more, k);
      if !Missing(ms, CallAt(ms, k).id) { KeptWhenAnswered(ms, more, k); }
    }
    assert SynthesizedKeys(Match(ms + more)) == {};
  }

  lemma KeptWhenAnswered(ms: seq<AgentMessage>, more: seq<AgentMessage>, k: Key)
    requires Fills(ms, more) && IsKey(ms, k) && IsKey(ms + more, k) && !Missing(ms, CallAt(ms, k).id)
    requires CallAt(ms + more, k) == CallAt(ms, k)
    ensures k in Match(ms + more).selected && Match(ms + more).selected[k].Kept?
  {
    hide CallsOf, Match, FreshCalls, SingleResults, IsInterruption;
    MatchFinished(ms + more);
    var st := Match(ms + more);
    if st.selected[k].Synthesized? {
      var p := ResultMapFrom(ms, CallAt(ms, k).id);
      assert IsResult(ms + more, CallAt(ms, k).id, p);
      assert Exhausted(ms + more, st, k);
      UsedHeldBy(ms, more, st, k, p);
    }
  }

  lemma UsedHeldBy(ms: seq<AgentMessage>, more: seq<AgentMessage>, b: Matching, k: Key, p: nat)
    requires Fills(ms, more) && IsKey(ms, k) && Sound(ms + more, b) && p in b.used
    requires IsResult(ms + more, CallAt(ms, k).id, p)
    ensures Holds(b, k, p)
  {
    hide CallsOf, FreshCalls, SingleResults, Missing;
    var j :| Holds(b, j, p);
    KeyOfFill(ms, more, j);
    FreshCallsInjective(ms, j, k);
  }

  // ------------------------------------------------------ when ids do repeat

  lemma SameCallKeys(ms: seq<AgentMessage>, id: string)
    ensures CallKeys(AppendInterrupted(ms), id) == CallKeys(ms, id)
  {
    hide CallsOf, AppendedAll, Missing;
    AppendedFacts(ms);
    forall k ensures IsKey(AppendInterrupted(ms), k) <==> IsKey(ms, k)
             ensures IsKey(ms, k) ==> CallAt(AppendInterrupted(ms), k) == CallAt(ms, k)
             ensures IsKey(ms, k) <==> k in Keys(ms)
             ensures IsKey(AppendInterrupted(ms), k) <==> k in Keys(AppendInterrupted(ms))
    {
      KeyOfExtension(ms, AppendedAll(ms), k);
      KeyMembership(ms, k);
      KeyMembership(AppendInterrupted(ms), k);
    }
  }

  lemma MissingIff(ms: seq<AgentMessage>, id: string)
    ensures Missing(ms, id) <==> ResultsOf(ms, id) == {}
  {
    if id in ResultMap(ms) {
      var p := ResultMapFrom(ms, id);
      assert p in ResultsOf(ms, id);
    } else {
      forall p: nat ensures !IsResult(ms, id, p) { MissingHasNone(ms, id, p); }
    }
  }

  /** Appending gives every called id that had no result exactly one, and no other id any. */
  lemma AppendedCounts(ms: seq<AgentMessage>, id: string)
    requires CallKeys(ms, id) != {}
    ensures |ResultsOf(AppendInterrupted(ms), id)| == (if ResultsOf(ms, id) == {} then 1 else |ResultsOf(ms, id)|)
  {
    hide CallsOf, AppendedAll, SingleResults;
    var more := AppendedAll(ms);
    AppendedFacts(ms);
    if ResultsOf(ms, id) == {} {
      MissingIff(ms, id);
      var k :| k in CallKeys(ms, id);
      var r := ResultMapFrom(more, id);
      forall q: nat | IsResult(ms + more, id, q) ensures q == |ms| + r {
        if q < |ms| {
          MissingHasNone(ms, id, q);
        } else {
          assert IsResult(more, id, q - |ms|);
          SingleResultsInjective(more, id, q - |ms|, r);
        }
      }
      assert IsResult(ms + more, id, |ms| + r);
      assert ResultsOf(ms + more, id) == {|ms| + r};
    } else {
      MissingIff(ms, id);
      forall q: nat | |ms| <= q < |ms + more| ensures !IsResult(ms + more, id, q) {
        assert (ms + more)[q] == more[q - |ms|];
      }
      assert forall q: nat :: q < |ms| ==> (IsResult(ms + more, id, q) <==> IsResult(ms, id, q));
      assert ResultsOf(ms + more, id) == ResultsOf(ms, id);
    }
  }

  /** Without the assumption: after appending, nothing is left to synthesize exactly
      when no id is called more often than it has results, or more than once. */
  lemma AppendSufficesIff(ms: seq<AgentMessage>)
    ensures Repair(AppendInterrupted(ms)).synthesizedResults == 0
       <==> forall id :: |CallKeys(ms, id)| <= 1 || |CallKeys(ms, id)| <= |ResultsOf(ms, id)|
  {
    hide CallKeys, ResultsOf, Repair, AppendInterrupted;
    NothingSynthesizedIff(AppendInterrupted(ms));
    forall id
      ensures |CallKeys(AppendInterrupted(ms), id)| <= |ResultsOf(AppendInterrupted(ms), id)|
         <==> |CallKeys(ms, id)| <= 1 || |CallKeys(ms, id)| <= |ResultsOf(ms, id)|
    {
      SameCallKeys(ms, id);
      if CallKeys(ms, id) != {} { AppendedCounts(ms, id); }
    }
  }
}
