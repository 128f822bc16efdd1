/** Repair of a transcript whose tool calls and tool results are out of step.

    A call is named by the position of its message and its 1-based offset among
    that message's calls (a `Key`).  Repair assigns every key either one result
    position or a synthesized interruption, in three passes over the keys, and
    rebuilds the transcript with each call's result right behind its message.
 */
module ToolMatching {
  import opened Messages

  const INTERRUPTED := "Tool call interrupted"

  datatype Key = Key(message: nat, offset: nat)

  datatype Selection = Kept(position: nat) | Synthesized

  /** The `selected_results` and `used_result_positions` of a repair under way. */
  datatype Matching = Matching(selected: map<Key, Selection>, used: set<nat>)

  function Interruption(call: ToolCall): AgentMessage {
    ErrorText(call.id, call.name, INTERRUPTED)
  }

  predicate IsInterruption(m: AgentMessage) {
    m.ToolResultMessage? && m.isError && MediaText(m.content) == INTERRUPTED
  }

  // ---------------------------------------------------------------- keys

  ghost predicate IsKey(ms: seq<AgentMessage>, k: Key) {
    k.message < |ms| && 1 <= k.offset <= |CallsOf(ms[k.message])|
  }

  function CallAt(ms: seq<AgentMessage>, k: Key): ToolCall
    requires IsKey(ms, k)
  {
    CallsOf(ms[k.message])[k.offset - 1]
  }

  function Expected(k: Key): nat { k.message + k.offset }

  /** The keys of message i with offsets 1 to n. */
  function MessageKeys(i: nat, n: nat): seq<Key> {
    if n == 0 then [] else MessageKeys(i, n - 1) + [Key(i, n)]
  }

  /** The keys of the first n messages, in transcript order. */
  function KeysBelow(ms: seq<AgentMessage>, n: nat): seq<Key>
    requires n <= |ms|
  {
    if n == 0 then []
    else KeysBelow(ms, n - 1) + MessageKeys(n - 1, |CallsOf(ms[n - 1])|)
  }

  /** The keys of a transcript: `call_occurrences`. */
  function Keys(ms: seq<AgentMessage>): (ks: seq<Key>)
    ensures AreKeys(ms, ks)
  {
    KeysAreKeys(ms, |ms|);
    KeysBelow(ms, |ms|)
  }

  lemma {:induction false} MessageKeysAt(i: nat, n: nat)
    ensures |MessageKeys(i, n)| == n
    ensures forall j :: 0 <= j < n ==> MessageKeys(i, n)[j] == Key(i, j + 1)
  {
    if n > 0 { MessageKeysAt(i, n - 1); }
  }

  lemma {:induction false} KeysAreKeys(ms: seq<AgentMessage>, n: nat)
    requires n <= |ms|
    ensures AreKeys(ms, KeysBelow(ms, n)) && MessagesBelow(KeysBelow(ms, n), n)
  {
    hide CallsOf;
    if n > 0 {
      KeysAreKeys(ms, n - 1);
      MessageKeysAt(n - 1, |CallsOf(ms[n - 1])|);
      var a, b := KeysBelow(ms, n - 1), MessageKeys(n - 1, |CallsOf(ms[n - 1])|);
      forall j | 0 <= j < |a + b| ensures IsKey(ms, (a + b)[j]) && (a + b)[j].message < n {
        if j >= |a| { assert (a + b)[j] == Key(n - 1, j - |a| + 1); }
      }
    }
  }

  ghost predicate MessagesBelow(ks: seq<Key>, n: nat) {
    forall j :: 0 <= j < |ks| ==> ks[j].message < n
  }

  lemma {:induction false} KeysDistinct(ms: seq<AgentMessage>, n: nat)
    requires n <= |ms|
    ensures Distinct(KeysBelow(ms, n))
  {
    hide CallsOf;
    if n > 0 {
      KeysDistinct(ms, n - 1);
      KeysAreKeys(ms, n - 1);
      MessageKeysAt(n - 1, |CallsOf(ms[n - 1])|);
      var a, b := KeysBelow(ms, n - 1), MessageKeys(n - 1, |CallsOf(ms[n - 1])|);
      forall i, j | 0 <= i < j < |a + b| ensures (a + b)[i] != (a + b)[j] {
        if j >= |a| { assert (a + b)[j] == Key(n - 1, j - |a| + 1); }
        if i >= |a| { assert (a + b)[i] == Key(n - 1, i - |a| + 1); }
      }
    }
  }

  lemma {:induction false} KeysComplete(ms: seq<AgentMessage>, n: nat, k: Key)
    requires n <= |ms| && IsKey(ms, k) && k.message < n
    ensures k in KeysBelow(ms, n)
  {
    hide CallsOf;
    if k.message < n - 1 {
      KeysComplete(ms, n - 1, k);
    } else {
      MessageKeysAt(n - 1, |CallsOf(ms[n - 1])|);
      assert k == MessageKeys(n - 1, |CallsOf(ms[n - 1])|)[k.offset - 1];
    }
  }

  // ------------------------------------------------------ result positions

  ghost predicate IsResult(ms: seq<AgentMessage>, id: string, p: nat) {
    p < |ms| && ms[p].ToolResultMessage? && ms[p].toolCallId == id
  }

  /** Positions below n of the results for id, ascending. */
  function ResultsBelow(ms: seq<AgentMessage>, id: string, n: nat): seq<nat>
    requires n <= |ms|
  {
    if n == 0 then []
    else if ms[n - 1].ToolResultMessage? && ms[n - 1].toolCallId == id then ResultsBelow(ms, id, n - 1) + [n - 1]
    else ResultsBelow(ms, id, n - 1)
  }

  /** Positions of the results for id, ascending: `results_by_id[id]`. */
  function ResultsFor(ms: seq<AgentMessage>, id: string): seq<nat> {
    ResultsBelow(ms, id, |ms|)
  }

  lemma {:induction false} ResultsBelowAre(ms: seq<AgentMessage>, id: string, n: nat)
    requires n <= |ms|
    ensures forall p: nat :: p in ResultsBelow(ms, id, n) <==> IsResult(ms, id, p) && p < n
  {
    if n > 0 { ResultsBelowAre(ms, id, n - 1); }
  }

  function Unused(ps: seq<nat>, used: set<nat>): (r: seq<nat>)
    ensures forall p: nat :: p in r <==> p in ps && p !in used
  {
    if ps == [] then []
    else (if ps[0] in used then [] else [ps[0]]) + Unused(ps[1..], used)
  }

  function After(ps: seq<nat>, i: nat): (r: seq<nat>)
    ensures forall p: nat :: p in r <==> p in ps && p > i
  {
    if ps == [] then []
    else (if ps[0] > i then [ps[0]] else []) + After(ps[1..], i)
  }

  /** The first position holding a genuine, that is non-interruption, result. */
  function FirstGenuine(ms: seq<AgentMessage>, ps: seq<nat>): (r: Option<nat>)
    ensures r.Some? ==> r.value in ps && r.value < |ms| && !IsInterruption(ms[r.value])
    ensures r.None? ==> forall p: nat :: p in ps && p < |ms| ==> IsInterruption(ms[p])
  {
    if ps == [] then None
    else if ps[0] < |ms| && !IsInterruption(ms[ps[0]]) then Some(ps[0])
    else FirstGenuine(ms, ps[1..])
  }

  /** The pick of the second pass: results behind the call before earlier ones,
      a genuine one before an interruption, then the first. */
  function PickFrom(ms: seq<AgentMessage>, candidates: seq<nat>, i: nat): (p: nat)
    requires candidates != []
    ensures p in candidates
  {
    var after := After(candidates, i);
    var pool := if after != [] then after else candidates;
    var best := FirstGenuine(ms, pool);
    if best.Some? then best.value
    else
      assert pool[0] in pool;
      pool[0]
  }

  // ------------------------------------------------------------ the passes

  /** Pass 1: keep a result that already stands at its call's expected position. */
  function Reserve(ms: seq<AgentMessage>, st: Matching, k: Key): Matching
    requires IsKey(ms, k)
  {
    var e := Expected(k);
    if e < |ms| && ms[e].ToolResultMessage? && ms[e].toolCallId == CallAt(ms, k).id && e !in st.used
    then Matching(st.selected[k := Kept(e)], st.used + {e})
    else st
  }

  /** Pass 2: give a call without a result the best unused one, else synthesize. */
  function Assign(ms: seq<AgentMessage>, st: Matching, k: Key): Matching
    requires IsKey(ms, k)
  {
    if k in st.selected then st
    else
      var candidates := Unused(ResultsFor(ms, CallAt(ms, k).id), st.used);
      if candidates == [] then st.(selected := st.selected[k := Synthesized])
      else
        var p := PickFrom(ms, candidates, k.message);
        Matching(st.selected[k := Kept(p)], st.used + {p})
  }

  /** Pass 3: swap a kept interruption for a genuine result that is still unused. */
  function Upgrade(ms: seq<AgentMessage>, st: Matching, k: Key): Matching
    requires IsKey(ms, k)
  {
    if k !in st.selected || st.selected[k].Synthesized? then st
    else
      var p := st.selected[k].position;
      if p >= |ms| || !IsInterruption(ms[p]) then st
      else
        match FirstGenuine(ms, Unused(ResultsFor(ms, CallAt(ms, k).id), st.used))
        case None => st
        case Some(q) => Matching(st.selected[k := Kept(q)], st.used - {p} + {q})
  }

  ghost predicate AreKeys(ms: seq<AgentMessage>, ks: seq<Key>) {
    forall j :: 0 <= j < |ks| ==> IsKey(ms, ks[j])
  }

  /** The matching after pass 1 has seen the first n keys. */
  function Reserved(ms: seq<AgentMessage>, ks: seq<Key>, n: nat): Matching
    requires AreKeys(ms, ks) && n <= |ks|
  {
    if n == 0 then Matching(map[], {}) else Reserve(ms, Reserved(ms, ks, n - 1), ks[n - 1])
  }

  function Assigned(ms: seq<AgentMessage>, ks: seq<Key>, n: nat): Matching
    requires AreKeys(ms, ks) && n <= |ks|
  {
    if n == 0 then Reserved(ms, ks, |ks|) else Assign(ms, Assigned(ms, ks, n - 1), ks[n - 1])
  }

  function Upgraded(ms: seq<AgentMessage>, ks: seq<Key>, n: nat): Matching
    requires AreKeys(ms, ks) && n <= |ks|
  {
    if n == 0 then Assigned(ms, ks, |ks|) else Upgrade(ms, Upgraded(ms, ks, n - 1), ks[n - 1])
  }

  /** The finished matching. */
  function Match(ms: seq<AgentMessage>): Matching {
    Upgraded(ms, Keys(ms), |Keys(ms)|)
  }

  // -------------------------------------------------- what every pass keeps

  /** Kept positions hold a result for their call and are marked used. */
  ghost predicate Typed(ms: seq<AgentMessage>, st: Matching) {
    forall k :: k in st.selected ==>
      IsKey(ms, k) &&
      (st.selected[k].Kept? ==>
         IsResult(ms, CallAt(ms, k).id, st.selected[k].position) && st.selected[k].position in st.used)
  }

  /** No result is used for two calls. */
  ghost predicate Injective(st: Matching) {
    forall j, k, p :: Holds(st, j, p) && Holds(st, k, p) ==> j == k
  }

  ghost predicate Holds(st: Matching, k: Key, p: nat) {
    k in st.selected && st.selected[k] == Kept(p)
  }

  /** Only kept positions are marked used. */
  ghost predicate Tight(st: Matching) {
    forall p :: p in st.used ==> exists k :: Holds(st, k, p)
  }

  ghost predicate Sound(ms: seq<AgentMessage>, st: Matching) {
    Typed(ms, st) && Injective(st) && Tight(st)
  }

  lemma TypedUpdate(ms: seq<AgentMessage>, st: Matching, r: Matching, k: Key)
    requires Typed(ms, st) && IsKey(ms, k)
    requires k in r.selected && r.selected == st.selected[k := r.selected[k]]
    requires r.selected[k].Kept? ==>
               IsResult(ms, CallAt(ms, k).id, r.selected[k].position) && r.selected[k].position in r.used
    requires forall j :: j in st.selected && j != k && st.selected[j].Kept? ==> st.selected[j].position in r.used
    ensures Typed(ms, r)
  {
  }

  lemma HoldsUpdate(st: Matching, r: Matching, k: Key, p: nat)
    requires Injective(st) && Tight(st)
    requires r.selected == st.selected[k := Kept(p)] && p !in st.used
    requires forall j, u :: Holds(st, j, u) ==> u in st.used
    requires r.used == (if k in st.selected && st.selected[k].Kept? then st.used - {st.selected[k].position}
             else st.used) + {p}
    ensures Injective(r) && Tight(r)
  {
    forall u | u in r.used ensures exists j :: Holds(r, j, u) {
      if u == p {
        assert Holds(r, k, p);
      } else {
        var j :| Holds(st, j, u);
        assert Holds(r, j, u);
      }
    }
    forall i, j, u | Holds(r, i, u) && Holds(r, j, u) ensures i == j {
      if i != k { assert Holds(st, i, u); }
      if j != k { assert Holds(st, j, u); }
    }
  }

  /** Giving k a fresh position, in place of the one it may already keep, is sound. */
  lemma SoundKeep(ms: seq<AgentMessage>, st: Matching, k: Key, p: nat)
    requires Sound(ms, st) && IsKey(ms, k)
    requires IsResult(ms, CallAt(ms, k).id, p) && p !in st.used
    ensures var used := if k in st.selected && st.selected[k].Kept? then st.used - {st.selected[k].position}
            else st.used;
            Sound(ms, Matching(st.selected[k := Kept(p)], used + {p}))
  {
    var used := if k in st.selected && st.selected[k].Kept? then st.used - {st.selected[k].position} else st.used;
    var r := Matching(st.selected[k := Kept(p)], used + {p});
    forall j | j in st.selected && j != k && st.selected[j].Kept? ensures st.selected[j].position in r.used {
      assert Holds(st, j, st.selected[j].position);
      if k in st.selected && st.selected[k].Kept? { assert Holds(st, k, st.selected[k].position); }
    }
    TypedUpdate(ms, st, r, k);
    HoldsUpdate(st, r, k, p);
  }

  lemma SoundSynthesized(ms: seq<AgentMessage>, st: Matching, k: Key)
    requires Sound(ms, st) && IsKey(ms, k) && k !in st.selected
    ensures Sound(ms, st.(selected := st.selected[k := Synthesized]))
  {
    var r := st.(selected := st.selected[k := Synthesized]);
    TypedUpdate(ms, st, r, k);
    forall u | u in r.used ensures exists j :: Holds(r, j, u) {
      var j :| Holds(st, j, u);
      assert Holds(r, j, u);
    }
    forall i, j, u | Holds(r, i, u) && Holds(r, j, u) ensures i == j {
      assert Holds(st, i, u) && Holds(st, j, u);
    }
  }

  lemma ReserveStep(ms: seq<AgentMessage>, st: Matching, k: Key)
    requires IsKey(ms, k) && Sound(ms, st) && k !in st.selected
    ensures Sound(ms, Reserve(ms, st, k))
  {
    hide IsInterruption, CallsOf;
    if Reserve(ms, st, k) != st { SoundKeep(ms, st, k, Expected(k)); }
  }

  ghost predicate AllExpected(st: Matching) {
    forall k :: k in st.selected ==> st.selected[k] == Kept(Expected(k))
  }

  ghost predicate Distinct<T>(ks: seq<T>) {
    forall i, j :: 0 <= i < j < |ks| ==> ks[i] != ks[j]
  }

  lemma EmptySound(ms: seq<AgentMessage>)
    ensures Sound(ms, Matching(map[], {}))
  {
  }

  lemma {:induction false} ReservedSound(ms: seq<AgentMessage>, ks: seq<Key>, n: nat)
    requires AreKeys(ms, ks) && Distinct(ks) && n <= |ks|
    ensures Sound(ms, Reserved(ms, ks, n)) && AllExpected(Reserved(ms, ks, n))
    ensures forall j :: n <= j < |ks| ==> ks[j] !in Reserved(ms, ks, n).selected
  {
    hide IsInterruption, CallsOf, Sound;
    if n == 0 {
      EmptySound(ms);
    } else {
      ReservedSound(ms, ks, n - 1);
      ReserveStep(ms, Reserved(ms, ks, n - 1), ks[n - 1]);
    }
  }

  /** A call is only synthesized for when every result with its id is in use. */
  ghost predicate Exhausted(ms: seq<AgentMessage>, st: Matching, k: Key)
    requires IsKey(ms, k)
  {
    forall p: nat :: IsResult(ms, CallAt(ms, k).id, p) ==> p in st.used
  }

  ghost predicate SynthesisExhausts(ms: seq<AgentMessage>, st: Matching) {
    forall k :: k in st.selected && IsKey(ms, k) && st.selected[k].Synthesized? ==> Exhausted(ms, st, k)
  }

  lemma AssignStep(ms: seq<AgentMessage>, st: Matching, k: Key)
    requires IsKey(ms, k) && Sound(ms, st) && SynthesisExhausts(ms, st)
    ensures Sound(ms, Assign(ms, st, k)) && SynthesisExhausts(ms, Assign(ms, st, k))
    ensures k in Assign(ms, st, k).selected
    ensures forall j :: j in st.selected ==> j in Assign(ms, st, k).selected
  {
    hide IsInterruption, CallsOf;
    if k !in st.selected {
      var id := CallAt(ms, k).id;
      ResultsBelowAre(ms, id, |ms|);
      var candidates := Unused(ResultsFor(ms, id), st.used);
      var r := Assign(ms, st, k);
      if candidates == [] {
        SoundSynthesized(ms, st, k);
        forall p: nat | IsResult(ms, id, p) ensures p in st.used {
          assert p in ResultsFor(ms, id) && p !in candidates;
        }
        assert Exhausted(ms, r, k);
      } else {
        SoundKeep(ms, st, k, PickFrom(ms, candidates, k.message));
      }
      forall j | j in st.selected && IsKey(ms, j) && st.selected[j].Synthesized? ensures Exhausted(ms, r, j) {
        assert Exhausted(ms, st, j);
      }
    }
  }

  ghost predicate Covers(st: Matching, ks: seq<Key>, n: nat)
    requires n <= |ks|
  {
    forall j :: 0 <= j < n ==> ks[j] in st.selected
  }

  lemma {:induction false} AssignedSound(ms: seq<AgentMessage>, ks: seq<Key>, n: nat)
    requires AreKeys(ms, ks) && Distinct(ks) && n <= |ks|
    ensures Sound(ms, Assigned(ms, ks, n)) && SynthesisExhausts(ms, Assigned(ms, ks, n))
    ensures Covers(Assigned(ms, ks, n), ks, n)
  {
    hide IsInterruption, CallsOf, Assign, Sound;
    if n == 0 {
      ReservedSound(ms, ks, |ks|);
      var st := Reserved(ms, ks, |ks|);
      assert SynthesisExhausts(ms, st) by {
        assert forall k :: k in st.selected ==> st.selected[k].Kept?;
      }
      assert Assigned(ms, ks, n) == st;
    } else {
      AssignedSound(ms, ks, n - 1);
      var st := Assigned(ms, ks, n - 1);
      AssignStep(ms, st, ks[n - 1]);
      var r := Assign(ms, st, ks[n - 1]);
      assert r == Assigned(ms, ks, n);
      forall j | 0 <= j < n ensures ks[j] in r.selected {
        if j < n - 1 { assert ks[j] in st.selected; }
      }
    }
  }

  /** A key is left with an interruption only when every genuine result with its id is in use. */
  ghost predicate Settled(ms: seq<AgentMessage>, st: Matching, k: Key) {
    IsKey(ms, k) && k in st.selected && st.selected[k].Kept? && st.selected[k].position < |ms|
      && IsInterruption(ms[st.selected[k].position]) ==>
      forall p: nat :: IsResult(ms, CallAt(ms, k).id, p) && !IsInterruption(ms[p]) ==> p in st.used
  }

  ghost predicate AllSettled(ms: seq<AgentMessage>, st: Matching, ks: seq<Key>, n: nat)
    requires n <= |ks|
  {
    forall j :: 0 <= j < n ==> Settled(ms, st, ks[j])
  }

  /** ... and unsettles no other key. */
  lemma UpgradeKeepsSettled(ms: seq<AgentMessage>, st: Matching, k: Key, j: Key)
    requires IsKey(ms, k) && j != k && Settled(ms, st, j)
    ensures Settled(ms, Upgrade(ms, st, k), j)
  {
  }

  lemma {:induction false} UpgradedSound(ms: seq<AgentMessage>, ks: seq<Key>, n: nat)
    requires AreKeys(ms, ks) && Distinct(ks) && n <= |ks|
    ensures Sound(ms, Upgraded(ms, ks, n)) && SynthesisExhausts(ms, Upgraded(ms, ks, n))
    ensures Covers(Upgraded(ms, ks, n), ks, |ks|)
    ensures AllSettled(ms, Upgraded(ms, ks, n), ks, n)
  {
    hide IsInterruption, CallsOf, Upgrade, Sound, SynthesisExhausts, Settled;
    if n == 0 {
      AssignedSound(ms, ks, |ks|);
    } else {
      UpgradedSound(ms, ks, n - 1);
      var st := Upgraded(ms, ks, n - 1);
      UpgradeStep(ms, st, ks[n - 1]);
      var r := Upgrade(ms, st, ks[n - 1]);
      assert r == Upgraded(ms, ks, n);
      forall j | 0 <= j < n ensures Settled(ms, r, ks[j]) {
        if j < n - 1 { UpgradeKeepsSettled(ms, st, ks[n - 1], ks[j]); }
      }
    }
  }

  /** One step of pass 3 keeps soundness and exhaustion and settles its key. */
  lemma UpgradeStep(ms: seq<AgentMessage>, st: Matching, k: Key)
    requires IsKey(ms, k) && k in st.selected && Sound(ms, st) && SynthesisExhausts(ms, st)
    ensures Sound(ms, Upgrade(ms, st, k)) && SynthesisExhausts(ms, Upgrade(ms, st, k))
    ensures Upgrade(ms, st, k).selected.Keys == st.selected.Keys
    ensures Settled(ms, Upgrade(ms, st, k), k)
  {
    hide IsInterruption, CallsOf;
    if st.selected[k].Kept? && IsInterruption(ms[st.selected[k].position]) {
      var spare := Unused(ResultsFor(ms, CallAt(ms, k).id), st.used);
      assert forall q: nat :: IsResult(ms, CallAt(ms, k).id, q) && q !in st.used <==> q in spare by {
        ResultsBelowAre(ms, CallAt(ms, k).id, |ms|);
      }
      match FirstGenuine(ms, spare)
      case None =>
      case Some(q) => SwapStep(ms, st, k, q);
    }
  }

  lemma SwapStep(ms: seq<AgentMessage>, st: Matching, k: Key, q: nat)
    requires IsKey(ms, k) && k in st.selected && Sound(ms, st) && SynthesisExhausts(ms, st)
    requires st.selected[k].Kept? && IsInterruption(ms[st.selected[k].position])
    requires IsResult(ms, CallAt(ms, k).id, q) && q !in st.used && !IsInterruption(ms[q])
    ensures var r := Matching(st.selected[k := Kept(q)], st.used - {st.selected[k].position} + {q});
            Sound(ms, r) && SynthesisExhausts(ms, r)
  {
    hide IsInterruption, CallsOf;
    var id, p := CallAt(ms, k).id, st.selected[k].position;
    SoundKeep(ms, st, k, q);
    var r := Matching(st.selected[k := Kept(q)], st.used - {p} + {q});
    forall j | j in r.selected && IsKey(ms, j) && r.selected[j].Synthesized? ensures Exhausted(ms, r, j) {
      assert Exhausted(ms, st, j);
      assert CallAt(ms, j).id != id;
    }
  }

  /** The finished matching: sound, total on the keys, and no call is left
      synthesized or interrupted while a better result with its id is unused. */
  ghost predicate Finished(ms: seq<AgentMessage>, st: Matching) {
    && Sound(ms, st)
    && (forall k :: k in st.selected <==> IsKey(ms, k))
    && SynthesisExhausts(ms, st)
    && (forall k :: k in st.selected ==> Settled(ms, st, k))
  }

  lemma MatchFinished(ms: seq<AgentMessage>)
    ensures Finished(ms, Match(ms))
  {
    hide IsInterruption, CallsOf, SynthesisExhausts, Settled;
    KeysDistinct(ms, |ms|);
    UpgradedSound(ms, Keys(ms), |Keys(ms)|);
    forall k | IsKey(ms, k) ensures k in Match(ms).selected && Settled(ms, Match(ms), k) {
      KeysComplete(ms, |ms|, k);
      var j :| 0 <= j < |Keys(ms)| && Keys(ms)[j] == k;
    }
  }
}
