/** Approval policies: looking one up by tool name, and the decision hook they make. */
module Policies {
  import opened Messages
  import opened Events
  import opened Tools
  import opened Decisions
  import opened SessionLog
  import opened Store

  /** A named policy or a custom one, an uninterpreted function of its arguments. */
  datatype ApprovalPolicy = Never | Once | Always | Custom(decide: (string, Json, Option<string>) -> ToolDecision)

  // ----------------------------------------------------------- approved tools

  /** The tools some tool-approval request of the log was approved for. */
  function ApprovedTools(log: Log): set<string> {
    set id | id in Approvals(log) && id in Requests(log) && Requests(log)[id].kind.ToolApproval? ::
      Requests(log)[id].toolName
  }

  /** `approved_tools`: one pass for requests and approvals, then the names. */
  method ApprovedToolsIn(store: SessionStore, id: string) returns (names: set<string>)
    ensures names == ApprovedTools(store.LogOf(id))
  {
    var entries := store.Entries(id);
    var requested: map<string, PendingInputRequest>, approved: set<string> := map[], {};
    for i := 0 to |entries|
      invariant requested == Requests(entries[..i]) && approved == Approvals(entries[..i]).Keys
    {
      assert entries[..i + 1][..i] == entries[..i];
      match entries[i] {
        case RequestedEntry(r) => requested := requested[r.id := r];
        case ResolvedEntry(res) => if res.decision.Approved? { approved := approved + {res.requestId}; }
        case _ =>
      }
    }
    assert entries[..|entries|] == entries;
    names := {};
    var left := approved;
    while left != {}
      invariant left <= approved
      invariant names == set j | j in approved - left && j in requested && requested[j].kind.ToolApproval? ::
                  requested[j].toolName
      decreases |left|
    {
      var requestId :| requestId in left;
      left := left - {requestId};
      if requestId in requested && requested[requestId].kind.ToolApproval? {
        names := names + {requested[requestId].toolName};
      }
    }
  }

  // ------------------------------------------------------------ policy lookup

  predicate EndsWith(name: string, suffix: string) {
    |suffix| <= |name| && name[|name| - |suffix|..] == suffix
  }

  const SEPARATOR := "__"

  /** A key that applies to a qualified name: the whole part behind some separator. */
  predicate AppliesTo(key: string, name: string) {
    EndsWith(name, SEPARATOR + key)
  }

  /** The longest key that applies. */
  ghost predicate IsBestKey(keys: set<string>, name: string, key: string) {
    key in keys && AppliesTo(key, name) && forall k :: k in keys && AppliesTo(k, name) ==> |k| <= |key|
  }

  /** Keys of the same length that apply to the same name are the same key. */
  lemma SameLengthSameKey(j: string, k: string, name: string)
    requires AppliesTo(j, name) && AppliesTo(k, name) && |j| == |k|
    ensures j == k
  {
    var a, b := SEPARATOR + j, SEPARATOR + k;
    assert a == b;
    assert j == a[2..] && k == b[2..];
  }

  lemma BestKeyUnique(keys: set<string>, name: string, j: string, k: string)
    requires IsBestKey(keys, name, j) && IsBestKey(keys, name, k)
    ensures j == k
  {
    SameLengthSameKey(j, k, name);
  }

  /** The part behind the first separator, from position i on, that is a key. */
  function FirstKeyFrom(keys: set<string>, name: string, i: nat): Option<string>
    decreases |name| - i
  {
    if i + 2 > |name| then None
    else if name[i..i + 2] == SEPARATOR && name[i + 2..] in keys then Some(name[i + 2..])
    else FirstKeyFrom(keys, name, i + 1)
  }

  lemma AppliesAt(name: string, key: string)
    ensures AppliesTo(key, name) <==>
              |key| + 2 <= |name| && name[|name| - |key| - 2..|name| - |key|] == SEPARATOR
                && name[|name| - |key|..] == key
  {
    if |key| + 2 <= |name| {
      var i := |name| - |key| - 2;
      assert name[i..] == name[i..i + 2] + name[i + 2..];
      if AppliesTo(key, name) {
        assert name[i..][..2] == SEPARATOR && name[i..][2..] == key;
      }
    }
  }

  /** Scanning the name from the left finds the longest key. */
  lemma {:induction false} FirstKeyIsBest(keys: set<string>, name: string, i: nat)
    requires i <= |name|
    requires forall k :: k in keys && AppliesTo(k, name) ==> |k| + 2 <= |name| - i
    ensures match FirstKeyFrom(keys, name, i)
            case Some(key) => IsBestKey(keys, name, key)
            case None => forall k :: k in keys ==> !AppliesTo(k, name)
    decreases |name| - i
  {
    hide AppliesTo;
    if i + 2 > |name| {
    } else {
      var rest := name[i + 2..];
      AppliesAt(name, rest);
      assert name[|name| - |rest|..] == rest && name[|name| - |rest| - 2..|name| - |rest|] == name[i..i + 2];
      if !(name[i..i + 2] == SEPARATOR && rest in keys) {
        forall k | k in keys && AppliesTo(k, name) ensures |k| + 2 <= |name| - (i + 1) {
          AppliesAt(name, k);
        }
        FirstKeyIsBest(keys, name, i + 1);
      }
    }
  }

  /** `_resolve_policy` as a function: the exact key, else the longest suffix key, else the default. */
  function PolicyFor(policies: map<string, ApprovalPolicy>, name: string, default: ApprovalPolicy): ApprovalPolicy {
    if name in policies then policies[name]
    else
      match FirstKeyFrom(policies.Keys, name, 0)
      case Some(key) => if key in policies then policies[key] else default
      case None => default
  }

  lemma BestKeyIs(policies: map<string, ApprovalPolicy>, name: string)
    ensures match FirstKeyFrom(policies.Keys, name, 0)
            case Some(key) => IsBestKey(policies.Keys, name, key)
            case None => forall k :: k in policies ==> !AppliesTo(k, name)
  {
    forall k | k in policies.Keys && AppliesTo(k, name) ensures |k| + 2 <= |name| { AppliesAt(name, k); }
    FirstKeyIsBest(policies.Keys, name, 0);
  }

  /** `_resolve_policy`: one pass over the keys in whatever order the mapping has. */
  method ResolvePolicy(policies: map<string, ApprovalPolicy>, order: seq<string>, name: string, default: ApprovalPolicy)
    returns (policy: ApprovalPolicy)
    requires forall k :: k in order <==> k in policies
    ensures policy == PolicyFor(policies, name, default)
  {
    if name in policies { return policies[name]; }
    var best: Option<string> := None;
    for i := 0 to |order|
      invariant best.None? ==> forall k :: k in order[..i] ==> !AppliesTo(k, name)
      invariant best.Some? ==>
        best.value in order && AppliesTo(best.value, name) && forall k ::
          k in order[..i] && AppliesTo(k, name) ==> |k| <= |best.value|
    {
      assert order[..i + 1] == order[..i] + [order[i]];
      if AppliesTo(order[i], name) && (best.None? || |order[i]| > |best.value|) { best := Some(order[i]); }
    }
    assert order[..|order|] == order;
    BestKeyIs(policies, name);
    if best.None? { return default; }
    assert IsBestKey(policies.Keys, name, best.value);
    var found := FirstKeyFrom(policies.Keys, name, 0);
    assert found.Some?;
    BestKeyUnique(policies.Keys, name, best.value, found.value);
    policy := policies[best.value];
  }

  // ------------------------------------------------------------------ the hook

  /** Where a once policy looks up approvals: a session's log, or nowhere. */
  datatype History = NoHistory | HistoryOf(sessionId: string, log: Log)

  /** What a policy decides for a call. */
  function Verdict(policy: ApprovalPolicy, call: ToolCall, history: History): ToolDecision {
    match policy
    case Never => Allow
    case Always => RequireApproval(None, None)
    case Once =>
      if history.HistoryOf? && call.name in ApprovedTools(history.log) then Allow else RequireApproval(None, None)
    case Custom(decide) =>
      decide(call.name, call.arguments, if history.HistoryOf? then Some(history.sessionId) else None)
  }

  /** `build_decision_hook` */
  function BuildHook(policies: map<string, ApprovalPolicy>, default: ApprovalPolicy, history: History): DecisionHook {
    (call: ToolCall, tool: Option<AgentTool>) => Verdict(PolicyFor(policies, call.name, default), call, history)
  }

  /** The hook as it runs: it reads the store on every check. */
  method Hook(policies: map<string, ApprovalPolicy>, order: seq<string>, default: ApprovalPolicy, store: SessionStore,
              id: string, call: ToolCall, tool: Option<AgentTool>) returns (decision: ToolDecision)
    requires forall k :: k in order <==> k in policies
    ensures decision == BuildHook(policies, default, HistoryOf(id, store.LogOf(id)))(call, tool)
  {
    var policy := ResolvePolicy(policies, order, call.name, default);
    match policy {
      case Custom(decide) => decision := decide(call.name, call.arguments, Some(id));
      case Never => decision := Allow;
      case Always => decision := RequireApproval(None, None);
      case Once =>
        var approved := ApprovedToolsIn(store, id);
        decision := if call.name in approved then Allow else RequireApproval(None, None);
    }
  }
}
