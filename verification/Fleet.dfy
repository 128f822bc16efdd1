/** The fleet inbox: one relational query over all sessions, against deriving each
    session's pending requests on its own. */
module Fleet {
  import opened Messages
  import opened Events
  import opened SessionLog
  import opened Protocol
  import opened ProtocolSafety
  import opened Store

  datatype Hop = Hop(sessionId: string, agentId: string)

  datatype InboxRow = InboxRow(
    request: PendingInputRequest, sessionId: string, agentId: string, createdAt: int, rootSessionId: string,
    path: seq<Hop>)

  // --------------------------------------------------------------- ancestry

  /** The recursive relation of the query: `id` is `depth` hops above `origin`. */
  ghost predicate InPath(sessions: map<string, SessionRecord>, origin: string, id: string, depth: nat)
    decreases depth
  {
    && origin in sessions && id in sessions
    && if depth == 0 then id == origin
       else exists below: string ::
         InPath(sessions, origin, below, depth - 1) && sessions[below].parentSessionId == Some(id)
  }

  /** A session and its ancestors, root last. */
  ghost function Up(sessions: map<string, SessionRecord>, ranks: map<string, nat>, id: string): (path: seq<string>)
    requires Rooted(sessions, ranks) && id in sessions
    ensures path != [] && forall p :: p in path ==> p in sessions
    decreases ranks[id]
  {
    match sessions[id].parentSessionId
    case None => [id]
    case Some(parent) => [id] + Up(sessions, ranks, parent)
  }

  lemma {:induction false} UpClimbs(sessions: map<string, SessionRecord>, ranks: map<string, nat>, id: string, d: nat)
    requires Rooted(sessions, ranks) && id in sessions && d < |Up(sessions, ranks, id)|
    ensures var up := Up(sessions, ranks, id);
            && up[0] == id
            && sessions[up[d]].parentSessionId == (if d + 1 < |up| then Some(up[d + 1]) else None)
    decreases ranks[id]
  {
    if sessions[id].parentSessionId.Some? {
      var parent := sessions[id].parentSessionId.value;
      UpClimbs(sessions, ranks, parent, if d > 0 then d - 1 else 0);
    }
  }

  /** On a forest the relation is the ancestor chain: each depth has exactly one session. */
  lemma {:induction false} PathIsChain(sessions: map<string, SessionRecord>, ranks: map<string, nat>, origin: string,
                                       id: string, depth: nat)
    requires Rooted(sessions, ranks) && origin in sessions
    ensures InPath(sessions, origin, id, depth) <==>
              depth < |Up(sessions, ranks, origin)| && Up(sessions, ranks, origin)[depth] == id
    decreases depth
  {
    var up := Up(sessions, ranks, origin);
    UpClimbs(sessions, ranks, origin, 0);
    if depth > 0 {
      forall below: string | below in sessions
        ensures InPath(sessions, origin, below, depth - 1) <==> depth - 1 < |up| && up[depth - 1] == below
      {
        PathIsChain(sessions, ranks, origin, below, depth - 1);
      }
      if depth - 1 < |up| { UpClimbs(sessions, ranks, origin, depth - 1); }
      if depth < |up| && up[depth] == id {
        assert up[depth - 1] in up && up[depth] in up;
        assert InPath(sessions, origin, up[depth - 1], depth - 1);
        assert sessions[up[depth - 1]].parentSessionId == Some(id);
      }
    }
  }

  /** The hops of a session: its relation rows, deepest first. */
  ghost function PathOf(sessions: map<string, SessionRecord>, ranks: map<string, nat>, id: string): seq<Hop>
    requires Rooted(sessions, ranks) && id in sessions
    decreases ranks[id]
  {
    match sessions[id].parentSessionId
    case None => [Hop(id, sessions[id].agentId)]
    case Some(parent) => PathOf(sessions, ranks, parent) + [Hop(id, sessions[id].agentId)]
  }

  ghost function RootOf(sessions: map<string, SessionRecord>, ranks: map<string, nat>, id: string): string
    requires Rooted(sessions, ranks) && id in sessions
  {
    Up(sessions, ranks, id)[|Up(sessions, ranks, id)| - 1]
  }

  lemma {:induction false} PathReversesUp(sessions: map<string, SessionRecord>, ranks: map<string, nat>, id: string,
                                          i: nat)
    requires Rooted(sessions, ranks) && id in sessions && i < |Up(sessions, ranks, id)|
    ensures var up, path := Up(sessions, ranks, id), PathOf(sessions, ranks, id);
            |path| == |up| && path[i] == Hop(up[|up| - 1 - i], sessions[up[|up| - 1 - i]].agentId)
    decreases ranks[id]
  {
    hide Rooted;
    RootedAt(sessions, ranks, id);
    if sessions[id].parentSessionId.Some? {
      var parent := sessions[id].parentSessionId.value;
      var up, rest := Up(sessions, ranks, id), Up(sessions, ranks, parent);
      assert up == [id] + rest;
      hide Up;
      assert i < |up| - 1 ==> up[|up| - 1 - i] == rest[|rest| - 1 - i];
      PathReversesUp(sessions, ranks, parent, if i < |up| - 1 then i else 0);
    }
  }

  lemma RootedAt(sessions: map<string, SessionRecord>, ranks: map<string, nat>, id: string)
    requires Rooted(sessions, ranks) && id in sessions
    ensures id in ranks
    ensures sessions[id].parentSessionId.Some? ==>
              var p := sessions[id].parentSessionId.value; p in sessions && p in ranks && ranks[p] < ranks[id]
  {
  }

  /** A path runs from the root, the one ancestor without a parent, down to the session;
      its hops are the rows of the recursive relation, deepest first. */
  lemma PathIsRootFirst(sessions: map<string, SessionRecord>, ranks: map<string, nat>, id: string, i: nat)
    requires Rooted(sessions, ranks) && id in sessions && i < |Up(sessions, ranks, id)|
    ensures var up, path := Up(sessions, ranks, id), PathOf(sessions, ranks, id);
            && |path| == |up| && path[i] == Hop(up[|up| - 1 - i], sessions[up[|up| - 1 - i]].agentId)
            && InPath(sessions, id, path[i].sessionId, |up| - 1 - i)
            && (sessions[up[i]].parentSessionId.None? <==> up[i] == RootOf(sessions, ranks, id))
  {
    hide Rooted, Up, PathOf, InPath;
    var up := Up(sessions, ranks, id);
    PathReversesUp(sessions, ranks, id, i);
    PathIsChain(sessions, ranks, id, up[|up| - 1 - i], |up| - 1 - i);
    UpClimbs(sessions, ranks, id, i);
    if i < |up| - 1 { UpRises(sessions, ranks, id, i); }
  }

  lemma {:induction false} UpRises(sessions: map<string, SessionRecord>, ranks: map<string, nat>, id: string, i: nat)
    requires Rooted(sessions, ranks) && id in sessions && i < |Up(sessions, ranks, id)| - 1
    ensures ranks[RootOf(sessions, ranks, id)] < ranks[Up(sessions, ranks, id)[i]]
    decreases |Up(sessions, ranks, id)| - i
  {
    UpClimbs(sessions, ranks, id, i);
    if i + 1 < |Up(sessions, ranks, id)| - 1 { UpRises(sessions, ranks, id, i + 1); }
  }

  // --------------------------------------------------------------- the query

  predicate OfKind(kinds: Option<set<RequestKind>>, r: PendingInputRequest) {
    kinds.None? || r.kind in kinds.value
  }

  /** Whether a request entry survives the kind filter and the anti-join with the
      resolutions of its own session. */
  predicate Selected(all: seq<Row>, row: Row, kinds: Option<set<RequestKind>>) {
    row.entry.RequestedEntry? && OfKind(kinds, row.entry.request)
      && row.entry.request.id !in ResolvedIds(LogIn(all, row.sessionId))
  }

  /** The selected rows among some of the table's rows, in table order. */
  function Listed(all: seq<Row>, rows: seq<Row>, kinds: Option<set<RequestKind>>): (r: seq<Row>)
    ensures forall x :: x in r ==> x in rows && x.entry.RequestedEntry?
  {
    if rows == [] then []
    else if Selected(all, rows[|rows| - 1], kinds) then Listed(all, rows[..|rows| - 1], kinds) + [rows[|rows| - 1]]
    else Listed(all, rows[..|rows| - 1], kinds)
  }

  ghost function InboxRowOf(sessions: map<string, SessionRecord>, ranks: map<string, nat>, row: Row): InboxRow
    requires Rooted(sessions, ranks) && row.sessionId in sessions && row.entry.RequestedEntry?
  {
    var id := row.sessionId;
    InboxRow(row.entry.request, id, sessions[id].agentId, row.createdAt, RootOf(sessions, ranks, id),
             PathOf(sessions, ranks, id))
  }

  /** An inbox row tells where its request came from: the last hop of its path is the
      session that raised it, with its agent; the first is the root, which has no parent;
      and each hop's session is the parent of the next one's. */
  lemma RowAgrees(sessions: map<string, SessionRecord>, ranks: map<string, nat>, row: Row, i: nat)
    requires Rooted(sessions, ranks) && row.sessionId in sessions && row.entry.RequestedEntry?
    requires i < |PathOf(sessions, ranks, row.sessionId)|
    ensures var x := InboxRowOf(sessions, ranks, row);
            && x.request == row.entry.request && x.createdAt == row.createdAt
            && x.path[|x.path| - 1] == Hop(x.sessionId, x.agentId) && x.sessionId == row.sessionId
            && x.path[0].sessionId == x.rootSessionId && x.path[i].sessionId in sessions
            && x.path[i].agentId == sessions[x.path[i].sessionId].agentId
            && sessions[x.path[i].sessionId].parentSessionId == (if i == 0 then None else Some(x.path[i - 1].sessionId))
  {
    hide Rooted, Up, PathOf;
    var id := row.sessionId;
    var up := Up(sessions, ranks, id);
    PathReversesUp(sessions, ranks, id, 0);
    PathReversesUp(sessions, ranks, id, i);
    PathReversesUp(sessions, ranks, id, |up| - 1);
    if i > 0 { PathReversesUp(sessions, ranks, id, i - 1); }
    UpClimbs(sessions, ranks, id, 0);
    UpClimbs(sessions, ranks, id, |up| - 1 - i);
    assert up[|up| - 1 - i] in up;
  }

  /** The anti-join: whether some resolution of the same session names this request. */
  method IsResolved(rows: seq<Row>, sessionId: string, requestId: string) returns (found: bool)
    ensures found == (requestId in ResolvedIds(LogIn(rows, sessionId)))
  {
    found := false;
    for i := 0 to |rows|
      invariant found == (requestId in ResolvedIds(LogIn(rows[..i], sessionId)))
    {
      assert rows[..i + 1][..i] == rows[..i];
      ghost var log := LogIn(rows[..i], sessionId);
      if rows[i].sessionId == sessionId {
        assert (log + [rows[i].entry])[..|log|] == log;
        if rows[i].entry.ResolvedEntry? && rows[i].entry.resolution.requestId == requestId { found := true; }
      }
    }
    assert rows[..|rows|] == rows;
  }

  /** A session's hops and root, walked from the session up. */
  method PathTo(store: SessionStore, id: string) returns (path: seq<Hop>, root: string)
    requires store.Valid() && Rooted(store.sessions, store.ranks) && id in store.sessions
    ensures path == PathOf(store.sessions, store.ranks, id) && root == RootOf(store.sessions, store.ranks, id)
  {
    root := id;
    path := [Hop(id, store.sessions[id].agentId)];
    while store.sessions[root].parentSessionId.Some?
      invariant root in store.sessions
      invariant path != [] && path[0] == Hop(root, store.sessions[root].agentId)
      invariant PathOf(store.sessions, store.ranks, root) + path[1..] == PathOf(store.sessions, store.ranks, id)
      invariant RootOf(store.sessions, store.ranks, root) == RootOf(store.sessions, store.ranks, id)
      decreases store.ranks[root]
    {
      var parent := store.sessions[root].parentSessionId.value;
      ghost var below := path;
      assert below == [below[0]] + below[1..];
      path := [Hop(parent, store.sessions[parent].agentId)] + path;
      assert path[1..] == below;
      root := parent;
    }
    assert path == [path[0]] + path[1..];
  }

  // ------------------------------------------------------- the order of the rows

  /** Strings in the order of their code points. */
  predicate Precedes(a: string, b: string) {
    if a == "" || b == "" then a == "" && b != ""
    else if a[0] != b[0] then a[0] < b[0]
    else Precedes(a[1..], b[1..])
  }

  lemma {:induction false} PrecedesTrans(a: string, b: string, c: string)
    requires Precedes(a, b) && Precedes(b, c)
    ensures Precedes(a, c)
  {
    if a != "" && a[0] == b[0] == c[0] { PrecedesTrans(a[1..], b[1..], c[1..]); }
  }

  /** One of two strings comes first, unless they are the same. */
  lemma {:induction false} PrecedesTotal(a: string, b: string)
    ensures Precedes(a, b) || Precedes(b, a) || a == b
    ensures !(Precedes(a, b) && Precedes(b, a)) && !Precedes(a, a)
  {
    if a != "" && b != "" && a[0] == b[0] {
      PrecedesTotal(a[1..], b[1..]);
      assert a == [a[0]] + a[1..] && b == [b[0]] + b[1..];
    }
    if a != "" { PrecedesTotal(a[1..], a[1..]); }
  }

  /** Oldest first, then by session, then by number. */
  predicate AtMost(a: Row, b: Row) {
    || a.createdAt < b.createdAt
    || (a.createdAt == b.createdAt
        && (Precedes(a.sessionId, b.sessionId) || (a.sessionId == b.sessionId && a.seqNo <= b.seqNo)))
  }

  lemma AtMostTrans(a: Row, b: Row, c: Row)
    requires AtMost(a, b) && AtMost(b, c)
    ensures AtMost(a, c)
  {
    if Precedes(a.sessionId, b.sessionId) && Precedes(b.sessionId, c.sessionId) {
      PrecedesTrans(a.sessionId, b.sessionId, c.sessionId);
    }
  }

  ghost predicate InOrder(rows: seq<Row>) {
    forall i, j :: 0 <= i < j < |rows| ==> AtMost(rows[i], rows[j])
  }

  ghost predicate FirstDiffers(a: string, b: string, k: nat) {
    && k <= |a| && k < |b| && a[..k] == b[..k]
    && (k < |a| ==> a[k] < b[k])
  }

  lemma SameHead(a: string, b: string, k: nat)
    requires FirstDiffers(a, b, k) && k > 0
    ensures a != "" && b != "" && a[0] == b[0]
  {
    assert a[..k][0] == a[0] && b[..k][0] == b[0];
  }

  /** A string precedes another that goes on where it ends, or has a greater character at
      the first place where they differ. */
  lemma {:induction false} PrecedesIff(a: string, b: string)
    ensures Precedes(a, b) <==> exists k: nat :: FirstDiffers(a, b, k)
  {
    if a == "" || b == "" || a[0] != b[0] {
      if Precedes(a, b) { assert FirstDiffers(a, b, 0); }
      forall k: nat | FirstDiffers(a, b, k) ensures k == 0 { if k > 0 { SameHead(a, b, k); } }
    } else {
      PrecedesIff(a[1..], b[1..]);
      forall k: nat ensures FirstDiffers(a[1..], b[1..], k) ==> FirstDiffers(a, b, k + 1) {
        if FirstDiffers(a[1..], b[1..], k) {
          assert a[..k + 1] == [a[0]] + a[1..][..k] && b[..k + 1] == [b[0]] + b[1..][..k];
        }
      }
      forall k: nat | FirstDiffers(a, b, k) ensures k > 0 && FirstDiffers(a[1..], b[1..], k - 1) {
        if k > 0 { assert a[1..][..k - 1] == a[..k][1..] && b[1..][..k - 1] == b[..k][1..]; }
      }
    }
  }

  /** The order is oldest first; rows of one time by session, and a session's by number. */
  lemma OldestFirst(order: seq<Row>, i: nat, j: nat)
    requires InOrder(order) && i < j < |order|
    ensures order[i].createdAt <= order[j].createdAt
    ensures order[i].createdAt == order[j].createdAt ==>
              order[i].sessionId == order[j].sessionId || Precedes(order[i].sessionId, order[j].sessionId)
    ensures order[i].createdAt == order[j].createdAt && order[i].sessionId == order[j].sessionId ==>
              order[i].seqNo <= order[j].seqNo
  {
    assert AtMost(order[i], order[j]);
    PrecedesTotal(order[i].sessionId, order[j].sessionId);
  }

  lemma InsertKeepsOrder(rows: seq<Row>, p: nat, row: Row)
    requires InOrder(rows) && p <= |rows| && (p < |rows| ==> AtMost(row, rows[p]))
    requires forall i :: 0 <= i < p ==> AtMost(rows[i], row)
    ensures InOrder(rows[..p] + [row] + rows[p..])
    ensures multiset(rows[..p] + [row] + rows[p..]) == multiset(rows) + multiset{row}
  {
    hide AtMost;
    forall i | p < i < |rows| ensures AtMost(row, rows[i]) { AtMostTrans(row, rows[p], rows[i]); }
    assert rows == rows[..p] + rows[p..];
  }

  /** `ORDER BY created_at, session_id, seq` */
  method SortRows(rows: seq<Row>) returns (sorted: seq<Row>)
    ensures InOrder(sorted) && multiset(sorted) == multiset(rows)
  {
    hide AtMost, InOrder;
    sorted := [];
    assert InOrder([]) by { NothingInOrder(); }
    for i := 0 to |rows|
      invariant InOrder(sorted) && multiset(sorted) == multiset(rows[..i])
    {
      var p := 0;
      while p < |sorted| && AtMost(sorted[p], rows[i])
        invariant p <= |sorted| && forall k :: 0 <= k < p ==> AtMost(sorted[k], rows[i])
      {
        p := p + 1;
      }
      if p < |sorted| { AtMostTotal(sorted[p], rows[i]); }
      InsertKeepsOrder(sorted, p, rows[i]);
      sorted := sorted[..p] + [rows[i]] + sorted[p..];
      assert rows[..i + 1] == rows[..i] + [rows[i]];
    }
    assert rows[..|rows|] == rows;
  }

  lemma NothingInOrder()
    ensures InOrder([])
  {
  }

  lemma AtMostTotal(a: Row, b: Row)
    ensures AtMost(a, b) || AtMost(b, a)
  {
    PrecedesTotal(a.sessionId, b.sessionId);
  }

  /** The selected rows of the table. */
  method SelectRows(rows: seq<Row>, kinds: Option<set<RequestKind>>) returns (listed: seq<Row>)
    ensures listed == Listed(rows, rows, kinds)
  {
    hide LogIn, ResolvedIds;
    listed := [];
    for i := 0 to |rows|
      invariant listed == Listed(rows, rows[..i], kinds)
    {
      assert rows[..i + 1][..i] == rows[..i];
      var row := rows[i];
      if row.entry.RequestedEntry? && OfKind(kinds, row.entry.request) {
        var resolved := IsResolved(rows, row.sessionId, row.entry.request.id);
        if !resolved { listed := listed + [row]; }
      }
    }
    assert rows[..|rows|] == rows;
  }

  /** What the inbox shows for the rows of an order. */
  ghost predicate Shows(store: SessionStore, inbox: seq<InboxRow>, order: seq<Row>)
    requires Rooted(store.sessions, store.ranks)
    reads store
  {
    && |inbox| == |order|
    && forall i :: 0 <= i < |order| ==>
         && order[i].sessionId in store.sessions && order[i].entry.RequestedEntry?
         && inbox[i] == InboxRowOf(store.sessions, store.ranks, order[i])
  }

  /** `pending_requests_fleet`: the selected rows, oldest first. */
  method PendingRequestsFleet(store: SessionStore, kinds: Option<set<RequestKind>>)
    returns (inbox: seq<InboxRow>)
    requires store.Valid() && Rooted(store.sessions, store.ranks)
    ensures exists order ::
              && InOrder(order) && multiset(order) == multiset(Listed(store.rows, store.rows, kinds))
              && Shows(store, inbox, order)
  {
    hide RootOf, PathOf, LogIn, ResolvedIds, Numbered, InOrder, Listed;
    var listed := SelectRows(store.rows, kinds);
    var sorted := SortRows(listed);
    inbox := [];
    for i := 0 to |sorted|
      invariant Shows(store, inbox, sorted[..i])
    {
      var row := sorted[i];
      assert row in multiset(sorted) && row in listed;
      var path, root := PathTo(store, row.sessionId);
      inbox := inbox + [InboxRow(row.entry.request, row.sessionId, store.sessions[row.sessionId].agentId,
                                 row.createdAt, root, path)];
    }
    assert sorted[..|sorted|] == sorted;
  }

  // ------------------------------------------- against per-session derivation

  /** Whether the inbox lists this request for this session. */
  ghost predicate InInbox(rows: seq<Row>, kinds: Option<set<RequestKind>>, id: string, r: PendingInputRequest) {
    exists row :: row in Listed(rows, rows, kinds) && row.sessionId == id && row.entry == RequestedEntry(r)
  }

  lemma {:induction false} ListedIff(all: seq<Row>, rows: seq<Row>, kinds: Option<set<RequestKind>>, row: Row)
    ensures row in Listed(all, rows, kinds) <==> row in rows && Selected(all, row, kinds)
  {
    hide Selected;
    if rows != [] {
      ListedIff(all, rows[..|rows| - 1], kinds, row);
      assert row in rows <==> row in rows[..|rows| - 1] || row == rows[|rows| - 1];
    }
  }

  lemma {:induction false} LogHasRow(rows: seq<Row>, id: string, e: Entry)
    ensures e in LogIn(rows, id) <==> exists row :: row in rows && row.sessionId == id && row.entry == e
  {
    if rows != [] {
      var init, last := rows[..|rows| - 1], rows[|rows| - 1];
      LogHasRow(init, id, e);
      assert forall row :: row in rows <==> row in init || row == last;
    }
  }

  /** The inbox lists every unresolved request entry of the kinds asked for. */
  lemma InboxIff(rows: seq<Row>, kinds: Option<set<RequestKind>>, id: string, r: PendingInputRequest)
    ensures InInbox(rows, kinds, id, r) <==>
              RequestedEntry(r) in LogIn(rows, id) && OfKind(kinds, r) && r.id !in ResolvedIds(LogIn(rows, id))
  {
    hide LogIn, ResolvedIds, Listed;
    LogHasRow(rows, id, RequestedEntry(r));
    if InInbox(rows, kinds, id, r) {
      var row :| row in Listed(rows, rows, kinds) && row.sessionId == id && row.entry == RequestedEntry(r);
      ListedIff(rows, rows, kinds, row);
    }
    if RequestedEntry(r) in LogIn(rows, id) && OfKind(kinds, r) && r.id !in ResolvedIds(LogIn(rows, id)) {
      var row :| row in rows && row.sessionId == id && row.entry == RequestedEntry(r);
      ListedIff(rows, rows, kinds, row);
    }
  }

  /** A request that a later one with its id replaced, though neither was resolved. */
  ghost predicate Superseded(log: Log, r: PendingInputRequest) {
    RequestedEntry(r) in log && r.id in Requests(log) && Requests(log)[r.id] != r && r.id !in ResolvedIds(log)
  }

  lemma {:induction false} RequestedIn(log: Log, r: PendingInputRequest)
    requires RequestedEntry(r) in log
    ensures r.id in Requests(log)
  {
    var last := log[|log| - 1];
    if last != RequestedEntry(r) { RequestedIn(log[..|log| - 1], r); }
  }

  lemma {:induction false} RequestsFromLog(log: Log, id: string)
    requires id in Requests(log)
    ensures RequestedEntry(Requests(log)[id]) in log
  {
    var last := log[|log| - 1];
    if !(last.RequestedEntry? && last.request.id == id) {
      RequestsFromLog(log[..|log| - 1], id);
      assert RequestedEntry(Requests(log)[id]) in log[..|log| - 1];
    }
  }

  /** For one session, the inbox is its derived pending requests of those kinds, and the
      superseded ones besides. */
  lemma InboxIsPendingAndSuperseded(rows: seq<Row>, kinds: Option<set<RequestKind>>, id: string, r: PendingInputRequest)
    ensures InInbox(rows, kinds, id, r) <==>
              OfKind(kinds, r) && (r in Pending(LogIn(rows, id)) || Superseded(LogIn(rows, id), r))
  {
    hide LogIn, ResolvedIds, Requests, InInbox, Pending, OfKind;
    var log := LogIn(rows, id);
    InboxIff(rows, kinds, id, r);
    PendingIff(log, r);
    if RequestedEntry(r) in log { RequestedIn(log, r); }
    if IsPending(log, r) { RequestsFromLog(log, r.id); }
  }

  /** So the two agree, for every session and kind, exactly where no unresolved request
      was raised again under its id. */
  lemma InboxAgreesIff(rows: seq<Row>, id: string)
    ensures (forall r :: InInbox(rows, None, id, r) <==> r in Pending(LogIn(rows, id)))
       <==> (forall r :: !Superseded(LogIn(rows, id), r))
  {
    hide LogIn, ResolvedIds, Requests, InInbox, Pending;
    forall r
      ensures (InInbox(rows, None, id, r) <==> r in Pending(LogIn(rows, id)) || Superseded(LogIn(rows, id), r))
      ensures !(r in Pending(LogIn(rows, id)) && Superseded(LogIn(rows, id), r))
    {
      InboxIsPendingAndSuperseded(rows, None, id, r);
      PendingIff(LogIn(rows, id), r);
    }
  }

  lemma {:induction false} NoneSuperseded(log: Log, r: PendingInputRequest)
    requires WellFormed(log)
    ensures !Superseded(log, r)
  {
    hide WellFormed, ResolvedIds;
    if RequestedEntry(r) in log && r.id in Requests(log) && Requests(log)[r.id] != r {
      var p :| 0 <= p < |log| && log[p] == RequestedEntry(r);
      var q := RequestIn(log, r.id);
      RequestedOnce(log, p, q);
    }
  }

  /** On lawful logs the inbox is the union of the sessions' derived pending requests. */
  lemma InboxIsUnion(rows: seq<Row>, kinds: Option<set<RequestKind>>, id: string, r: PendingInputRequest)
    requires WellFormed(LogIn(rows, id))
    ensures InInbox(rows, kinds, id, r) <==> r in Pending(LogIn(rows, id)) && OfKind(kinds, r)
  {
    hide WellFormed, LogIn, InInbox, Pending, Superseded;
    InboxIsPendingAndSuperseded(rows, kinds, id, r);
    NoneSuperseded(LogIn(rows, id), r);
  }

  ghost predicate AllLawful(rows: seq<Row>) { forall id :: WellFormed(LogIn(rows, id)) }

  ghost predicate Distinct(listed: seq<Row>)
    requires forall x :: x in listed ==> x.entry.RequestedEntry?
  {
    forall i, j :: 0 <= i < j < |listed| ==>
      listed[i].sessionId != listed[j].sessionId || listed[i].entry.request.id != listed[j].entry.request.id
  }

  /** ... each of them listed once. */
  lemma {:induction false} ListedOnce(all: seq<Row>, rows: seq<Row>, kinds: Option<set<RequestKind>>)
    requires AllLawful(rows)
    ensures Distinct(Listed(all, rows, kinds))
  {
    hide WellFormed, Selected, Requests;
    if rows != [] {
      var init, last := rows[..|rows| - 1], rows[|rows| - 1];
      LawfulInit(rows);
      ListedOnce(all, init, kinds);
      if Selected(all, last, kinds) && last.entry.RequestedEntry? {
        var log := LogIn(init, last.sessionId);
        assert LogIn(rows, last.sessionId) == log + [last.entry];
        LastLegal(log, last.entry);
        forall x | x in Listed(all, init, kinds)
          ensures x.sessionId != last.sessionId || x.entry.request.id != last.entry.request.id
        {
          if x.sessionId == last.sessionId {
            LogHasRow(init, last.sessionId, x.entry);
            RequestedIn(log, x.entry.request);
          }
        }
      }
    }
  }

  lemma LawfulInit(rows: seq<Row>)
    requires rows != [] && AllLawful(rows)
    ensures AllLawful(rows[..|rows| - 1])
  {
    hide Legal;
    var init := rows[..|rows| - 1];
    forall id ensures WellFormed(LogIn(init, id)) {
      assert WellFormed(LogIn(rows, id));
      var log := LogIn(init, id);
      if rows[|rows| - 1].sessionId == id { assert (log + [rows[|rows| - 1].entry])[..|log|] == log; }
    }
  }

  lemma LastLegal(log: Log, e: Entry)
    requires WellFormed(log + [e]) && e.RequestedEntry?
    ensures e.request.id !in Requests(log)
  {
    assert (log + [e])[..|log|] == log;
  }
}
