/** The durable store: sessions, their append-only entries, and writer claims.

    Each append is one row, atomic; the runs of executors are kept beside the rows
    as ghost state. */
module Store {
  import opened Messages
  import opened SessionLog
  import opened Protocol

  datatype SessionRecord = SessionRecord(
    sessionId: string, agentId: string, parentSessionId: Option<string>, parentToolCallId: Option<string>)

  datatype Row = Row(sessionId: string, seqNo: nat, entry: Entry, createdAt: int)

  /** A session's entries, in the order they were appended. */
  function LogIn(rows: seq<Row>, id: string): Log {
    if rows == [] then []
    else if rows[|rows| - 1].sessionId == id then LogIn(rows[..|rows| - 1], id) + [rows[|rows| - 1].entry]
    else LogIn(rows[..|rows| - 1], id)
  }

  function SeqNos(rows: seq<Row>, id: string): seq<nat> {
    if rows == [] then []
    else if rows[|rows| - 1].sessionId == id then SeqNos(rows[..|rows| - 1], id) + [rows[|rows| - 1].seqNo]
    else SeqNos(rows[..|rows| - 1], id)
  }

  /** A session's rows are numbered from zero, without gaps, in the order of appending. */
  ghost predicate Numbered(rows: seq<Row>) {
    forall id: string, i :: 0 <= i < |SeqNos(rows, id)| ==> SeqNos(rows, id)[i] == i
  }

  lemma {:induction false} AsManyNumbers(rows: seq<Row>, id: string)
    ensures |SeqNos(rows, id)| == |LogIn(rows, id)|
  {
    if rows != [] { AsManyNumbers(rows[..|rows| - 1], id); }
  }

  /** Appending with the next number keeps the numbering, so reading a session in
      the order of its numbers is reading it in the order of appending. */
  lemma AppendNumbered(rows: seq<Row>, id: string, e: Entry, now: int)
    requires Numbered(rows)
    ensures var next := rows + [Row(id, |LogIn(rows, id)|, e, now)];
            && Numbered(next) && LogIn(next, id) == LogIn(rows, id) + [e]
            && (forall j :: j != id ==> LogIn(next, j) == LogIn(rows, j))
  {
    var next := rows + [Row(id, |LogIn(rows, id)|, e, now)];
    assert next[..|rows|] == rows;
    AsManyNumbers(rows, id);
  }

  /** Parents exist and are older: the sessions form a forest. */
  ghost predicate Rooted(sessions: map<string, SessionRecord>, ranks: map<string, nat>) {
    forall id :: id in sessions ==>
      && id in ranks
      && (sessions[id].parentSessionId.Some? ==>
            var p := sessions[id].parentSessionId.value; p in sessions && p in ranks && ranks[p] < ranks[id])
  }

  class SessionStore {
    var sessions: map<string, SessionRecord>
    var rows: seq<Row>
    var claimedWriters: set<string>
    var clock: int  // what the clock shows; it may be set to anything
    ghost var runs: map<string, seq<Invocation>>
    ghost var ranks: map<string, nat>  // when each session was created

    /** Foreign keys hold, and rows are numbered. */
    ghost predicate Valid()
      reads this
    {
      && Numbered(rows)
      && (forall r :: r in rows ==> r.sessionId in sessions)
      && (forall id :: id in sessions ==> id in ranks && sessions[id].sessionId == id)
      && (forall id :: id in sessions && sessions[id].parentSessionId.Some? ==>
            var p := sessions[id].parentSessionId.value; p in sessions && (p == id || ranks[p] < ranks[id]))
    }

    ghost function LogOf(id: string): Log
      reads this
    {
      LogIn(rows, id)
    }

    ghost function RunsOf(id: string): seq<Invocation>
      reads this
    {
      if id in runs then runs[id] else []
    }

    ghost function WorldOf(id: string): World
      reads this
    {
      World(LogOf(id), RunsOf(id))
    }

    /** Nothing but the log and runs of one session changed. */
    twostate predicate OnlyWrote(id: string)
      reads this
    {
      && sessions == old(sessions) && claimedWriters == old(claimedWriters) && ranks == old(ranks)
      && forall j :: j != id ==> WorldOf(j) == old(WorldOf(j))
    }

    constructor (now: int)
      ensures Valid() && clock == now && sessions == map[] && rows == [] && claimedWriters == {}
      ensures forall id :: WorldOf(id) == EMPTY
    {
      sessions, rows, claimedWriters, clock, runs, ranks := map[], [], {}, now, map[], map[];
    }

    method SetClock(now: int)
      modifies `clock
      ensures clock == now
    {
      clock := now;
    }

    /** `create_session`: fails for a taken id or a parent that does not exist. */
    method CreateSession(id: string, agentId: string, parent: Option<string>, parentToolCall: Option<string>)
      returns (record: Option<SessionRecord>)
      requires Valid()
      modifies this
      ensures Valid() && rows == old(rows) && runs == old(runs) && claimedWriters == old(claimedWriters)
      ensures record.None? <==>
                id in old(sessions) || (parent.Some? && parent.value != id && parent.value !in old(sessions))
      ensures record.None? ==> sessions == old(sessions) && ranks == old(ranks)
      ensures record.Some? ==>
                && record.value == SessionRecord(id, agentId, parent, parentToolCall)
                && sessions == old(sessions)[id := record.value]
                && (forall j :: j in old(sessions) ==> ranks[j] == old(ranks)[j])
    {
      if id in sessions || (parent.Some? && parent.value != id && parent.value !in sessions) { return None; }
      record := Some(SessionRecord(id, agentId, parent, parentToolCall));
      ghost var top := HighestRank();
      sessions := sessions[id := record.value];
      ranks := ranks[id := top + 1];
    }

    ghost method HighestRank() returns (top: nat)
      requires Valid()
      ensures forall id :: id in sessions ==> ranks[id] <= top
    {
      top := 0;
      var left := sessions.Keys;
      while left != {}
        invariant left <= sessions.Keys
        invariant forall id :: id in sessions.Keys - left ==> ranks[id] <= top
      {
        var id :| id in left;
        if ranks[id] > top { top := ranks[id]; }
        left := left - {id};
      }
    }

    method GetSession(id: string) returns (record: Option<SessionRecord>)
      ensures record == if id in sessions then Some(sessions[id]) else None
    {
      record := if id in sessions then Some(sessions[id]) else None;
    }

    /** `append_entry`: the next number is one past the highest, zero for the first
        entry; a session that does not exist is refused. */
    method AppendEntry(id: string, e: Entry) returns (seqNo: Option<nat>)
      requires Valid()
      modifies `rows
      ensures Valid()
      ensures seqNo == if id in sessions then Some(|old(LogOf(id))|) else None
      ensures rows == if id in sessions then old(rows) + [Row(id, |old(LogOf(id))|, e, clock)] else old(rows)
      ensures WorldOf(id) == if id in sessions then Act(old(WorldOf(id)), Append(e)) else old(WorldOf(id))
      ensures OnlyWrote(id)
    {
      if id !in sessions { return None; }
      var table := rows;
      var highest: int := -1;
      for i := 0 to |table|
        invariant rows == table
        invariant highest == |LogIn(table[..i], id)| - 1
      {
        assert table[..i + 1][..i] == table[..i];
        NumberAt(table, i);
        if table[i].sessionId == id && table[i].seqNo > highest { highest := table[i].seqNo; }
      }
      assert table[..|table|] == table;
      AppendNumbered(table, id, e, clock);
      seqNo := Some(highest + 1);
      rows := rows + [Row(id, highest + 1, e, clock)];
    }

    /** `entries`: a session's log. */
    method Entries(id: string) returns (log: Log)
      ensures log == LogOf(id)
    {
      log := [];
      for i := 0 to |rows|
        invariant log == LogIn(rows[..i], id)
      {
        assert rows[..i + 1][..i] == rows[..i];
        if rows[i].sessionId == id { log := log + [rows[i].entry]; }
      }
      assert rows[..|rows|] == rows;
    }

    /** An executor ran for a call of this session. */
    ghost method RecordRun(id: string, requestId: string, toolCallId: string, toolName: string, idempotent: bool,
                           recovery: bool)
      requires Valid()
      modifies `runs
      ensures Valid()
      ensures WorldOf(id) == Act(old(WorldOf(id)), Execute(requestId, toolCallId, toolName, idempotent, recovery))
      ensures OnlyWrote(id)
    {
      runs := runs[id := RunsOf(id) + [Invocation(requestId, toolCallId, toolName, idempotent, recovery, |LogOf(id)|)]];
    }

    /** `claim_writer`: fails while another claim on the session is held. */
    method ClaimWriter(id: string) returns (claim: WriterClaim?)
      modifies `claimedWriters
      ensures claim == null <==> id in old(claimedWriters)
      ensures claimedWriters == old(claimedWriters) + {id}
      ensures claim != null ==> fresh(claim) && claim.store == this && claim.sessionId == id && !claim.released
    {
      if id in claimedWriters { return null; }
      claimedWriters := claimedWriters + {id};
      claim := new WriterClaim(this, id);
    }

    method ReleaseWriter(id: string)
      modifies `claimedWriters
      ensures claimedWriters == old(claimedWriters) - {id}
    {
      claimedWriters := claimedWriters - {id};
    }
  }

  lemma NumberAt(rows: seq<Row>, i: nat)
    requires Numbered(rows) && i < |rows|
    ensures rows[i].seqNo == |LogIn(rows[..i], rows[i].sessionId)|
  {
    var id := rows[i].sessionId;
    AsManyNumbers(rows[..i], id);
    assert rows[..i + 1][..i] == rows[..i];
    assert SeqNos(rows[..i + 1], id) == SeqNos(rows[..i], id) + [rows[i].seqNo];
    SeqNosPrefix(rows, i + 1, id);
    assert SeqNos(rows, id)[|SeqNos(rows[..i], id)|] == rows[i].seqNo;
  }

  lemma {:induction false} SeqNosPrefix(rows: seq<Row>, n: nat, id: string)
    requires n <= |rows|
    ensures SeqNos(rows[..n], id) <= SeqNos(rows, id)
  {
    if n < |rows| {
      assert rows[..|rows| - 1][..n] == rows[..n];
      SeqNosPrefix(rows[..|rows| - 1], n, id);
    } else {
      assert rows[..n] == rows;
    }
  }

  /** A held claim that its holder is the only writer of a session. */
  class WriterClaim {
    const store: SessionStore
    const sessionId: string
    var released: bool

    constructor (store: SessionStore, sessionId: string)
      ensures this.store == store && this.sessionId == sessionId && !released
    {
      this.store, this.sessionId, released := store, sessionId, false;
    }

    /** `release`: frees the session once; again, it does nothing, even when somebody
        else has claimed the session since. */
    method Release()
      modifies `released, store`claimedWriters
      ensures released
      ensures store.claimedWriters ==
              if old(released) then old(store.claimedWriters)
              else old(store.claimedWriters) - {sessionId}
    {
      if released { return; }
      store.ReleaseWriter(sessionId);
      released := true;
    }
  }
}
