/** The subscriber that turns a run's events into a session's durable entries. */
module Persistence {
  import opened Messages
  import opened Events
  import opened SessionLog
  import opened Protocol
  import opened Store

  function RequestEntries(qs: seq<PendingInputRequest>): (es: seq<Entry>)
    ensures |es| == |qs| && forall i :: 0 <= i < |qs| ==> es[i] == RequestedEntry(qs[i])
  {
    seq(|qs|, i requires 0 <= i < |qs| => RequestedEntry(qs[i]))
  }

  function MessageEntries(ms: seq<AgentMessage>): (es: seq<Entry>)
    ensures |es| == |ms| && forall i :: 0 <= i < |ms| ==> es[i] == MessageEntry(ms[i])
  {
    seq(|ms|, i requires 0 <= i < |ms| => MessageEntry(ms[i]))
  }

  /** The entries one event is persisted as: a message when it ended, the requests of a
      run that parked, and nothing for any other event. */
  function EntriesFor(e: AgentEvent): seq<Entry> {
    match e
    case MessageEnd(m) => [MessageEntry(m)]
    case AgentEnd(outcome, _, parked) => if outcome.WaitingInput? then RequestEntries(parked) else []
    case _ => []
  }

  function Persisted(events: seq<AgentEvent>): seq<Entry> {
    if events == [] then [] else Persisted(events[..|events| - 1]) + EntriesFor(events[|events| - 1])
  }

  lemma {:induction false} PersistedConcat(a: seq<AgentEvent>, b: seq<AgentEvent>)
    ensures Persisted(a + b) == Persisted(a) + Persisted(b)
  {
    hide EntriesFor;
    if b == [] {
      assert a + b == a;
    } else {
      assert (a + b)[..|a + b| - 1] == a + b[..|b| - 1];
      PersistedConcat(a, b[..|b| - 1]);
    }
  }

  ghost predicate NoEnd(events: seq<AgentEvent>) {
    forall e :: e in events ==> !e.AgentEnd?
  }

  /** Until a run ends, what is persisted is the messages that ended, in order. */
  lemma {:induction false} PersistedMessages(events: seq<AgentEvent>)
    requires NoEnd(events)
    ensures Persisted(events) == MessageEntries(Ended(events))
  {
    if events != [] {
      PersistedMessages(events[..|events| - 1]);
      assert events[|events| - 1] in events;
    }
  }

  /** Appending entries one at a time is appending them all. */
  lemma {:induction false} MessagesOfConcat(a: Log, b: Log)
    ensures MessagesOf(a + b) == MessagesOf(a) + MessagesOf(b)
  {
    if b == [] {
      assert a + b == a;
    } else {
      assert (a + b)[..|a + b| - 1] == a + b[..|b| - 1];
      MessagesOfConcat(a, b[..|b| - 1]);
    }
  }

  lemma {:induction false} MessagesOfEntries(ms: seq<AgentMessage>)
    ensures MessagesOf(MessageEntries(ms)) == ms
  {
    if ms != [] {
      assert MessageEntries(ms)[..|ms| - 1] == MessageEntries(ms[..|ms| - 1]);
      MessagesOfEntries(ms[..|ms| - 1]);
    }
  }

  lemma {:induction false} NoMessagesInRequests(qs: seq<PendingInputRequest>)
    ensures MessagesOf(RequestEntries(qs)) == []
  {
    if qs != [] {
      assert RequestEntries(qs)[..|qs| - 1] == RequestEntries(qs[..|qs| - 1]);
      NoMessagesInRequests(qs[..|qs| - 1]);
    }
  }

  /** The messages of the grown log are the old ones and those that ended. */
  lemma {:induction false} LogGrowsByEnded(log: Log, events: seq<AgentEvent>)
    ensures MessagesOf(log + Persisted(events)) == MessagesOf(log) + Ended(events)
  {
    MessagesOfConcat(log, Persisted(events));
    MessagesPersisted(events);
  }

  lemma {:induction false} MessagesPersisted(events: seq<AgentEvent>)
    ensures MessagesOf(Persisted(events)) == Ended(events)
  {
    if events != [] {
      var e := events[|events| - 1];
      MessagesPersisted(events[..|events| - 1]);
      MessagesOfConcat(Persisted(events[..|events| - 1]), EntriesFor(e));
      if e.AgentEnd? { NoMessagesInRequests(e.pendingRequests); }
      if e.MessageEnd? { assert [MessageEntry(e.message)][..0] == []; }
    }
  }

  /** The one live writer of a session. */
  class PersistenceSubscriber {
    const store: SessionStore
    const sessionId: string
    const claim: WriterClaim

    ghost predicate Valid() { claim.store == store && claim.sessionId == sessionId }

    constructor (store: SessionStore, sessionId: string, claim: WriterClaim)
      requires claim.store == store && claim.sessionId == sessionId
      ensures Valid() && this.store == store && this.sessionId == sessionId && this.claim == claim
    {
      this.store, this.sessionId, this.claim := store, sessionId, claim;
    }

    /** Attaching claims the session, and fails while another subscriber is live. */
    static method Attach(store: SessionStore, sessionId: string) returns (subscriber: PersistenceSubscriber?)
      modifies store`claimedWriters
      ensures subscriber == null <==> sessionId in old(store.claimedWriters)
      ensures store.claimedWriters == old(store.claimedWriters) + {sessionId}
      ensures subscriber != null ==>
                && fresh(subscriber) && subscriber.Valid() && subscriber.store == store
                && subscriber.sessionId == sessionId
                && fresh(subscriber.claim) && !subscriber.claim.released
    {
      var claim := store.ClaimWriter(sessionId);
      if claim == null { return null; }
      subscriber := new PersistenceSubscriber(store, sessionId, claim);
    }

    /** One event: each of its entries is one append. */
    method Notify(event: AgentEvent)
      requires Valid() && store.Valid() && sessionId in store.sessions
      modifies store`rows
      ensures store.Valid() && store.OnlyWrote(sessionId)
      ensures store.LogOf(sessionId) == old(store.LogOf(sessionId)) + EntriesFor(event)
      ensures store.RunsOf(sessionId) == old(store.RunsOf(sessionId))
    {
      hide LogIn, Numbered;
      if event.MessageEnd? {
        var _ := store.AppendEntry(sessionId, MessageEntry(event.message));
      } else if event.AgentEnd? && event.outcome.WaitingInput? {
        var requests := event.pendingRequests;
        for i := 0 to |requests|
          invariant store.Valid() && store.OnlyWrote(sessionId)
          invariant store.LogOf(sessionId) == old(store.LogOf(sessionId)) + RequestEntries(requests[..i])
          invariant store.RunsOf(sessionId) == old(store.RunsOf(sessionId))
        {
          var _ := store.AppendEntry(sessionId, RequestedEntry(requests[i]));
          assert RequestEntries(requests[..i + 1]) == RequestEntries(requests[..i]) + [RequestedEntry(requests[i])];
        }
        assert requests[..|requests|] == requests;
      }
    }

    method Release()
      requires Valid()
      modifies claim`released, store`claimedWriters
      ensures claim.released
      ensures store.claimedWriters ==
                if old(claim.released) then old(store.claimedWriters) else old(store.claimedWriters) - {sessionId}
    {
      claim.Release();
    }
  }
}
