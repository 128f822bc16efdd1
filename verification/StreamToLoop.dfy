/** Where the stream meets the loop: why restart transparency needs one terminal per stream. */
module StreamToLoop {
  import opened Messages
  import opened StreamEvents
  import opened Events
  import opened Stream
  import opened StreamReplay
  import opened AgentLoop
  import opened RunInvariants

  /** Every terminal of a stream ends a message in the events. */
  lemma {:induction false} EveryTerminalEnds(stream: seq<StreamEvent>)
    ensures |Ended(Relay(stream))| == Terminals(stream)
    ensures LastMessage(stream).Some? <==> Terminals(stream) > 0
  {
    hide Ended, Started;
    if stream == [] {
      EndedNothing();
    } else {
      var init, e := stream[..|stream| - 1], stream[|stream| - 1];
      EveryTerminalEnds(init);
      match e {
        case StreamStart(partial) => EndedConcat(Relay(init), [MessageStart(partial)]); EndedOne(MessageStart(partial));
        case StreamDone(_, m) => RelayedTerminal(init, m);
        case StreamError(_, m) => RelayedTerminal(init, m);
        case _ => EndedConcat(Relay(init), [MessageUpdate(e.partial)]); EndedOne(MessageUpdate(e.partial));
      }
    }
  }

  /** The log gets exactly the one message that memory keeps, if and only if the stream
      has at most one terminal event; each further one puts a message in the log alone. */
  lemma OneMessageIffOneTerminal(s: TurnScript)
    ensures Ended(AssistantEvents(s)) == [AssistantOf(s)] <==> Terminals(s.stream) <= 1
  {
    hide Ended, Relay, Announce;
    EveryTerminalEnds(s.stream);
    if Terminals(s.stream) <= 1 { EndedAsk(s); }
    EndedConcat(Relay(s.stream), Announce([AssistantOf(s)]));
  }

  /** A canonicalized source with at most one terminal meets the condition, and the loop
      never has to make up a message for it. */
  lemma CanonicalStreamEndsOnce(source: seq<ProviderEvent>, s: TurnScript)
    requires s.stream == Canonical(source) && SourceTerminals(source) <= 1
    ensures Ended(AssistantEvents(s)) == [AssistantOf(s)] && LastMessage(s.stream) == Some(AssistantOf(s))
  {
    hide Ended, Relay, Canonical, Track, Rebuilds, SnapshotsTrue;
    CanonicalStream(source);
    EveryTerminalEnds(s.stream);
    OneMessageIffOneTerminal(s);
  }
}
