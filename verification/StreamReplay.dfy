/** What a reader of the canonical stream may rely on: brackets, one terminal per
    terminal of the source, and a replay that rebuilds the final message. */
module StreamReplay {
  import opened Messages
  import opened StreamEvents
  import opened Stream

  // ------------------------------------------------------------ the grammar

  /** Where a reader is: before the start, between blocks, or inside one, with the
      text of the open block so far. */
  datatype Bracket =
    | NotStarted
    | Outside(next: nat)
    | TextOpen(index: nat, soFar: string)
    | ThinkingOpen(index: nat, soFar: string)
    | CallOpen(index: nat)
    | Broken

  /** One start, first; blocks numbered consecutively, never interleaved, each ended
      with the text of its deltas; done and aborted only between blocks. */
  function Advance(b: Bracket, e: StreamEvent): Bracket {
    match e
    case StreamStart(_) => if b.NotStarted? then Outside(0) else Broken
    case TextStart(i, _) => if b == Outside(i) then TextOpen(i, "") else Broken
    case TextDelta(i, d, _) => if b.TextOpen? && b.index == i then TextOpen(i, b.soFar + d) else Broken
    case TextEnd(i, text, _) => if b == TextOpen(i, text) then Outside(i + 1) else Broken
    case ThinkingStart(i, _) => if b == Outside(i) then ThinkingOpen(i, "") else Broken
    case ThinkingDelta(i, d, _) => if b.ThinkingOpen? && b.index == i then ThinkingOpen(i, b.soFar + d) else Broken
    case ThinkingEnd(i, text, _) => if b == ThinkingOpen(i, text) then Outside(i + 1) else Broken
    case ToolCallStart(i, _) => if b == Outside(i) then CallOpen(i) else Broken
    case ToolCallDelta(i, _, _) => if b == CallOpen(i) then b else Broken
    case ToolCallEnd(i, _, _) => if b == CallOpen(i) then Outside(i + 1) else Broken
    case StreamDone(_, _) => if b.Outside? then b else Broken
    case StreamError(reason, _) => if b.Outside? || (reason.Error? && !b.NotStarted?) then b else Broken
  }

  function Track(events: seq<StreamEvent>): Bracket {
    if events == [] then NotStarted else Advance(Track(events[..|events| - 1]), events[|events| - 1])
  }

  ghost predicate WellBracketed(events: seq<StreamEvent>) {
    Track(events) != Broken && Track(events) != NotStarted
  }

  // ------------------------------------------------------------- the replay

  /** What a reader rebuilds from starts, deltas and ends alone. */
  function Apply(blocks: seq<AssistantBlock>, e: StreamEvent): seq<AssistantBlock> {
    match e
    case TextStart(_, _) => blocks + [Text("", None)]
    case ThinkingStart(_, _) => blocks + [Thinking("", None, false)]
    case TextDelta(i, d, _) => if i < |blocks| then blocks[i := Grown(blocks[i], d)] else blocks
    case ThinkingDelta(i, d, _) => if i < |blocks| then blocks[i := Grown(blocks[i], d)] else blocks
    case ToolCallEnd(_, call, _) => blocks + [Call(call)]
    case _ => blocks
  }

  function Replay(events: seq<StreamEvent>): seq<AssistantBlock> {
    if events == [] then [] else Apply(Replay(events[..|events| - 1]), events[|events| - 1])
  }

  /** A block without provider signatures. */
  function Bare(b: AssistantBlock): AssistantBlock {
    match b
    case Text(text, _) => Text(text, None)
    case Thinking(text, _, _) => Thinking(text, None, false)
    case Call(_) => b
  }

  ghost predicate SameContent(a: seq<AssistantBlock>, b: seq<AssistantBlock>) {
    |a| == |b| && forall i :: 0 <= i < |a| ==> Bare(a[i]) == Bare(b[i])
  }

  /** A done message has the replayed content, whenever anything was streamed. */
  ghost predicate DoneRebuilt(events: seq<StreamEvent>, p: nat)
    requires p < |events|
  {
    events[p].StreamDone? && Replay(events[..p]) != [] ==> SameContent(events[p].message.blocks, Replay(events[..p]))
  }

  ghost predicate Rebuilds(events: seq<StreamEvent>) {
    forall p: nat :: p < |events| ==> DoneRebuilt(events, p)
  }

  /** A snapshot shows the replay so far, a call's start already with the call, and an
      error whatever had been streamed. */
  ghost predicate Snapshots(replayed: seq<AssistantBlock>, e: StreamEvent) {
    match e
    case StreamDone(_, _) => true
    case StreamError(_, error) => error.blocks == replayed
    case ToolCallStart(i, partial) => |partial.blocks| == i + 1 && partial.blocks[..i] == replayed
    case _ => e.partial.blocks == Apply(replayed, e)
  }

  ghost predicate SnapshotTrue(events: seq<StreamEvent>, p: nat)
    requires p < |events|
  {
    Snapshots(Replay(events[..p]), events[p])
  }

  ghost predicate SnapshotsTrue(events: seq<StreamEvent>) {
    forall p: nat :: p < |events| ==> SnapshotTrue(events, p)
  }

  function SourceTerminals(source: seq<ProviderEvent>): nat {
    if source == [] then 0
    else
      var last := source[|source| - 1];
      SourceTerminals(source[..|source| - 1]) + if last.ResponseEnd? || last.ProviderError? || last.ProviderAborted?
        then 1 else 0
  }

  // --------------------------------------------------------- the invariant

  function Position(st: StreamState): Bracket {
    if !st.started then NotStarted
    else if st.channel.Quiet? || st.blocks == [] then Outside(|st.blocks|)
    else
      match st.blocks[|st.blocks| - 1]
      case Text(text, _) => TextOpen(|st.blocks| - 1, text)
      case Thinking(text, _, _) => ThinkingOpen(|st.blocks| - 1, text)
      case Call(_) => Broken
  }

  ghost predicate Shaped(st: StreamState) {
    && (st.channel.InText? ==> st.blocks != [] && st.blocks[|st.blocks| - 1].Text?)
    && (st.channel.InThinking? ==> st.blocks != [] && st.blocks[|st.blocks| - 1].Thinking?)
    && (!st.started ==> st.out == [] && st.blocks == [] && st.channel.Quiet? && !st.terminal)
  }

  ghost predicate Faithful(st: StreamState) {
    && Shaped(st)
    && Track(st.out) == Position(st)
    && Replay(st.out) == st.blocks
    && Rebuilds(st.out) && SnapshotsTrue(st.out)
    && (st.terminal <==> Terminals(st.out) > 0)
  }

  lemma Append(out: seq<StreamEvent>, e: StreamEvent)
    requires Rebuilds(out) && SnapshotsTrue(out)
    requires e.StreamDone? && Replay(out) != [] ==> SameContent(e.message.blocks, Replay(out))
    requires Snapshots(Replay(out), e)
    ensures Track(out + [e]) == Advance(Track(out), e) && Replay(out + [e]) == Apply(Replay(out), e)
    ensures Terminals(out + [e]) == Terminals(out) + if IsTerminal(e) then 1 else 0
    ensures Rebuilds(out + [e]) && SnapshotsTrue(out + [e])
  {
    hide SameContent, Snapshots;
    var next := out + [e];
    assert next[..|out|] == out;
    forall p: nat | p < |next| ensures DoneRebuilt(next, p) && SnapshotTrue(next, p) {
      assert p < |out| ==> next[..p] == out[..p] && DoneRebuilt(out, p) && SnapshotTrue(out, p);
    }
  }

  lemma StartKeeps(st: StreamState)
    requires Faithful(st)
    ensures Faithful(Start(st)) && Start(st).started && Start(st).terminal == st.terminal
    ensures Terminals(Start(st).out) == Terminals(st.out)
    ensures Start(st).blocks == st.blocks && Start(st).channel == st.channel
  {
    hide Rebuilds, SnapshotsTrue, Track, Replay, Terminals;
    if !st.started {
      Append(st.out, StreamStart(Snapshot(st.blocks)));
      EmptyOut();
    }
  }

  lemma EmptyOut()
    ensures Track([]) == NotStarted && Replay([]) == [] && Terminals([]) == 0
  {
  }

  lemma CloseKeeps(st: StreamState)
    requires Faithful(st) && st.started
    ensures Faithful(Close(st)) && Terminals(Close(st).out) == Terminals(st.out)
  {
    hide Rebuilds, SnapshotsTrue, Track, Replay, Terminals;
    var ended := EndEvents(st.blocks, st.channel);
    if st.channel.Quiet? {
      assert st.out + ended == st.out;
    } else {
      assert ended == [ended[0]];
      Append(st.out, ended[0]);
    }
  }

  lemma OpenKeeps(st: StreamState)
    requires Faithful(st) && st.started
    ensures Faithful(OpenText(st)) && OpenText(st).channel.InText?
    ensures Faithful(OpenThinking(st)) && OpenThinking(st).channel.InThinking?
    ensures Terminals(OpenText(st).out) == Terminals(OpenThinking(st).out) == Terminals(st.out)
  {
    hide Rebuilds, SnapshotsTrue, Track, Replay, Terminals, EndEvents;
    CloseKeeps(st);
    var c := Close(st);
    if !st.channel.InText? { Append(c.out, TextStart(|c.blocks|, Snapshot(c.blocks + [Text("", None)]))); }
    if !st.channel.InThinking? {
      Append(c.out, ThinkingStart(|c.blocks|, Snapshot(c.blocks + [Thinking("", None, false)])));
    }
  }

  lemma PieceKeeps(st: StreamState, delta: string)
    requires Faithful(st) && st.started
    ensures Faithful(FeedText(st, delta)) && Faithful(FeedThinking(st, delta))
    ensures Terminals(FeedText(st, delta).out) == Terminals(FeedThinking(st, delta).out) == Terminals(st.out)
  {
    hide Rebuilds, SnapshotsTrue, Track, Replay, Terminals, EndEvents, OpenText, OpenThinking;
    OpenKeeps(st);
    var o, t := OpenText(st), OpenThinking(st);
    var blocks := GrowLast(o.blocks, delta);
    Append(o.out, TextDelta(|blocks| - 1, delta, Snapshot(blocks)));
    var thoughts := GrowLast(t.blocks, delta);
    Append(t.out, ThinkingDelta(|thoughts| - 1, delta, Snapshot(thoughts)));
  }

  lemma CallKeeps(st: StreamState, call: ToolCall)
    requires Faithful(st) && st.started
    ensures Faithful(FeedCall(st, call)) && Terminals(FeedCall(st, call).out) == Terminals(st.out)
  {
    hide Rebuilds, SnapshotsTrue, Track, Replay, Terminals, EndEvents;
    CloseKeeps(st);
    var c := Close(st);
    var blocks := c.blocks + [Call(call)];
    var start, end := ToolCallStart(|c.blocks|, Snapshot(blocks)), ToolCallEnd(|c.blocks|, call, Snapshot(blocks));
    Append(c.out, start);
    Append(c.out + [start], end);
    assert c.out + [start, end] == (c.out + [start]) + [end];
  }

  lemma MetadataKeepsContent(target: seq<AssistantBlock>, source: seq<AssistantBlock>)
    ensures SameContent(WithMetadata(target, source), target)
  {
    hide ThinkingsOf, TextsOf;
  }

  lemma FeedKeeps(st: StreamState, e: ProviderEvent)
    requires Faithful(st)
    ensures Faithful(Feed(st, e))
    ensures Terminals(Feed(st, e).out) == Terminals(st.out) + SourceTerminals([e])
  {
    hide Rebuilds, SnapshotsTrue, Track, Replay, Terminals, EndEvents, FeedText, FeedThinking, FeedCall, WithMetadata,
      SameContent, Start, Position;
    assert [e][..0] == [];
    if e.Retry? { return; }
    StartKeeps(st);
    var s := Start(st);
    CloseKeeps(s);
    var c := Close(s);
    match e
    case ResponseStart =>
    case TextPiece(delta) => PieceKeeps(s, delta);
    case ThinkingPiece(delta) => PieceKeeps(s, delta);
    case WholeCall(call) => CallKeeps(s, call);
    case ResponseEnd(message, reason) =>
      var done := Final(c.blocks, message, reason);
      MetadataKeepsContent(c.blocks, message.blocks);
      Append(c.out, StreamDone(done.stopReason, done));
      SamePosition(c, Feed(st, e));
    case ProviderError(text) =>
      Append(s.out, StreamError(Error, AssistantMessage(s.blocks, Error, Some(text))));
      SamePosition(s, Feed(st, e));
    case ProviderAborted =>
      Append(c.out, StreamError(Aborted, AssistantMessage(c.blocks, Aborted, Some(CANCELLED))));
      SamePosition(c, Feed(st, e));
  }

  lemma SamePosition(a: StreamState, b: StreamState)
    requires a.started && b.started && a.blocks == b.blocks && a.channel == b.channel && Shaped(a)
    ensures Position(b) == Position(a)
    ensures Position(a) != NotStarted && Position(a) != Broken
    ensures a.channel.Quiet? ==> Position(a).Outside?
  {
  }

  lemma {:induction false} FoldKeeps(source: seq<ProviderEvent>, n: nat)
    requires n <= |source|
    ensures Faithful(Fold(source, n))
    ensures Terminals(Fold(source, n).out) == SourceTerminals(source[..n])
  {
    hide Faithful, Feed, Terminals;
    if n == 0 {
      assert Faithful(INITIAL) && Terminals(INITIAL.out) == 0 by { InitialFaithful(); }
    } else {
      FoldKeeps(source, n - 1);
      FeedKeeps(Fold(source, n - 1), source[n - 1]);
      assert source[..n][..n - 1] == source[..n - 1];
      assert [source[n - 1]][..0] == [];
    }
  }

  lemma InitialFaithful()
    ensures Faithful(INITIAL) && Terminals(INITIAL.out) == 0
  {
  }

  /** Whatever the source: the canonical stream is well bracketed, has as many
      terminals as the source and at least one, and replays to every done message. */
  lemma CanonicalStream(source: seq<ProviderEvent>)
    ensures WellBracketed(Canonical(source))
    ensures Terminals(Canonical(source)) == Max(1, SourceTerminals(source))
    ensures Rebuilds(Canonical(source)) && SnapshotsTrue(Canonical(source))
  {
    hide Rebuilds, SnapshotsTrue, Track, Replay, Terminals, Feed, SourceTerminals, Position, Start;
    FoldKeeps(source, |source|);
    assert source[..|source|] == source;
    var st := Fold(source, |source|);
    StartKeeps(st);
    var s := Start(st);
    SamePosition(s, s);
    if !s.terminal {
      Append(s.out, StreamError(Error, AssistantMessage(s.blocks, Error, Some(NO_TERMINAL))));
    }
  }

  // ------------------------------------------------------------ consequences

  /** A well-bracketed stream starts once, with its first event. */
  lemma {:induction false} OneStartFirst(events: seq<StreamEvent>)
    requires WellBracketed(events)
    ensures events != [] && events[0].StreamStart?
    ensures forall p :: 0 < p < |events| ==> !events[p].StreamStart?
  {
    var init := events[..|events| - 1];
    if Track(init) != NotStarted { OneStartFirst(init); } else { TrackEmpty(init); }
  }

  lemma {:induction false} TrackEmpty(events: seq<StreamEvent>)
    ensures Track(events) == NotStarted <==> events == []
  {
    if events != [] { TrackEmpty(events[..|events| - 1]); }
  }

  lemma {:induction false} TrackPrefix(events: seq<StreamEvent>, n: nat)
    requires 0 < n <= |events| && WellBracketed(events)
    ensures WellBracketed(events[..n])
    ensures n < |events| ==> Advance(Track(events[..n]), events[n]) != Broken
  {
    TrackEmpty(events[..n]);
    if n < |events| {
      var init := events[..|events| - 1];
      TrackEmpty(init);
      if n < |init| {
        TrackPrefix(init, n);
        assert init[..n] == events[..n];
      }
    } else {
      assert events[..n] == events;
    }
  }

  /** Every block is closed before a done or an aborted; only an error can stop inside one. */
  lemma ClosedBeforeDone(source: seq<ProviderEvent>, p: nat)
    requires p < |Canonical(source)|
    requires var e := Canonical(source)[p]; e.StreamDone? || (e.StreamError? && e.reason.Aborted?)
    ensures p > 0 && Track(Canonical(source)[..p]).Outside?
  {
    hide Canonical;
    var out := Canonical(source);
    CanonicalStream(source);
    OneStartFirst(out);
    TrackPrefix(out, p);
  }

  /** Copying a message's metadata onto its own blocks changes nothing. */
  lemma OwnMetadata(blocks: seq<AssistantBlock>)
    ensures WithMetadata(blocks, blocks) == blocks
  {
    hide ThinkingsOf, TextsOf;
    forall j: nat | j < |blocks| ensures Annotated(blocks, blocks, j) == blocks[j] {
      ThinkingsAre(blocks);
      TextsAre(blocks);
      OwnRank(blocks, j);
    }
  }

  lemma {:induction false} OwnRank(blocks: seq<AssistantBlock>, j: nat)
    requires j < |blocks|
    ensures var k := |ThinkingsOf(blocks[..j])|;
            blocks[j].Thinking? ==> k < |ThinkingsOf(blocks)| && ThinkingsOf(blocks)[k] == blocks[j]
    ensures var k := |TextsOf(blocks[..j])|;
            blocks[j].Text? ==> k < |TextsOf(blocks)| && TextsOf(blocks)[k] == blocks[j]
  {
    var init := blocks[..|blocks| - 1];
    if j < |blocks| - 1 {
      OwnRank(init, j);
      assert init[..j] == blocks[..j];
    }
  }

  /** A response that streamed nothing is passed through: one start, one done, its own blocks. */
  lemma PassedThrough(message: Assistant, finishReason: Option<string>)
    ensures var out := Canonical([ResponseStart, ResponseEnd(message, finishReason)]);
            |out| == 2 && out[0].StreamStart? && out[1].StreamDone? && out[1].message.blocks == message.blocks
  {
    hide WithMetadata, BlockCalls;
    var source := [ResponseStart, ResponseEnd(message, finishReason)];
    OwnMetadata(message.blocks);
    assert Fold(source, 0) == INITIAL;
    assert Fold(source, 1) == Feed(INITIAL, ResponseStart) == Start(INITIAL);
    var s := Start(INITIAL);
    assert s.out == [StreamStart(Snapshot([]))];
    assert Fold(source, 2) == Feed(s, ResponseEnd(message, finishReason));
    assert Close(s).out == s.out;
  }
}
