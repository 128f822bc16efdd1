/** How a canonical stream ends: for the reason its source gave, with the provider's error
    text, and never as a failure when the source did not fail. */
module StreamReasons {
  import opened Messages
  import opened StreamEvents
  import opened Stream
  import opened AgentLoop
  import opened StreamReplay

  // ---------------------------------------------------------- ends, in order

  predicate EndsSource(p: ProviderEvent) { p.ResponseEnd? || p.ProviderError? || p.ProviderAborted? }

  /** The terminal events of a source, and those of a stream. */
  function SourceEnds(source: seq<ProviderEvent>): seq<ProviderEvent> {
    if source == [] then []
    else SourceEnds(source[..|source| - 1]) + if EndsSource(source[|source| - 1]) then [source[|source| - 1]] else []
  }

  function EndsOf(events: seq<StreamEvent>): seq<StreamEvent> {
    if events == [] then []
    else EndsOf(events[..|events| - 1]) + if IsTerminal(events[|events| - 1]) then [events[|events| - 1]] else []
  }

  lemma {:induction false} EndsConcat(a: seq<StreamEvent>, b: seq<StreamEvent>)
    ensures EndsOf(a + b) == EndsOf(a) + EndsOf(b)
  {
    if b == [] {
      assert a + b == a;
    } else {
      assert (a + b)[..|a + b| - 1] == a + b[..|b| - 1];
      EndsConcat(a, b[..|b| - 1]);
    }
  }

  // --------------------------------------------------------- what an end means

  predicate SaysTools(reason: Option<string>) {
    reason == Some("tool_calls") || reason == Some("tool_use") || reason == Some("toolUse")
  }

  predicate SaysLength(reason: Option<string>) {
    reason == Some("length") || reason == Some("max_tokens") || reason == Some("MAX_TOKENS")
      || reason == Some("incomplete")
  }

  /** The event a terminal event of the source becomes. */
  ghost predicate EndsAs(p: ProviderEvent, e: StreamEvent) {
    match p
    case ResponseEnd(message, reason) =>
      && e.StreamDone? && e.reason == e.message.stopReason && e.message.errorMessage == message.errorMessage
      && (e.reason.ToolUse? <==> CallsOf(e.message) != [] || SaysTools(reason))
      && (e.reason.Length? <==> CallsOf(e.message) == [] && !SaysTools(reason) && SaysLength(reason))
      && (e.reason.Stop? <==> CallsOf(e.message) == [] && !SaysTools(reason) && !SaysLength(reason))
    case ProviderError(text) =>
      e.StreamError? && e.reason.Error? && e.error.stopReason.Error? && e.error.errorMessage == Some(text)
    case ProviderAborted =>
      e.StreamError? && e.reason.Aborted? && e.error.stopReason.Aborted? && e.error.errorMessage == Some(CANCELLED)
    case _ => false
  }

  ghost predicate AllEndAs(ps: seq<ProviderEvent>, es: seq<StreamEvent>) {
    |es| == |ps| && forall k :: 0 <= k < |ps| ==> EndsAs(ps[k], es[k])
  }

  // ------------------------------------------------------------ every source

  ghost predicate Silent(before: seq<StreamEvent>, after: seq<StreamEvent>) {
    EndsOf(after) == EndsOf(before)
  }

  lemma Adds(before: seq<StreamEvent>, e: StreamEvent)
    ensures EndsOf(before + [e]) == EndsOf(before) + if IsTerminal(e) then [e] else []
  {
    assert (before + [e])[..|before|] == before;
  }

  lemma StartSilent(st: StreamState)
    ensures Silent(st.out, Start(st).out) && Start(st).terminal == st.terminal
  {
    Adds(st.out, StreamStart(Snapshot(st.blocks)));
  }

  lemma CloseSilent(st: StreamState)
    ensures Silent(st.out, Close(st).out) && Close(st).terminal == st.terminal
  {
    var ended := EndEvents(st.blocks, st.channel);
    if ended == [] { assert st.out + ended == st.out; } else { Adds(st.out, ended[0]); assert ended == [ended[0]]; }
  }

  lemma PiecesSilent(st: StreamState, delta: string)
    ensures Silent(st.out, FeedText(st, delta).out) && FeedText(st, delta).terminal == st.terminal
    ensures Silent(st.out, FeedThinking(st, delta).out) && FeedThinking(st, delta).terminal == st.terminal
  {
    hide EndsOf, EndEvents, GrowLast, Snapshot;
    CloseSilent(st);
    var c := Close(st);
    Adds(c.out, TextStart(|c.blocks|, Snapshot(c.blocks + [Text("", None)])));
    Adds(c.out, ThinkingStart(|c.blocks|, Snapshot(c.blocks + [Thinking("", None, false)])));
    var t, h := OpenText(st), OpenThinking(st);
    var texts, thoughts := GrowLast(t.blocks, delta), GrowLast(h.blocks, delta);
    if texts != [] { Adds(t.out, TextDelta(|texts| - 1, delta, Snapshot(texts))); }
    if thoughts != [] { Adds(h.out, ThinkingDelta(|thoughts| - 1, delta, Snapshot(thoughts))); }
  }

  lemma CallSilent(st: StreamState, call: ToolCall)
    ensures Silent(st.out, FeedCall(st, call).out) && FeedCall(st, call).terminal == st.terminal
  {
    hide EndsOf, EndEvents, Snapshot;
    CloseSilent(st);
    var c := Close(st);
    var blocks := c.blocks + [Call(call)];
    var start, end := ToolCallStart(|c.blocks|, Snapshot(blocks)), ToolCallEnd(|c.blocks|, call, Snapshot(blocks));
    Adds(c.out, start);
    Adds(c.out + [start], end);
    assert c.out + [start, end] == (c.out + [start]) + [end];
  }

  lemma FinalEnds(blocks: seq<AssistantBlock>, message: Assistant, reason: Option<string>)
    ensures var done := Final(blocks, message, reason);
            EndsAs(ResponseEnd(message, reason), StreamDone(done.stopReason, done))
  {
    hide WithMetadata, BlockCalls;
  }

  /** What one event of the source adds to the ends. */
  lemma FeedEnds(st: StreamState, p: ProviderEvent) returns (e: StreamEvent)
    ensures EndsOf(Feed(st, p).out) == EndsOf(st.out) + if EndsSource(p) then [e] else []
    ensures EndsSource(p) ==> EndsAs(p, e)
    ensures Feed(st, p).terminal == (st.terminal || EndsSource(p))
  {
    hide EndsOf, EndEvents, FeedText, FeedThinking, FeedCall, Final, Start;
    StartSilent(st);
    var s := Start(st);
    CloseSilent(s);
    var c := Close(s);
    e := StreamStart(Snapshot([]));
    match p
    case TextPiece(delta) => PiecesSilent(s, delta);
    case ThinkingPiece(delta) => PiecesSilent(s, delta);
    case WholeCall(call) => CallSilent(s, call);
    case ResponseEnd(message, reason) =>
      var done := Final(c.blocks, message, reason);
      e := StreamDone(done.stopReason, done);
      FinalEnds(c.blocks, message, reason);
      Adds(c.out, e);
    case ProviderError(text) =>
      e := StreamError(Error, AssistantMessage(s.blocks, Error, Some(text)));
      Adds(s.out, e);
    case ProviderAborted =>
      e := StreamError(Aborted, AssistantMessage(c.blocks, Aborted, Some(CANCELLED)));
      Adds(c.out, e);
    case _ =>
  }

  lemma {:induction false} FoldEnds(source: seq<ProviderEvent>, n: nat)
    requires n <= |source|
    ensures AllEndAs(SourceEnds(source[..n]), EndsOf(Fold(source, n).out))
    ensures Fold(source, n).terminal <==> SourceEnds(source[..n]) != []
  {
    hide Feed, EndsAs, EndsOf;
    if n == 0 {
      assert EndsOf([]) == [] by { NothingEnds(); }
    } else {
      FoldEnds(source, n - 1);
      var e := FeedEnds(Fold(source, n - 1), source[n - 1]);
      assert source[..n][..n - 1] == source[..n - 1];
    }
  }

  lemma NothingEnds()
    ensures EndsOf([]) == []
  {
  }

  /** Over any source: the stream has the ends of its source, in order, each for the reason
      given; and if the source has none, one that says so. */
  lemma EndsOfStream(source: seq<ProviderEvent>)
    ensures SourceEnds(source) != [] ==> AllEndAs(SourceEnds(source), EndsOf(Canonical(source)))
    ensures SourceEnds(source) == [] ==>
              var ends := EndsOf(Canonical(source));
              && |ends| == 1 && ends[0].StreamError? && ends[0].reason.Error? && ends[0].error.stopReason.Error?
              && ends[0].error.errorMessage == Some(NO_TERMINAL)
  {
    hide Feed, EndsAs, EndsOf, SourceEnds, Start;
    FoldEnds(source, |source|);
    assert source[..|source|] == source;
    var st := Fold(source, |source|);
    StartSilent(st);
    if !st.terminal {
      Adds(Start(st).out, StreamError(Error, AssistantMessage(Start(st).blocks, Error, Some(NO_TERMINAL))));
    }
  }

  lemma {:induction false} LastOfEnds(events: seq<StreamEvent>)
    ensures LastMessage(events).Some? <==> EndsOf(events) != []
    ensures EndsOf(events) != [] ==>
              var e := EndsOf(events)[|EndsOf(events)| - 1];
              IsTerminal(e) && LastMessage(events) == Some(if e.StreamDone? then e.message else e.error)
  {
    if events != [] { LastOfEnds(events[..|events| - 1]); }
  }

  /** So a run of the loop on it fails or is aborted only if its source did, at its end;
      answers cut off by a token limit are answers. */
  lemma LoopSeesReason(source: seq<ProviderEvent>, s: TurnScript)
    requires s.stream == Canonical(source)
    ensures var m, ends := AssistantOf(s), SourceEnds(source);
            && (m.stopReason.Error? <==> ends == [] || ends[|ends| - 1].ProviderError?)
            && (m.stopReason.Aborted? <==> ends != [] && ends[|ends| - 1].ProviderAborted?)
            && (ends != [] && ends[|ends| - 1].ProviderError? ==> m.errorMessage == Some(ends[|ends| - 1].text))
  {
    hide EndsOf, SourceEnds, Canonical;
    EndsOfStream(source);
    LastOfEnds(s.stream);
  }
}
