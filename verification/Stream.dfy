/** `canonicalize_provider_stream`: an adapter's coarse events become a bracketed
    block stream whose replay is the final message. */
module Stream {
  import opened Messages
  import opened StreamEvents

  /** What an adapter's parser emits. */
  datatype ProviderEvent =
    | Retry
    | ResponseStart
    | TextPiece(delta: string)
    | ThinkingPiece(delta: string)
    | WholeCall(call: ToolCall)
    | ResponseEnd(message: Assistant, finishReason: Option<string>)
    | ProviderError(text: string)
    | ProviderAborted

  datatype Channel = Quiet | InText | InThinking

  /** The canonicalizer's variables and everything it has yielded. */
  datatype StreamState = StreamState(
    blocks: seq<AssistantBlock>, channel: Channel, started: bool, terminal: bool, out: seq<StreamEvent>)

  const CANCELLED := "Request was cancelled"
  const NO_TERMINAL := "Provider stream ended without a terminal event"
  const INITIAL := StreamState([], Quiet, false, false, [])

  function Snapshot(blocks: seq<AssistantBlock>): Assistant {
    AssistantMessage(blocks, Stop, None)
  }

  function EndEvents(blocks: seq<AssistantBlock>, channel: Channel): seq<StreamEvent> {
    if channel.Quiet? || blocks == [] then []
    else
      match blocks[|blocks| - 1]
      case Text(text, _) => [TextEnd(|blocks| - 1, text, Snapshot(blocks))]
      case Thinking(text, _, _) => [ThinkingEnd(|blocks| - 1, text, Snapshot(blocks))]
      case Call(_) => []
  }

  /** `_end_active_block`, and no block active afterwards. */
  function Close(st: StreamState): StreamState {
    st.(channel := Quiet, out := st.out + EndEvents(st.blocks, st.channel))
  }

  function Start(st: StreamState): StreamState {
    if st.started then st else st.(started := true, out := st.out + [StreamStart(Snapshot(st.blocks))])
  }

  function OpenText(st: StreamState): StreamState {
    if st.channel.InText? then st
    else
      var c := Close(st);
      var blocks := c.blocks + [Text("", None)];
      c.(blocks := blocks, channel := InText, out := c.out + [TextStart(|c.blocks|, Snapshot(blocks))])
  }

  function OpenThinking(st: StreamState): StreamState {
    if st.channel.InThinking? then st
    else
      var c := Close(st);
      var blocks := c.blocks + [Thinking("", None, false)];
      c.(blocks := blocks, channel := InThinking, out := c.out + [ThinkingStart(|c.blocks|, Snapshot(blocks))])
  }

  /** A block with more text. */
  function Grown(block: AssistantBlock, delta: string): AssistantBlock {
    match block
    case Text(text, s) => Text(text + delta, s)
    case Thinking(text, s, redacted) => Thinking(text + delta, s, redacted)
    case Call(_) => block
  }

  function GrowLast(blocks: seq<AssistantBlock>, delta: string): seq<AssistantBlock> {
    if blocks == [] then blocks else blocks[|blocks| - 1 := Grown(blocks[|blocks| - 1], delta)]
  }

  function FeedText(st: StreamState, delta: string): StreamState {
    var o := OpenText(st);
    var blocks := GrowLast(o.blocks, delta);
    if blocks == [] then o else o.(blocks := blocks, out := o.out + [TextDelta(|blocks| - 1, delta, Snapshot(blocks))])
  }

  function FeedThinking(st: StreamState, delta: string): StreamState {
    var o := OpenThinking(st);
    var blocks := GrowLast(o.blocks, delta);
    if blocks == [] then o else o.(blocks := blocks,
                                   out := o.out + [ThinkingDelta(|blocks| - 1, delta, Snapshot(blocks))])
  }

  function FeedCall(st: StreamState, call: ToolCall): StreamState {
    var c := Close(st);
    var blocks := c.blocks + [Call(call)];
    c.(blocks := blocks,
       out := c.out + [ToolCallStart(|c.blocks|, Snapshot(blocks)), ToolCallEnd(|c.blocks|, call, Snapshot(blocks))])
  }

  // ------------------------------------------------------- the final message

  function ThinkingsOf(blocks: seq<AssistantBlock>): seq<AssistantBlock> {
    if blocks == [] then []
    else if blocks[|blocks| - 1].Thinking? then ThinkingsOf(blocks[..|blocks| - 1]) + [blocks[|blocks| - 1]]
    else ThinkingsOf(blocks[..|blocks| - 1])
  }

  function TextsOf(blocks: seq<AssistantBlock>): seq<AssistantBlock> {
    if blocks == [] then []
    else if blocks[|blocks| - 1].Text? then TextsOf(blocks[..|blocks| - 1]) + [blocks[|blocks| - 1]]
    else TextsOf(blocks[..|blocks| - 1])
  }

  /** Block j with the metadata of the source block that is as many thinking (or
      text) blocks in as it is. */
  function Annotated(target: seq<AssistantBlock>, source: seq<AssistantBlock>, j: nat): AssistantBlock
    requires j < |target|
  {
    ThinkingsAre(source);
    TextsAre(source);
    match target[j]
    case Thinking(text, _, _) =>
      var k := |ThinkingsOf(target[..j])|;
      if k < |ThinkingsOf(source)|
      then Thinking(text, ThinkingsOf(source)[k].thinkingSignature, ThinkingsOf(source)[k].redacted)
      else target[j]
    case Text(text, _) =>
      var k := |TextsOf(target[..j])|;
      if k < |TextsOf(source)| then Text(text, TextsOf(source)[k].textSignature) else target[j]
    case Call(_) => target[j]
  }

  lemma {:induction false} ThinkingsAre(blocks: seq<AssistantBlock>)
    ensures forall b :: b in ThinkingsOf(blocks) ==> b.Thinking?
  {
    if blocks != [] { ThinkingsAre(blocks[..|blocks| - 1]); }
  }

  lemma {:induction false} TextsAre(blocks: seq<AssistantBlock>)
    ensures forall b :: b in TextsOf(blocks) ==> b.Text?
  {
    if blocks != [] { TextsAre(blocks[..|blocks| - 1]); }
  }

  function WithMetadata(target: seq<AssistantBlock>, source: seq<AssistantBlock>): (r: seq<AssistantBlock>)
    ensures |r| == |target|
  {
    seq(|target|, j requires 0 <= j < |target| => Annotated(target, source, j))
  }

  function FinishReason(value: Option<string>, hasTools: bool): StopReason {
    if hasTools || value in {Some("tool_calls"), Some("tool_use"), Some("toolUse")} then ToolUse
    else if value in {Some("length"), Some("max_tokens"), Some("MAX_TOKENS"), Some("incomplete")} then Length
    else Stop
  }

  function Final(blocks: seq<AssistantBlock>, message: Assistant, finishReason: Option<string>): Assistant {
    var streamed := if blocks == [] then message.blocks else blocks;
    var content := WithMetadata(streamed, message.blocks);
    AssistantMessage(content, FinishReason(finishReason, BlockCalls(content) != []), message.errorMessage)
  }

  function Feed(st: StreamState, e: ProviderEvent): StreamState {
    match e
    case Retry => st
    case ResponseStart => Start(st)
    case TextPiece(delta) => FeedText(Start(st), delta)
    case ThinkingPiece(delta) => FeedThinking(Start(st), delta)
    case WholeCall(call) => FeedCall(Start(st), call)
    case ResponseEnd(message, reason) =>
      var c := Close(Start(st));
      var done := Final(c.blocks, message, reason);
      c.(terminal := true, out := c.out + [StreamDone(done.stopReason, done)])
    case ProviderError(text) =>
      var c := Start(st);
      c.(terminal := true, out := c.out + [StreamError(Error, AssistantMessage(c.blocks, Error, Some(text)))])
    case ProviderAborted =>
      var c := Close(Start(st));
      c.(terminal := true, out := c.out + [StreamError(Aborted, AssistantMessage(c.blocks, Aborted, Some(CANCELLED)))])
  }

  function Fold(source: seq<ProviderEvent>, n: nat): StreamState
    requires n <= |source|
  {
    if n == 0 then INITIAL else Feed(Fold(source, n - 1), source[n - 1])
  }

  function Conclude(st: StreamState): StreamState {
    var s := Start(st);
    if s.terminal then s
    else s.(out := s.out + [StreamError(Error, AssistantMessage(s.blocks, Error, Some(NO_TERMINAL)))])
  }

  /** The canonical stream of a source. */
  function Canonical(source: seq<ProviderEvent>): seq<StreamEvent> {
    Conclude(Fold(source, |source|)).out
  }

  // --------------------------------------------------------------- the loops

  /** `_copy_replay_metadata`: one pass over the streamed blocks with two counters. */
  method CopyReplayMetadata(target: seq<AssistantBlock>, source: seq<AssistantBlock>) returns (r: seq<AssistantBlock>)
    ensures r == WithMetadata(target, source)
  {
    hide BlockCalls;
    var thinkings, texts := [], [];
    for i := 0 to |source|
      invariant thinkings == ThinkingsOf(source[..i]) && texts == TextsOf(source[..i])
    {
      assert source[..i + 1][..i] == source[..i];
      if source[i].Thinking? { thinkings := thinkings + [source[i]]; }
      if source[i].Text? { texts := texts + [source[i]]; }
    }
    assert source[..|source|] == source;
    ThinkingsAre(source);
    TextsAre(source);
    r := target;
    var k, l := 0, 0;
    for j := 0 to |target|
      invariant |r| == |target|
      invariant k == |ThinkingsOf(target[..j])| && l == |TextsOf(target[..j])|
      invariant forall i :: 0 <= i < j ==> r[i] == Annotated(target, source, i)
      invariant forall i :: j <= i < |target| ==> r[i] == target[i]
    {
      assert target[..j + 1][..j] == target[..j];
      match target[j] {
        case Thinking(text, _, _) =>
          if k < |thinkings| { r := r[j := Thinking(text, thinkings[k].thinkingSignature, thinkings[k].redacted)]; }
          k := k + 1;
        case Text(text, _) =>
          if l < |texts| { r := r[j := Text(text, texts[l].textSignature)]; }
          l := l + 1;
        case Call(_) =>
      }
    }
  }

  method EndActiveBlock(blocks: seq<AssistantBlock>, active: Option<nat>) returns (out: seq<StreamEvent>)
    requires active.Some? ==> active.value < |blocks|
    ensures active.None? ==> out == []
    ensures active.Some? && active.value == |blocks| - 1 ==> forall c: Channel ::
              c != Quiet ==> out == EndEvents(blocks, c)
  {
    if active.None? { return []; }
    match blocks[active.value] {
      case Text(text, _) => out := [TextEnd(active.value, text, Snapshot(blocks))];
      case Thinking(text, _, _) => out := [ThinkingEnd(active.value, text, Snapshot(blocks))];
      case Call(_) => out := [];
    }
  }

  /** The active index points at the last block, of the channel's kind. */
  ghost predicate Active(blocks: seq<AssistantBlock>, active: Option<nat>, channel: Channel) {
    && (active.None? <==> channel.Quiet?)
    && (active.Some? ==> blocks != [] && active.value == |blocks| - 1)
    && (channel.InText? ==> blocks != [] && blocks[|blocks| - 1].Text?)
    && (channel.InThinking? ==> blocks != [] && blocks[|blocks| - 1].Thinking?)
  }

  /** A piece of text: it goes on the active text block, or on a new one. */
  method StreamText(before: seq<AssistantBlock>, wasActive: Option<nat>, was: Channel, delta: string)
    returns (blocks: seq<AssistantBlock>, active: Option<nat>, channel: Channel, out: seq<StreamEvent>)
    requires Active(before, wasActive, was)
    ensures Active(blocks, active, channel)
    ensures forall st: StreamState :: st.blocks == before && st.channel == was ==>
              FeedText(st, delta) == st.(blocks := blocks, channel := channel, out := st.out + out)
  {
    hide Snapshot;
    blocks, active, channel, out := before, wasActive, was, [];
    if channel != InText {
      out := EndActiveBlock(blocks, active);
      active, channel := Some(|blocks|), InText;
      blocks := blocks + [Text("", None)];
      out := out + [TextStart(active.value, Snapshot(blocks))];
    }
    var block := blocks[active.value];
    blocks := blocks[active.value := block.(text := block.text + delta)];
    out := out + [TextDelta(active.value, delta, Snapshot(blocks))];
    forall st: StreamState | st.blocks == before && st.channel == was
      ensures FeedText(st, delta) == st.(blocks := blocks, channel := channel, out := st.out + out)
    {
      assert OpenText(st).blocks == if was.InText? then before else before + [Text("", None)];
      assert FeedText(st, delta).out == st.out + out;
    }
  }

  /** A piece of thinking, likewise. */
  method StreamThinking(before: seq<AssistantBlock>, wasActive: Option<nat>, was: Channel, delta: string)
    returns (blocks: seq<AssistantBlock>, active: Option<nat>, channel: Channel, out: seq<StreamEvent>)
    requires Active(before, wasActive, was)
    ensures Active(blocks, active, channel)
    ensures forall st: StreamState :: st.blocks == before && st.channel == was ==>
              FeedThinking(st, delta) == st.(blocks := blocks, channel := channel, out := st.out + out)
  {
    hide Snapshot;
    blocks, active, channel, out := before, wasActive, was, [];
    if channel != InThinking {
      out := EndActiveBlock(blocks, active);
      active, channel := Some(|blocks|), InThinking;
      blocks := blocks + [Thinking("", None, false)];
      out := out + [ThinkingStart(active.value, Snapshot(blocks))];
    }
    var block := blocks[active.value];
    blocks := blocks[active.value := block.(thinking := block.thinking + delta)];
    out := out + [ThinkingDelta(active.value, delta, Snapshot(blocks))];
    forall st: StreamState | st.blocks == before && st.channel == was
      ensures FeedThinking(st, delta) == st.(blocks := blocks, channel := channel, out := st.out + out)
    {
      assert OpenThinking(st).blocks == if was.InThinking? then before else before + [Thinking("", None, false)];
      assert FeedThinking(st, delta).out == st.out + out;
    }
  }

  method CanonicalizeProviderStream(source: seq<ProviderEvent>) returns (out: seq<StreamEvent>)
    ensures out == Canonical(source)
  {
    hide Final, BlockCalls, Snapshot, FinishReason, WithMetadata;
    var blocks: seq<AssistantBlock> := [];
    var active: Option<nat>, channel := None, Quiet;
    var started, terminal := false, false;
    out := [];
    for i := 0 to |source|
      invariant StreamState(blocks, channel, started, terminal, out) == Fold(source, i)
      invariant Active(blocks, active, channel)
    {
      var event := source[i];
      ghost var st := Fold(source, i);
      assert Fold(source, i + 1) == Feed(st, event);
      if event.Retry? { continue; }
      if !started {
        started := true;
        out := out + [StreamStart(Snapshot(blocks))];
      }
      if event.ResponseStart? { continue; }
      var more: seq<StreamEvent>;
      match event {
        case TextPiece(delta) =>
          blocks, active, channel, more := StreamText(blocks, active, channel, delta);
          out := out + more;
        case ThinkingPiece(delta) =>
          blocks, active, channel, more := StreamThinking(blocks, active, channel, delta);
          out := out + more;
        case WholeCall(call) =>
          var ended := EndActiveBlock(blocks, active);
          out := out + ended;
          active, channel := None, Quiet;
          var index := |blocks|;
          blocks := blocks + [Call(call)];
          out := out + [ToolCallStart(index, Snapshot(blocks)), ToolCallEnd(index, call, Snapshot(blocks))];
        case ResponseEnd(message, reason) =>
          var ended := EndActiveBlock(blocks, active);
          out := out + ended;
          active, channel := None, Quiet;
          var done := FinalMessage(blocks, message, reason);
          out := out + [StreamDone(done.stopReason, done)];
          terminal := true;
        case ProviderError(text) =>
          out := out + [StreamError(Error, AssistantMessage(blocks, Error, Some(text)))];
          terminal := true;
        case ProviderAborted =>
          var ended := EndActiveBlock(blocks, active);
          out := out + ended;
          active, channel := None, Quiet;
          out := out + [StreamError(Aborted, AssistantMessage(blocks, Aborted, Some(CANCELLED)))];
          terminal := true;
      }
    }
    if !started { out := out + [StreamStart(Snapshot(blocks))]; }
    if !terminal { out := out + [StreamError(Error, AssistantMessage(blocks, Error, Some(NO_TERMINAL)))]; }
  }

  method FinalMessage(blocks: seq<AssistantBlock>, message: Assistant, reason: Option<string>) returns (done: Assistant)
    ensures done == Final(blocks, message, reason)
  {
    var content := blocks;
    if content == [] && message.blocks != [] { content := message.blocks; }
    content := CopyReplayMetadata(content, message.blocks);
    done := AssistantMessage(content, FinishReason(reason, BlockCalls(content) != []), message.errorMessage);
  }
}
