/** Conversion of a history to chat-completion messages: tool results stay right behind
    their calls, and tool images travel in a user message behind them. */
module Wire {
  import opened Messages
  import opened ToolHistory
  import opened RepairShape

  datatype ChatCall = ChatCall(id: string, name: string, arguments: Json)

  datatype ChatPart = TextPart(text: string) | ImagePart(image: MediaBlock)

  datatype ChatMessage =
    | UserText(text: string)
    | UserParts(parts: seq<ChatPart>)
    | AssistantChat(text: string, calls: seq<ChatCall>)
    | ToolChat(toolCallId: string, text: string)

  const IMAGES_ATTACHED := "Attached image(s) from tool result:"

  /** The images among the blocks, in order. */
  function ImagesOf(blocks: seq<MediaBlock>): seq<MediaBlock> {
    if blocks == [] then [] else (if blocks[0].ImageBlock? then [blocks[0]] else []) + ImagesOf(blocks[1..])
  }

  function ImageParts(images: seq<MediaBlock>): (parts: seq<ChatPart>)
    ensures |parts| == |images| && forall i :: 0 <= i < |images| ==> parts[i] == ImagePart(images[i])
  {
    seq(|images|, i requires 0 <= i < |images| => ImagePart(images[i]))
  }

  /** Tool call ids are made portable by some function of the id, for calls and results alike. */
  type Portable = string -> string

  function ChatCalls(portable: Portable, calls: seq<ToolCall>): (r: seq<ChatCall>)
    ensures |r| == |calls| && forall i ::
              0 <= i < |calls| ==> r[i] == ChatCall(portable(calls[i].id), calls[i].name, calls[i].arguments)
  {
    seq(|calls|, i requires 0 <= i < |calls| => ChatCall(portable(calls[i].id), calls[i].name, calls[i].arguments))
  }

  function UserChat(blocks: seq<MediaBlock>): ChatMessage {
    var text, images := MediaText(blocks), ImagesOf(blocks);
    if images == [] then UserText(text)
    else UserParts((if text == "" then [] else [TextPart(text)]) + ImageParts(images))
  }

  function ToolImageChat(images: seq<MediaBlock>): ChatMessage {
    UserParts([TextPart(IMAGES_ATTACHED)] + ImageParts(images))
  }

  function ResultChat(portable: Portable, m: AgentMessage): ChatMessage
    requires m.ToolResultMessage?
  {
    var text := MediaText(m.content);
    ToolChat(portable(m.toolCallId),
             if text != "" then text else if ImagesOf(m.content) != [] then "(see attached image)"
                  else "(no tool output)")
  }

  /** A message that is no tool result; a custom one becomes its text. */
  function PlainChat(portable: Portable, m: AgentMessage): ChatMessage
    requires !m.ToolResultMessage?
  {
    match m
    case UserMessage(content) => UserChat(content)
    case AssistantMessage(blocks, _, _) => AssistantChat(AssistantText(blocks), ChatCalls(portable, CallsOf(m)))
    case CustomMessage(_, content) => UserText(MediaText(content))
  }

  function Flush(images: seq<MediaBlock>): seq<ChatMessage> {
    if images == [] then [] else [ToolImageChat(images)]
  }

  /** The conversion of the messages still to come, with images waiting. */
  function Converted(portable: Portable, waiting: seq<MediaBlock>, ms: seq<AgentMessage>): seq<ChatMessage>
    decreases |ms|
  {
    if ms == [] then Flush(waiting)
    else if ms[0].ToolResultMessage? then
      [ResultChat(portable, ms[0])] + Converted(portable, waiting + ImagesOf(ms[0].content), ms[1..])
    else
      Flush(waiting) + [PlainChat(portable, ms[0])] + Converted(portable, [], ms[1..])
  }

  /** `_messages_to_openai_chat` */
  method MessagesToChat(portable: Portable, messages: seq<AgentMessage>) returns (converted: seq<ChatMessage>)
    ensures converted == Converted(portable, [], messages)
  {
    hide ResultChat, PlainChat, ImagesOf, ToolImageChat, Converted;
    converted := [];
    var waiting: seq<MediaBlock> := [];
    assert messages[0..] == messages;
    for i := 0 to |messages|
      invariant converted + Converted(portable, waiting, messages[i..]) == Converted(portable, [], messages)
    {
      var message := messages[i];
      ConvertedNext(portable, waiting, messages, i, converted);
      NothingFlushed(converted);
      ghost var rest := messages[i + 1..];
      if waiting != [] && !message.ToolResultMessage? {
        converted := converted + [ToolImageChat(waiting)];
        waiting := [];
      }
      if message.ToolResultMessage? {
        converted := converted + [ResultChat(portable, message)];
        waiting := waiting + ImagesOf(message.content);
      } else {
        converted := converted + [PlainChat(portable, message)];
      }
    }
    ConvertedEnd(portable, waiting);
    NothingFlushed(converted);
    assert messages[|messages|..] == [];
    if waiting != [] { converted := converted + [ToolImageChat(waiting)]; }
  }

  lemma ConvertedNext(portable: Portable, waiting: seq<MediaBlock>, ms: seq<AgentMessage>, i: nat,
                      before: seq<ChatMessage>)
    requires i < |ms|
    ensures before + Converted(portable, waiting, ms[i..]) ==
            if ms[i].ToolResultMessage? then
              (before + [ResultChat(portable, ms[i])])
                + Converted(portable, waiting + ImagesOf(ms[i].content), ms[i + 1..])
            else
              ((before + Flush(waiting)) + [PlainChat(portable, ms[i])]) + Converted(portable, [], ms[i + 1..])
  {
    hide ResultChat, PlainChat, ImagesOf, Flush;
    assert ms[i..][0] == ms[i] && ms[i..][1..] == ms[i + 1..];
    if ms[i].ToolResultMessage? {
      Appended(before, [ResultChat(portable, ms[i])],
               Converted(portable, waiting + ImagesOf(ms[i].content), ms[i + 1..]));
    } else {
      var rest := Converted(portable, [], ms[i + 1..]);
      Appended(before, Flush(waiting) + [PlainChat(portable, ms[i])], rest);
      Appended(before, Flush(waiting), [PlainChat(portable, ms[i])]);
    }
  }

  lemma Appended(a: seq<ChatMessage>, b: seq<ChatMessage>, c: seq<ChatMessage>)
    ensures a + (b + c) == (a + b) + c
  {
  }

  lemma NothingFlushed(before: seq<ChatMessage>)
    ensures before + Flush([]) == before
  {
  }

  lemma ConvertedEnd(portable: Portable, waiting: seq<MediaBlock>)
    ensures Converted(portable, waiting, []) == Flush(waiting)
  {
  }

  // ------------------------------------------------------------- adjacency

  function Calls(m: ChatMessage): seq<ChatCall> {
    if m.AssistantChat? then m.calls else []
  }

  ghost predicate AnswerAt(out: seq<ChatMessage>, i: nat, j: nat) {
    && i + 1 + j < |out| && j < |Calls(out[i])|
    && out[i + 1 + j].ToolChat? && out[i + 1 + j].toolCallId == Calls(out[i])[j].id
  }

  /** The messages behind an assistant message answer its calls, one each, in order. */
  ghost predicate AnsweredAt(out: seq<ChatMessage>, i: nat) {
    && i < |out| && !out[i].ToolChat? && i + |Calls(out[i])| < |out|
    && forall j: nat :: j < |Calls(out[i])| ==> AnswerAt(out, i, j)
  }

  /** From position i on, every tool message is one of an assistant's answers, right behind it. */
  ghost predicate AdjacentFrom(out: seq<ChatMessage>, i: nat)
    decreases |out| - i
  {
    i == |out| || (AnsweredAt(out, i) && AdjacentFrom(out, i + 1 + |Calls(out[i])|))
  }

  function ResultChats(portable: Portable, rs: seq<AgentMessage>): (r: seq<ChatMessage>)
    requires forall m :: m in rs ==> m.ToolResultMessage?
    ensures |r| == |rs| && forall i :: 0 <= i < |rs| ==> r[i] == ResultChat(portable, rs[i])
  {
    seq(|rs|, i requires 0 <= i < |rs| => ResultChat(portable, rs[i]))
  }

  function ImagesOfAll(rs: seq<AgentMessage>): seq<MediaBlock>
    requires forall m :: m in rs ==> m.ToolResultMessage?
  {
    if rs == [] then [] else ImagesOf(rs[0].content) + ImagesOfAll(rs[1..])
  }

  /** A run of results converts to as many tool messages, and its images wait behind it. */
  lemma {:induction false} RunConverts(portable: Portable, waiting: seq<MediaBlock>, rs: seq<AgentMessage>,
                                       rest: seq<AgentMessage>)
    requires forall m :: m in rs ==> m.ToolResultMessage?
    ensures Converted(portable, waiting, rs + rest)
         == ResultChats(portable, rs) + Converted(portable, waiting + ImagesOfAll(rs), rest)
    decreases |rs|
  {
    hide ResultChat, PlainChat, ImagesOf, ToolImageChat, ResultChats;
    if rs == [] {
      assert ResultChats(portable, rs) == [] by { NoResultChats(portable); }
      assert rs + rest == rest && waiting + [] == waiting;
    } else {
      assert (rs + rest)[1..] == rs[1..] + rest;
      RunConverts(portable, waiting + ImagesOf(rs[0].content), rs[1..], rest);
      assert (waiting + ImagesOf(rs[0].content)) + ImagesOfAll(rs[1..]) == waiting + ImagesOfAll(rs);
      FirstResult(portable, rs);
      var tail := Converted(portable, waiting + ImagesOfAll(rs), rest);
      Appended([ResultChat(portable, rs[0])], ResultChats(portable, rs[1..]), tail);
    }
  }

  lemma NoResultChats(portable: Portable)
    ensures ResultChats(portable, []) == []
  {
  }

  lemma FirstResult(portable: Portable, rs: seq<AgentMessage>)
    requires rs != [] && forall m :: m in rs ==> m.ToolResultMessage?
    ensures ResultChats(portable, rs) == [ResultChat(portable, rs[0])] + ResultChats(portable, rs[1..])
  {
    hide ResultChat;
  }

  lemma {:induction false} AdjacentPrepend(first: seq<ChatMessage>, out: seq<ChatMessage>, i: nat)
    requires i <= |out| && AdjacentFrom(out, i)
    ensures AdjacentFrom(first + out, |first| + i)
    decreases |out| - i
  {
    var all := first + out;
    if i < |out| {
      assert all[|first| + i] == out[i];
      var n := |Calls(out[i])|;
      assert all[|first| + i + 1..|first| + i + 1 + n] == out[i + 1..i + 1 + n];
      SameAnswers(out, i, all, |first| + i);
      AdjacentPrepend(first, out, i + 1 + n);
      assert |first| + (i + 1 + n) == |first| + i + 1 + n;
    }
  }

  lemma SameAnswers(a: seq<ChatMessage>, i: nat, b: seq<ChatMessage>, k: nat)
    requires AnsweredAt(a, i) && k < |b| && b[k] == a[i] && k + |Calls(a[i])| < |b|
    requires b[k + 1..k + 1 + |Calls(a[i])|] == a[i + 1..i + 1 + |Calls(a[i])|]
    ensures AnsweredAt(b, k)
  {
    var n := |Calls(a[i])|;
    forall j: nat | j < n ensures AnswerAt(b, k, j) {
      assert AnswerAt(a, i, j);
      assert b[k + 1..k + 1 + n][j] == a[i + 1..i + 1 + n][j];
    }
  }

  /** An image message or another message without calls in front. */
  lemma FlushAdjacent(waiting: seq<MediaBlock>, out: seq<ChatMessage>)
    requires AdjacentFrom(out, 0)
    ensures AdjacentFrom(Flush(waiting) + out, 0)
  {
    AdjacentPrepend(Flush(waiting), out, 0);
    if waiting == [] { assert Flush(waiting) + out == out; }
  }

  /** A normal transcript converts to adjacent chat messages, whatever images wait. */
  lemma {:induction false} NormalConverts(portable: Portable, waiting: seq<MediaBlock>, ms: seq<AgentMessage>, i: nat)
    requires i <= |ms| && NormalFrom(ms, i)
    ensures AdjacentFrom(Converted(portable, waiting, ms[i..]), 0)
    decreases |ms| - i
  {
    hide ResultChat, ImagesOf, ToolImageChat, CallsOf, PlainChat, Converted, AdjacentFrom, Flush, ImagesOfAll;
    if i == |ms| {
      assert ms[i..] == [];
      EndAdjacent(portable, waiting);
    } else {
      var calls := CallsOf(ms[i]);
      var next := i + 1 + |calls|;
      var rs := ms[i + 1..next];
      OnlyResults(rs, calls);
      NormalConverts(portable, ImagesOfAll(rs), ms, next);
      BlockConverts(portable, waiting, ms[i], rs, ms[next..]);
      assert ms[i..] == [ms[i]] + rs + ms[next..];
      var rest := Converted(portable, ImagesOfAll(rs), ms[next..]);
      BlockAdjacent(portable, ms[i], rs, calls, rest);
      FlushAdjacent(waiting, ([PlainChat(portable, ms[i])] + ResultChats(portable, rs)) + rest);
    }
  }

  lemma EndAdjacent(portable: Portable, waiting: seq<MediaBlock>)
    ensures AdjacentFrom(Converted(portable, waiting, []), 0)
  {
    FlushAdjacent(waiting, []);
    assert Flush(waiting) + [] == Flush(waiting);
  }

  lemma BlockConverts(portable: Portable, waiting: seq<MediaBlock>, m: AgentMessage, rs: seq<AgentMessage>,
                      rest: seq<AgentMessage>)
    requires !m.ToolResultMessage? && forall r :: r in rs ==> r.ToolResultMessage?
    ensures Converted(portable, waiting, [m] + rs + rest)
         == Flush(waiting) + (([PlainChat(portable, m)] + ResultChats(portable, rs))
           + Converted(portable, ImagesOfAll(rs), rest))
  {
    hide ResultChat, PlainChat, ImagesOf, ToolImageChat, Flush, ResultChats;
    RunConverts(portable, [], rs, rest);
    assert [] + ImagesOfAll(rs) == ImagesOfAll(rs);
    assert ([m] + rs + rest)[1..] == rs + rest;
  }

  lemma BlockAdjacent(portable: Portable, m: AgentMessage, rs: seq<AgentMessage>, calls: seq<ToolCall>,
                      rest: seq<ChatMessage>)
    requires !m.ToolResultMessage? && calls == CallsOf(m) && Answers(rs, calls) && AdjacentFrom(rest, 0)
    requires forall r :: r in rs ==> r.ToolResultMessage?
    ensures AdjacentFrom(([PlainChat(portable, m)] + ResultChats(portable, rs)) + rest, 0)
  {
    hide AdjacentFrom, PlainChat, ImagesOf, MediaText, CallsOf;
    var block := [PlainChat(portable, m)] + ResultChats(portable, rs);
    var out := block + rest;
    AnswersLength(rs, calls);
    PlainCalls(portable, m);
    assert out[0] == PlainChat(portable, m) && |Calls(out[0])| == |calls|;
    forall j: nat | j < |calls| ensures AnswerAt(out, 0, j) {
      assert out[1 + j] == ResultChats(portable, rs)[j] == ResultChat(portable, rs[j]);
    }
    AdjacentPrepend(block, rest, 0);
    AdjacentStep(out, 0);
  }

  lemma PlainCalls(portable: Portable, m: AgentMessage)
    requires !m.ToolResultMessage?
    ensures var c := PlainChat(portable, m); !c.ToolChat? && Calls(c) == ChatCalls(portable, CallsOf(m))
  {
  }

  lemma AdjacentStep(out: seq<ChatMessage>, i: nat)
    requires AnsweredAt(out, i) && AdjacentFrom(out, i + 1 + |Calls(out[i])|)
    ensures AdjacentFrom(out, i)
  {
  }

  /** Whatever the history, its provider context converts so that every assistant message
      with k calls is followed at once by k tool messages with the same ids in order, and
      nothing, an image message neither, comes between them. */
  lemma ContextConvertsAdjacent(portable: Portable, history: seq<AgentMessage>)
    ensures AdjacentFrom(Converted(portable, [], ProviderContext(history)), 0)
  {
    hide Repair, Replayable, Converted, AdjacentFrom;
    RepairOutputShape(Replayable(history));
    var ms := ProviderContext(history);
    assert ms[0..] == ms;
    NormalConverts(portable, [], ms, 0);
  }

  // --------------------------------------------------------- images conserved

  /** The images a history shows: those of user messages and tool results, in order. */
  function ImagesShown(ms: seq<AgentMessage>): seq<MediaBlock> {
    if ms == [] then []
    else
      (match ms[0]
       case UserMessage(content) => ImagesOf(content)
       case ToolResultMessage(_, _, content, _, _) => ImagesOf(content)
       case _ => []) + ImagesShown(ms[1..])
  }

  function PartImages(parts: seq<ChatPart>): seq<MediaBlock> {
    if parts == [] then [] else (if parts[0].ImagePart? then [parts[0].image] else []) + PartImages(parts[1..])
  }

  function ChatImages(out: seq<ChatMessage>): seq<MediaBlock> {
    if out == [] then [] else (if out[0].UserParts? then PartImages(out[0].parts) else []) + ChatImages(out[1..])
  }

  lemma {:induction false} ChatImagesConcat(a: seq<ChatMessage>, b: seq<ChatMessage>)
    ensures ChatImages(a + b) == ChatImages(a) + ChatImages(b)
  {
    if a == [] {
      assert a + b == b;
    } else {
      assert (a + b)[1..] == a[1..] + b;
      ChatImagesConcat(a[1..], b);
    }
  }

  lemma {:induction false} PartsOfImages(images: seq<MediaBlock>)
    ensures PartImages(ImageParts(images)) == images
  {
    if images != [] {
      assert ImageParts(images)[1..] == ImageParts(images[1..]);
      PartsOfImages(images[1..]);
    }
  }

  lemma TextFirst(text: string, parts: seq<ChatPart>)
    ensures PartImages([TextPart(text)] + parts) == PartImages(parts)
  {
    assert ([TextPart(text)] + parts)[1..] == parts;
  }

  lemma OneMessage(m: ChatMessage)
    ensures ChatImages([m]) == if m.UserParts? then PartImages(m.parts) else []
  {
    assert [m][1..] == [];
  }

  lemma FlushedImages(waiting: seq<MediaBlock>)
    ensures ChatImages(Flush(waiting)) == waiting
  {
    if waiting != [] {
      OneMessage(ToolImageChat(waiting));
      TextFirst(IMAGES_ATTACHED, ImageParts(waiting));
      PartsOfImages(waiting);
    }
  }

  lemma UserImages(blocks: seq<MediaBlock>)
    ensures ChatImages([UserChat(blocks)]) == ImagesOf(blocks)
  {
    var text, images := MediaText(blocks), ImagesOf(blocks);
    OneMessage(UserChat(blocks));
    PartsOfImages(images);
    TextFirst(text, ImageParts(images));
    assert [] + ImageParts(images) == ImageParts(images);
  }

  /** No image is lost, doubled or moved past another, tool images included. */
  lemma {:induction false} ImagesConserved(portable: Portable, waiting: seq<MediaBlock>, ms: seq<AgentMessage>)
    ensures ChatImages(Converted(portable, waiting, ms)) == waiting + ImagesShown(ms)
    decreases |ms|
  {
    hide ImagesOf, ChatImages, UserChat, Flush, AssistantText, MediaText;
    FlushedImages(waiting);
    if ms != [] {
      var m := ms[0];
      if m.ToolResultMessage? {
        ImagesConserved(portable, waiting + ImagesOf(m.content), ms[1..]);
        ChatImagesConcat([ResultChat(portable, m)], Converted(portable, waiting + ImagesOf(m.content), ms[1..]));
        OneMessage(ResultChat(portable, m));
      } else {
        ImagesConserved(portable, [], ms[1..]);
        ChatImagesConcat(Flush(waiting) + [PlainChat(portable, m)], Converted(portable, [], ms[1..]));
        ChatImagesConcat(Flush(waiting), [PlainChat(portable, m)]);
        OneMessage(PlainChat(portable, m));
        if m.UserMessage? { UserImages(m.userContent); }
      }
    }
  }
}
