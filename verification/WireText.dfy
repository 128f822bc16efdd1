/** What a provider is told on the wire: every message of a history once, in order, with
    its text, and its calls with their names and arguments. */
module WireText {
  import opened Messages
  import opened ToolHistory
  import opened Wire

  // ------------------------------------------------------------ text is joined

  lemma {:induction false} MediaTextJoins(a: seq<MediaBlock>, b: seq<MediaBlock>)
    ensures MediaText(a + b) == MediaText(a) + MediaText(b)
  {
    if a == [] {
      assert a + b == b;
    } else {
      assert (a + b)[1..] == a[1..] + b;
      MediaTextJoins(a[1..], b);
    }
  }

  lemma {:induction false} AssistantTextJoins(a: seq<AssistantBlock>, b: seq<AssistantBlock>)
    ensures AssistantText(a + b) == AssistantText(a) + AssistantText(b)
  {
    if a == [] {
      assert a + b == b;
    } else {
      assert (a + b)[1..] == a[1..] + b;
      AssistantTextJoins(a[1..], b);
    }
  }

  /** With this the text of any blocks is that of their text blocks, joined in order. */
  lemma OneBlock(m: MediaBlock, a: AssistantBlock)
    ensures MediaText([]) == "" && MediaText([m]) == if m.TextBlock? then m.text else ""
    ensures AssistantText([]) == "" && AssistantText([a]) == if a.Text? then a.text else ""
  {
    assert [m][1..] == [] && [a][1..] == [];
  }

  // --------------------------------------------------------- one message shown

  function PartsText(parts: seq<ChatPart>): string {
    if parts == [] then "" else (if parts[0].TextPart? then parts[0].text else "") + PartsText(parts[1..])
  }

  lemma {:induction false} ImagesHaveNoText(images: seq<MediaBlock>)
    ensures PartsText(ImageParts(images)) == ""
  {
    if images != [] {
      assert ImageParts(images)[1..] == ImageParts(images[1..]);
      ImagesHaveNoText(images[1..]);
    }
  }

  lemma TextInFront(text: string, images: seq<MediaBlock>)
    ensures PartsText([TextPart(text)] + ImageParts(images)) == text
  {
    ImagesHaveNoText(images);
    assert ([TextPart(text)] + ImageParts(images))[1..] == ImageParts(images);
  }

  /** A chat message from the user with this text. */
  ghost predicate SaysAsUser(c: ChatMessage, text: string) {
    (c.UserText? && c.text == text) || (c.UserParts? && PartsText(c.parts) == text)
  }

  ghost predicate SameCalls(portable: Portable, shown: seq<ChatCall>, calls: seq<ToolCall>) {
    && |shown| == |calls|
    && forall i :: 0 <= i < |calls| ==>
         shown[i].id == portable(calls[i].id) && shown[i].name == calls[i].name
           && shown[i].arguments == calls[i].arguments
  }

  /** A message and the chat message that shows it. */
  ghost predicate Shown(portable: Portable, m: AgentMessage, c: ChatMessage) {
    match m
    case UserMessage(content) => SaysAsUser(c, MediaText(content))
    case CustomMessage(_, content) => SaysAsUser(c, MediaText(content))
    case AssistantMessage(blocks, _, _) =>
      c.AssistantChat? && c.text == AssistantText(blocks) && SameCalls(portable, c.calls, CallsOf(m))
    case ToolResultMessage(id, _, content, _, _) =>
      && c.ToolChat? && c.toolCallId == portable(id)
      && c.text == if MediaText(content) != "" then MediaText(content)
                   else if exists b :: b in content && b.ImageBlock? then "(see attached image)"
                   else "(no tool output)"
  }

  lemma {:induction false} HasImages(blocks: seq<MediaBlock>)
    ensures ImagesOf(blocks) != [] <==> exists b :: b in blocks && b.ImageBlock?
  {
    if blocks != [] {
      HasImages(blocks[1..]);
      assert blocks == [blocks[0]] + blocks[1..];
    }
  }

  lemma ResultShown(portable: Portable, m: AgentMessage)
    requires m.ToolResultMessage?
    ensures Shown(portable, m, ResultChat(portable, m))
  {
    HasImages(m.content);
  }

  lemma PlainShown(portable: Portable, m: AgentMessage)
    requires !m.ToolResultMessage?
    ensures Shown(portable, m, PlainChat(portable, m))
  {
    hide MediaText, AssistantText, ImagesOf;
    if m.UserMessage? {
      var images := ImagesOf(m.userContent);
      TextInFront(MediaText(m.userContent), images);
      ImagesHaveNoText(images);
      assert [] + ImageParts(images) == ImageParts(images);
    }
  }

  // ------------------------------------------------------------ a whole history

  /** A message that carries the images of tool results, and no other text than that. */
  ghost predicate CarriesToolImages(c: ChatMessage) {
    && c.UserParts? && |c.parts| >= 2 && c.parts[0] == TextPart(IMAGES_ATTACHED)
    && forall i :: 1 <= i < |c.parts| ==> c.parts[i].ImagePart?
  }

  /** Where each message of the history is shown: in order, each at its own place, and at
      every other place tool images are carried. */
  ghost predicate ShownAt(portable: Portable, ms: seq<AgentMessage>, out: seq<ChatMessage>, at: seq<nat>) {
    && |at| == |ms|
    && (forall i :: 0 <= i < |ms| ==> at[i] < |out| && Shown(portable, ms[i], out[at[i]]))
    && (forall i, j :: 0 <= i < j < |ms| ==> at[i] < at[j])
    && (forall q: nat :: q < |out| && q !in at ==> CarriesToolImages(out[q]))
  }

  lemma FlushCarries(waiting: seq<MediaBlock>)
    ensures |Flush(waiting)| <= 1
    ensures forall c :: c in Flush(waiting) ==> CarriesToolImages(c)
  {
  }

  lemma ShownInFront(portable: Portable, m: AgentMessage, ms: seq<AgentMessage>, first: seq<ChatMessage>,
                     c: ChatMessage, out: seq<ChatMessage>, at: seq<nat>)
    returns (all: seq<nat>)
    requires ShownAt(portable, ms, out, at) && Shown(portable, m, c) && forall x :: x in first ==> CarriesToolImages(x)
    ensures ShownAt(portable, [m] + ms, (first + [c]) + out, all)
  {
    hide Shown, CarriesToolImages;
    var n := |first| + 1;
    var shown, messages := (first + [c]) + out, [m] + ms;
    all := [|first|] + seq(|at|, i requires 0 <= i < |at| => at[i] + n);
    forall i | 0 <= i < |messages| ensures all[i] < |shown| && Shown(portable, messages[i], shown[all[i]]) {
      if i > 0 { assert all[i] == at[i - 1] + n && shown[all[i]] == out[at[i - 1]] && messages[i] == ms[i - 1]; }
    }
    forall q: nat | q < |shown| && q !in all ensures CarriesToolImages(shown[q]) {
      if q < |first| {
        assert shown[q] == first[q];
      } else {
        assert all[0] == |first|;
        NotInFront(at, n, all, q);
        assert shown[q] == out[q - n];
      }
    }
  }

  lemma NotInFront(at: seq<nat>, n: nat, all: seq<nat>, q: nat)
    requires n <= q && |all| == |at| + 1 && all[0] == n - 1 && q !in all
    requires forall i :: 0 <= i < |at| ==> all[i + 1] == at[i] + n
    ensures q - n !in at
  {
    forall i | 0 <= i < |at| ensures at[i] != q - n { assert all[i + 1] in all; }
  }

  /** Every message of any history is shown once, in order, with its text and calls; and
      nothing else is said but that images of tool results are attached. */
  lemma {:induction false} HistoryShown(portable: Portable, waiting: seq<MediaBlock>, ms: seq<AgentMessage>)
    returns (at: seq<nat>)
    ensures ShownAt(portable, ms, Converted(portable, waiting, ms), at)
    decreases |ms|
  {
    hide Shown, CarriesToolImages, ResultChat, PlainChat, ImagesOf, Flush;
    FlushCarries(waiting);
    if ms == [] {
      at := [];
    } else {
      var m, rest := ms[0], ms[1..];
      assert ms == [m] + rest;
      if m.ToolResultMessage? {
        var more := waiting + ImagesOf(m.content);
        at := HistoryShown(portable, more, rest);
        ResultShown(portable, m);
        at := ShownInFront(portable, m, rest, [], ResultChat(portable, m), Converted(portable, more, rest), at);
        assert ([] + [ResultChat(portable, m)]) == [ResultChat(portable, m)];
      } else {
        at := HistoryShown(portable, [], rest);
        PlainShown(portable, m);
        at := ShownInFront(portable, m, rest, Flush(waiting), PlainChat(portable, m), Converted(portable, [], rest),
                           at);
      }
    }
  }
}
