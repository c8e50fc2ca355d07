/** The render plan the chat component computes from a snapshot
    (messages, status): per message an optional source list and one block per
    part, and a loading indicator for the whole conversation. Everything here
    is a pure function of the snapshot. */
module RenderPlan {
  import opened ChatTypes

  /** Which visual block a part's `type` selects. */
  datatype PartKind = TextKind | ReasoningKind | ToolKind | SkipKind

  /** The two controls attached to a qualifying text part: Retry asks the
      session to regenerate, Copy writes `text` to the clipboard. */
  datatype MessageAction = Retry | Copy(text: string)

  /** What a tool block shows below its input once output is available. */
  datatype ToolOutputView = ToolOutputView(errorText: Option<string>, output: Option<Json>)

  datatype Block =
    | TextBlock(from: Role, text: string, actions: seq<MessageAction>)
    | ReasoningBlock(text: string, isStreaming: bool)
    | ToolBlock(toolType: string, state: ToolState, input: Json, output: Option<ToolOutputView>)

  /** One entry of the source disclosure; the url is both link and title. */
  datatype SourceLink = SourceLink(href: string, title: string)

  /** The source disclosure: the trigger's count and the listed links. */
  datatype SourcesView = SourcesView(count: nat, links: seq<SourceLink>)

  /** `blocks[i]` is what part `i` renders to; `None` renders nothing. */
  datatype MessageView = MessageView(id: string, sources: Option<SourcesView>, blocks: seq<Option<Block>>)

  datatype ConversationView = ConversationView(messages: seq<MessageView>, loader: bool)

  // ---------------------------------------------------------------------
  // Part dispatch: exact matches for text and reasoning, a prefix wildcard
  // for the open family of tool parts, and nothing for every other type.

  function Classify(tag: string): (k: PartKind)
    ensures k == TextKind <==> tag == TextTag
    ensures k == ReasoningKind <==> tag == ReasoningTag
    ensures k == ToolKind <==> ToolPrefix <= tag
    ensures k == SkipKind <==> tag != TextTag && tag != ReasoningTag && !(ToolPrefix <= tag)
  {
    assert ReasoningTag[0] != ToolPrefix[0];
    if tag == TextTag then TextKind
    else if tag == ReasoningTag then ReasoningKind
    else if ToolPrefix <= tag then ToolKind
    else SkipKind
  }

  /** Every tool name, however it is spelled, selects a tool block. */
  lemma ClassifyAnyToolName(name: string)
    ensures Classify(ToolPrefix + name) == ToolKind
  {
    assert ToolPrefix <= ToolPrefix + name;
  }

  /** A source-url part renders nothing in the part loop; it only appears in
      the source disclosure. */
  lemma SourceUrlRendersNoBlock()
    ensures Classify(SourceUrlTag) == SkipKind
  {
    assert SourceUrlTag[0] != ToolPrefix[0];
  }

  // ---------------------------------------------------------------------
  // Per-part decisions

  /** The id of the last message, if there is one. */
  function LastId(messages: seq<Message>): Option<string>
  {
    if |messages| == 0 then None else Some(messages[|messages| - 1].id)
  }

  /** A reasoning part streams when the session is streaming, the part is the
      last of its message and the message carries the last message's id. */
  predicate ReasoningStreaming(message: Message, i: int, messages: seq<Message>, status: Status)
  {
    status == Streaming && i == |message.parts| - 1 && LastId(messages) == Some(message.id)
  }

  /** Retry and Copy are offered on a text part of an assistant message whose
      PART index equals the index of the last MESSAGE (written so in the
      component; see the README). */
  predicate ShowActions(message: Message, i: int, messages: seq<Message>)
  {
    message.role == Assistant && i == |messages| - 1
  }

  /** The placement that Retry evidently aims at: `regenerate()` re-requests
      the last assistant turn, so the actions belong to the last message when
      it is the assistant's. Not used by the render plan, which follows
      `ShowActions`; it is stated only to compare the two. */
  predicate ActionsOnLastMessage(message: Message, messages: seq<Message>)
  {
    message.role == Assistant && |messages| > 0 && messages[|messages| - 1] == message
  }

  function RenderPart(message: Message, i: nat, messages: seq<Message>, status: Status): (r: Option<Block>)
    requires i < |message.parts|
    ensures r.None? <==> Classify(message.parts[i].tag) == SkipKind
    ensures (r.Some? && r.value.TextBlock?) <==> message.parts[i].tag == TextTag
    ensures (r.Some? && r.value.ReasoningBlock?) <==> message.parts[i].tag == ReasoningTag
    ensures (r.Some? && r.value.ToolBlock?) <==> ToolPrefix <= message.parts[i].tag
    ensures r.Some? && r.value.TextBlock? ==>
      && r.value.from == message.role
      && r.value.text == message.parts[i].text
      && (r.value.actions != [] <==> ShowActions(message, i, messages))
      && (r.value.actions != [] ==> r.value.actions == [Retry, Copy(message.parts[i].text)])
    ensures r.Some? && r.value.ReasoningBlock? ==>
      && r.value.text == message.parts[i].text
      && (r.value.isStreaming <==> ReasoningStreaming(message, i, messages, status))
    ensures r.Some? && r.value.ToolBlock? ==>
      && r.value.toolType == message.parts[i].tag
      && r.value.state == message.parts[i].state
      && r.value.input == message.parts[i].input
      && (r.value.output.Some? <==> message.parts[i].state == OutputAvailable)
      && (r.value.output.Some? ==>
            r.value.output.value == ToolOutputView(message.parts[i].errorText, message.parts[i].output))
  {
    var part := message.parts[i];
    match Classify(part.tag)
    case TextKind =>
      Some(TextBlock(message.role, part.text,
                     if ShowActions(message, i, messages) then [Retry, Copy(part.text)] else []))
    case ReasoningKind =>
      Some(ReasoningBlock(part.text, ReasoningStreaming(message, i, messages, status)))
    case ToolKind =>
      Some(ToolBlock(part.tag, part.state, part.input,
                     if part.state == OutputAvailable then Some(ToolOutputView(part.errorText, part.output)) else None))
    case SkipKind =>
      None
  }

  // ---------------------------------------------------------------------
  // Source aggregation

  /** The source-url parts of a message, in order, duplicates kept. */
  function SourceUrlParts(parts: seq<Part>): (r: seq<Part>)
    ensures |r| <= |parts|
    ensures forall k :: 0 <= k < |r| ==> r[k].tag == SourceUrlTag && r[k] in parts
  {
    if parts == [] then []
    else (if parts[0].tag == SourceUrlTag then [parts[0]] else []) + SourceUrlParts(parts[1..])
  }

  /** Filtering distributes over concatenation, so the selected parts keep
      their relative order. */
  lemma {:induction false} SourceUrlPartsAppend(a: seq<Part>, b: seq<Part>)
    ensures SourceUrlParts(a + b) == SourceUrlParts(a) + SourceUrlParts(b)
  {
    if a == [] {
      assert a + b == b;
    } else {
      assert (a + b)[1..] == a[1..] + b;
      SourceUrlPartsAppend(a[1..], b);
    }
  }

  /** Every source-url part is kept as often as it occurs, every other part
      is dropped. */
  lemma {:induction false} SourceUrlPartsMultiplicity(parts: seq<Part>, p: Part)
    ensures multiset(SourceUrlParts(parts))[p] == if p.tag == SourceUrlTag then multiset(parts)[p] else 0
  {
    if parts != [] {
      var head := if parts[0].tag == SourceUrlTag then [parts[0]] else [];
      assert SourceUrlParts(parts) == head + SourceUrlParts(parts[1..]);
      assert multiset(SourceUrlParts(parts)) == multiset(head) + multiset(SourceUrlParts(parts[1..]));
      assert parts == [parts[0]] + parts[1..];
      assert multiset(parts) == multiset([parts[0]]) + multiset(parts[1..]);
      SourceUrlPartsMultiplicity(parts[1..], p);
    }
  }

  /** The filter is non-empty exactly when some part is a source-url part. */
  lemma {:induction false} SourceUrlPartsNonEmpty(parts: seq<Part>)
    ensures |SourceUrlParts(parts)| > 0 <==> exists k :: 0 <= k < |parts| && parts[k].tag == SourceUrlTag
  {
    if parts != [] {
      SourceUrlPartsNonEmpty(parts[1..]);
      if parts[0].tag != SourceUrlTag {
        if exists k :: 0 <= k < |parts| && parts[k].tag == SourceUrlTag {
          var k :| 0 <= k < |parts| && parts[k].tag == SourceUrlTag;
          assert parts[1..][k - 1].tag == SourceUrlTag;
        }
      } else {
        assert parts[0].tag == SourceUrlTag;
      }
    }
  }

  function SourceLinks(sourceParts: seq<Part>): (r: seq<SourceLink>)
    ensures |r| == |sourceParts|
    ensures forall k :: 0 <= k < |r| ==> r[k].href == sourceParts[k].url && r[k].title == sourceParts[k].url
  {
    seq(|sourceParts|, k requires 0 <= k < |sourceParts| => SourceLink(sourceParts[k].url, sourceParts[k].url))
  }

  /** The source disclosure of a message: only for assistant messages with at
      least one source-url part; its count is the number of such parts and
      it lists one link per such part, in order. */
  function MessageSources(message: Message): (r: Option<SourcesView>)
    ensures r.Some? <==>
      message.role == Assistant && exists k :: 0 <= k < |message.parts| && message.parts[k].tag == SourceUrlTag
    ensures r.Some? ==>
      && r.value.count == |r.value.links| == |SourceUrlParts(message.parts)|
      && forall k :: 0 <= k < |r.value.links| ==>
           r.value.links[k].href == r.value.links[k].title == SourceUrlParts(message.parts)[k].url
  {
    SourceUrlPartsNonEmpty(message.parts);
    var sourceParts := SourceUrlParts(message.parts);
    if message.role == Assistant && |sourceParts| > 0 then
      Some(SourcesView(|sourceParts|, SourceLinks(sourceParts)))
    else
      None
  }

  // ---------------------------------------------------------------------
  // Composition

  function RenderMessage(message: Message, messages: seq<Message>, status: Status): (r: MessageView)
    ensures r.id == message.id
    ensures r.sources == MessageSources(message)
    ensures |r.blocks| == |message.parts|
    ensures forall i :: 0 <= i < |r.blocks| ==> r.blocks[i] == RenderPart(message, i, messages, status)
  {
    MessageView(message.id, MessageSources(message),
                seq(|message.parts|, i requires 0 <= i < |message.parts| => RenderPart(message, i, messages, status)))
  }

  /** The whole view: messages in order, then the loader exactly while a
      request is submitted and no reply part has arrived. */
  function RenderConversation(messages: seq<Message>, status: Status): (r: ConversationView)
    ensures |r.messages| == |messages|
    ensures forall j :: 0 <= j < |messages| ==> r.messages[j] == RenderMessage(messages[j], messages, status)
    ensures r.loader <==> status == Submitted
  {
    ConversationView(
      seq(|messages|, j requires 0 <= j < |messages| => RenderMessage(messages[j], messages, status)),
      status == Submitted)
  }

  /** The block rendered for part `i` of message `j`. */
  function BlockAt(messages: seq<Message>, status: Status, j: nat, i: nat): Option<Block>
    requires j < |messages| && i < |messages[j].parts|
  {
    RenderConversation(messages, status).messages[j].blocks[i]
  }

  predicate IsStreamingBlock(b: Option<Block>)
  {
    b.Some? && b.value.ReasoningBlock? && b.value.isStreaming
  }

  predicate HasActions(b: Option<Block>)
  {
    b.Some? && b.value.TextBlock? && b.value.actions != []
  }

  // ---------------------------------------------------------------------
  // Properties of the whole view

  /** Nothing is marked streaming unless the session streams; a streaming
      block is the last part of its message, and its message carries the
      last message's id. */
  lemma StreamingBlockIsLastPart(messages: seq<Message>, status: Status, j: nat, i: nat)
    requires j < |messages| && i < |messages[j].parts|
    requires IsStreamingBlock(BlockAt(messages, status, j, i))
    ensures status == Streaming
    ensures i == |messages[j].parts| - 1
    ensures messages[j].id == messages[|messages| - 1].id
  {
    assert BlockAt(messages, status, j, i) == RenderPart(messages[j], i, messages, status);
  }

  /** When ids are unique, a streaming block belongs to the last message. */
  lemma StreamingBlockIsTail(messages: seq<Message>, status: Status, j: nat, i: nat)
    requires UniqueIds(messages)
    requires j < |messages| && i < |messages[j].parts|
    requires IsStreamingBlock(BlockAt(messages, status, j, i))
    ensures j == |messages| - 1
  {
    StreamingBlockIsLastPart(messages, status, j, i);
  }

  /** With unique ids at most one block of the whole view is streaming. */
  lemma AtMostOneStreamingBlock(messages: seq<Message>, status: Status, j1: nat, i1: nat, j2: nat, i2: nat)
    requires UniqueIds(messages)
    requires j1 < |messages| && i1 < |messages[j1].parts|
    requires j2 < |messages| && i2 < |messages[j2].parts|
    requires IsStreamingBlock(BlockAt(messages, status, j1, i1))
    requires IsStreamingBlock(BlockAt(messages, status, j2, i2))
    ensures j1 == j2 && i1 == i2
  {
    StreamingBlockIsLastPart(messages, status, j1, i1);
    StreamingBlockIsLastPart(messages, status, j2, i2);
    StreamingBlockIsTail(messages, status, j1, i1);
    StreamingBlockIsTail(messages, status, j2, i2);
  }

  /** While streaming, a reasoning part at the tail of the last message is
      marked streaming. */
  lemma StreamingTailIsMarked(messages: seq<Message>)
    requires |messages| > 0 && |messages[|messages| - 1].parts| > 0
    requires messages[|messages| - 1].parts[|messages[|messages| - 1].parts| - 1].tag == ReasoningTag
    ensures IsStreamingBlock(BlockAt(messages, Streaming, |messages| - 1, |messages[|messages| - 1].parts| - 1))
  {
  }

  /** Without unique ids the flag is not unique: two messages sharing the last
      id both get a streaming reasoning block. */
  lemma DuplicateIdsGiveTwoStreamingBlocks()
    ensures var messages := [Message("m", Assistant, [ReasoningPart("a")]),
                             Message("m", Assistant, [ReasoningPart("b")])];
            IsStreamingBlock(BlockAt(messages, Streaming, 0, 0))
            && IsStreamingBlock(BlockAt(messages, Streaming, 1, 0))
  {
    var messages := [Message("m", Assistant, [ReasoningPart("a")]),
                     Message("m", Assistant, [ReasoningPart("b")])];
    assert LastId(messages) == Some("m");
    assert RenderPart(messages[0], 0, messages, Streaming) == Some(ReasoningBlock("a", true));
    assert RenderPart(messages[1], 0, messages, Streaming) == Some(ReasoningBlock("b", true));
  }

  /** Retry and Copy sit exactly on the text parts of assistant messages whose
      part index is the last message index, and Copy targets that part's text. */
  lemma ActionsAsWritten(messages: seq<Message>, status: Status, j: nat, i: nat)
    requires j < |messages| && i < |messages[j].parts|
    ensures HasActions(BlockAt(messages, status, j, i)) <==>
      messages[j].parts[i].tag == TextTag && messages[j].role == Assistant && i == |messages| - 1
    ensures HasActions(BlockAt(messages, status, j, i)) ==>
      BlockAt(messages, status, j, i).value.actions == [Retry, Copy(messages[j].parts[i].text)]
  {
    assert BlockAt(messages, status, j, i) == RenderPart(messages[j], i, messages, status);
  }

  /** A two-message conversation whose assistant reply cites one url twice:
      both citations are listed. The reply's text part (index 2 in a
      two-message conversation) gets no Retry/Copy as the component is
      written, although it is the last message's text and the assistant's. */
  lemma ExampleConversation()
    ensures var messages := [Message("1", User, [TextPart("hi")]),
                             Message("2", Assistant, [SourceUrlPart("https://a"), SourceUrlPart("https://a"), TextPart("hello")])];
            var v := RenderConversation(messages, Ready);
            && v.messages[1].sources == Some(SourcesView(2, [SourceLink("https://a", "https://a"), SourceLink("https://a", "https://a")]))
            && v.messages[0].sources == None
            && v.messages[1].blocks == [None, None, Some(TextBlock(Assistant, "hello", []))]
            && !v.loader
            && ActionsOnLastMessage(messages[1], messages)
            && !ShowActions(messages[1], 2, messages)
  {
    var messages := [Message("1", User, [TextPart("hi")]),
                     Message("2", Assistant, [SourceUrlPart("https://a"), SourceUrlPart("https://a"), TextPart("hello")])];
    var parts := messages[1].parts;
    SourceUrlRendersNoBlock();
    assert parts[1..][1..][1..] == [];
    assert SourceUrlParts(parts) == [SourceUrlPart("https://a"), SourceUrlPart("https://a")];
    assert SourceLinks(SourceUrlParts(parts)) == [SourceLink("https://a", "https://a"), SourceLink("https://a", "https://a")];
    assert RenderPart(messages[1], 0, messages, Ready) == None;
    assert RenderPart(messages[1], 1, messages, Ready) == None;
    assert RenderPart(messages[1], 2, messages, Ready) == Some(TextBlock(Assistant, "hello", []));
    assert SourceUrlParts(messages[0].parts) == [];
  }

  /** As written, an earlier assistant message can carry the actions: its text
      part's index happens to equal the last message index, although it is
      not the last message. */
  lemma ActionsOnEarlierMessage()
    ensures var messages := [Message("1", Assistant, [ReasoningPart("r"), TextPart("a")]),
                             Message("2", User, [TextPart("q")])];
            && HasActions(BlockAt(messages, Ready, 0, 1))
            && ShowActions(messages[0], 1, messages)
            && !ActionsOnLastMessage(messages[0], messages)
  {
    var messages := [Message("1", Assistant, [ReasoningPart("r"), TextPart("a")]),
                     Message("2", User, [TextPart("q")])];
    assert RenderPart(messages[0], 1, messages, Ready) == Some(TextBlock(Assistant, "a", [Retry, Copy("a")]));
  }
}
