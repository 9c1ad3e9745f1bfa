// Stored messages and their translation to and from conversation items
// (internal/v2/agent/model_adapter.go, internal/v2/agent/compaction.go).
module ModelAdapter {
  import opened Basics
  import opened Text
  import opened Transcript

  datatype Message = Message(
    sessionId: string,
    turnId: string,
    role: string,
    content: string,
    toolCallId: string,
    position: int)

  const TOOL_CALL_PREFIX := "__tool_call_json__:"
  const THINKING_PREFIX := "__thinking_json__:"
  const BOUNDARY_PREFIX := "__compact_boundary__:"
  const SUMMARY_PREFIX := "__compact_summary__:"

  /** JSON encoding of (name, args) and of (thinking, signature); decoding may fail. */
  datatype Codec = Codec(
    encodeCall: (string, string) -> string,
    decodeCall: string -> Option<(string, string)>,
    encodeThinking: (string, string) -> string,
    decodeThinking: string -> Option<(string, string)>)
  {
    /** What was encoded decodes to itself. */
    ghost predicate Lawful() {
      && (forall name, args :: decodeCall(encodeCall(name, args)) == Some((name, args)))
      && (forall thinking, signature :: decodeThinking(encodeThinking(thinking, signature)) == Some((thinking, signature)))
    }
  }

  predicate IsCompactBoundary(msg: Message) {
    msg.role == "system" && HasPrefix(msg.content, BOUNDARY_PREFIX)
  }

  predicate IsCompactSummary(msg: Message) {
    msg.role == "system" && HasPrefix(msg.content, SUMMARY_PREFIX)
  }

  function CompactSummaryContent(msg: Message): string {
    TrimSpace(TrimPrefix(msg.content, SUMMARY_PREFIX))
  }

  function DecodeThinkingBlock(codec: Codec, msg: Message): Option<(string, string)> {
    if HasPrefix(msg.content, THINKING_PREFIX) then codec.decodeThinking(TrimPrefix(msg.content, THINKING_PREFIX)) else None
  }

  function DecodeToolCall(codec: Codec, msg: Message): Option<(string, string)> {
    if IsBlank(msg.toolCallId) || !HasPrefix(msg.content, TOOL_CALL_PREFIX) then None
    else
      var call := codec.decodeCall(TrimPrefix(msg.content, TOOL_CALL_PREFIX));
      if call.Some? && IsBlank(call.value.0) then None else call
  }

  /** The item a stored message reads back as, if any. */
  function ToItem(codec: Codec, msg: Message): Option<Item> {
    if msg.role == "system" then
      if IsCompactSummary(msg) then Some(UserMessage(CompactSummaryContent(msg), [])) else None
    else if msg.role == "user" then Some(UserMessage(msg.content, []))
    else if msg.role == "assistant" then
      var block := DecodeThinkingBlock(codec, msg);
      var call := DecodeToolCall(codec, msg);
      if block.Some? then Some(AssistantThinking(block.value.0, block.value.1))
      else if call.Some? then Some(ToolCall(msg.toolCallId, call.value.0, call.value.1))
      else if IsBlank(msg.content) then None
      else Some(AssistantText(msg.content))
    else if msg.role == "tool" then Some(ToolResult(Some(ToolOutput(msg.toolCallId, msg.content, false))))
    else None
  }

  function ItemsOf(codec: Codec, msgs: seq<Message>): seq<Item> {
    if msgs == [] then []
    else ItemsOf(codec, msgs[..|msgs| - 1]) + Listed(ToItem(codec, msgs[|msgs| - 1]))
  }

  method ToModelMessages(codec: Codec, msgs: seq<Message>) returns (out: seq<Item>)
    ensures out == ItemsOf(codec, msgs)
  {
    out := [];
    for i := 0 to |msgs|
      invariant out == ItemsOf(codec, msgs[..i])
    {
      assert msgs[..i + 1][..i] == msgs[..i];
      out := out + Listed(ToItem(codec, msgs[i]));
    }
    assert msgs[..|msgs|] == msgs;
  }

  /** The message an assistant item is stored as, if any. */
  function FromItem(codec: Codec, item: Item, turnId: string): Option<Message> {
    match item
    case AssistantText(text) =>
      if IsBlank(text) then None else Some(Message("", turnId, "assistant", text, "", 0))
    case AssistantThinking(text, signature) =>
      if IsBlank(text) && IsBlank(signature) then None
      else Some(Message("", turnId, "assistant", THINKING_PREFIX + codec.encodeThinking(text, signature), "", 0))
    case ToolCall(id, name, args) =>
      Some(Message("", turnId, "assistant", TOOL_CALL_PREFIX + codec.encodeCall(name, args), id, 0))
    case _ => None
  }

  function MessagesOf(codec: Codec, items: seq<Item>, turnId: string): seq<Message> {
    if items == [] then []
    else MessagesOf(codec, items[..|items| - 1], turnId) + Listed(FromItem(codec, items[|items| - 1], turnId))
  }

  method FromModelItems(codec: Codec, items: seq<Item>, turnId: string) returns (out: seq<Message>)
    ensures out == MessagesOf(codec, items, turnId)
  {
    out := [];
    for i := 0 to |items|
      invariant out == MessagesOf(codec, items[..i], turnId)
    {
      assert items[..i + 1][..i] == items[..i];
      out := out + Listed(FromItem(codec, items[i], turnId));
    }
    assert items[..|items|] == items;
  }

  // -------- reading back what was stored --------

  /** Text that would itself be read as a thinking block. */
  predicate LooksLikeThinking(codec: Codec, text: string) {
    HasPrefix(text, THINKING_PREFIX) && codec.decodeThinking(TrimPrefix(text, THINKING_PREFIX)).Some?
  }

  /** What survives storing and reading: blank texts and thoughts are dropped, nameless calls become text. */
  function ReadBack(codec: Codec, item: Item): Option<Item> {
    match item
    case AssistantText(text) =>
      if IsBlank(text) then None
      else if LooksLikeThinking(codec, text) then
        var block := codec.decodeThinking(TrimPrefix(text, THINKING_PREFIX)).value;
        Some(AssistantThinking(block.0, block.1))
      else Some(item)
    case AssistantThinking(text, signature) => if IsBlank(text) && IsBlank(signature) then None else Some(item)
    case ToolCall(id, name, args) =>
      if IsBlank(id) || IsBlank(name) then Some(AssistantText(TOOL_CALL_PREFIX + codec.encodeCall(name, args))) else Some(item)
    case _ => None
  }

  function ReadBackAll(codec: Codec, items: seq<Item>): seq<Item> {
    if items == [] then []
    else ReadBackAll(codec, items[..|items| - 1]) + Listed(ReadBack(codec, items[|items| - 1]))
  }

  lemma ItemReadsBack(codec: Codec, item: Item, turnId: string)
    requires codec.Lawful()
    ensures ReadBack(codec, item) ==
              if FromItem(codec, item, turnId).None? then None else ToItem(codec, FromItem(codec, item, turnId).value)
  {
    assert !IsSpace('_');
    hide IsSpace;
    match item
    case AssistantThinking(text, signature) =>
      PrefixOfConcat(THINKING_PREFIX, codec.encodeThinking(text, signature));
    case ToolCall(id, name, args) =>
      var content := TOOL_CALL_PREFIX + codec.encodeCall(name, args);
      PrefixOfConcat(TOOL_CALL_PREFIX, codec.encodeCall(name, args));
      assert content[3] == 'o' && THINKING_PREFIX[3] == 'h';
      assert content[0] == '_';
    case AssistantText(text) =>
    case _ =>
  }

  lemma {:induction false} ItemsConcat(codec: Codec, a: seq<Message>, b: seq<Message>)
    ensures ItemsOf(codec, a + b) == ItemsOf(codec, a) + ItemsOf(codec, b)
  {
    hide ToItem;
    if b == [] {
      assert a + b == a;
    } else {
      ItemsConcat(codec, a, b[..|b| - 1]);
      assert (a + b)[..|a + b| - 1] == a + b[..|b| - 1];
    }
  }

  /** The adapter's round trip, for any list of assistant items. */
  lemma ItemsReadBack(codec: Codec, items: seq<Item>, turnId: string)
    requires codec.Lawful()
    ensures ItemsOf(codec, MessagesOf(codec, items, turnId)) == ReadBackAll(codec, items)
  {
    hide ToItem, FromItem, ReadBack;
    if items != [] {
      var front, last := items[..|items| - 1], items[|items| - 1];
      ItemsReadBack(codec, front, turnId);
      ItemReadsBack(codec, last, turnId);
      var stored := Listed(FromItem(codec, last, turnId));
      ItemsConcat(codec, MessagesOf(codec, front, turnId), stored);
      assert stored != [] ==> stored[..0] == [] && ItemsOf(codec, stored) == [] + Listed(ToItem(codec, stored[0]));
    }
  }

  /** An assistant item reads back unchanged exactly when it is not blank, not disguised and not nameless. */
  lemma ReadsBackUnchanged(codec: Codec, item: Item, turnId: string)
    requires codec.Lawful() && (item.AssistantText? || item.AssistantThinking? || item.ToolCall?)
    ensures ItemsOf(codec, MessagesOf(codec, [item], turnId)) == [item] <==>
              match item
              case AssistantText(text) => !IsBlank(text) && !LooksLikeThinking(codec, text)
              case AssistantThinking(text, signature) => !IsBlank(text) || !IsBlank(signature)
              case _ => !IsBlank(item.id) && !IsBlank(item.name)
  {
    hide IsSpace, ItemsOf, MessagesOf, TrimSpace;
    ItemsReadBack(codec, [item], turnId);
    assert [item][..0] == [];
    assert ReadBackAll(codec, [item]) == Listed(ReadBack(codec, item));
  }

  /** Fields that the adapter does not look at. */
  predicate SameForModel(a: Message, b: Message) {
    a.role == b.role && a.content == b.content && a.toolCallId == b.toolCallId
  }

  lemma ItemIgnoresPlacing(codec: Codec, a: Message, b: Message)
    requires SameForModel(a, b)
    ensures ToItem(codec, a) == ToItem(codec, b)
  {
    hide TrimSpace, IsSpace;
  }

  lemma ItemsIgnorePlacing(codec: Codec, a: seq<Message>, b: seq<Message>)
    requires |a| == |b| && forall i :: 0 <= i < |a| ==> SameForModel(a[i], b[i])
    ensures ItemsOf(codec, a) == ItemsOf(codec, b)
  {
    hide ToItem;
    if a != [] {
      ItemsIgnorePlacing(codec, a[..|a| - 1], b[..|b| - 1]);
      ItemIgnoresPlacing(codec, a[|a| - 1], b[|b| - 1]);
    }
  }

  // -------- what users and tools said --------

  function UserTexts(items: seq<Item>): seq<string> {
    if items == [] then []
    else UserTexts(items[..|items| - 1]) + if items[|items| - 1].UserMessage? then [items[|items| - 1].text] else []
  }

  /** A user's content, or what a summary says behind its prefix. */
  function UserContents(msgs: seq<Message>): seq<string> {
    if msgs == [] then []
    else
      var msg := msgs[|msgs| - 1];
      UserContents(msgs[..|msgs| - 1])
      + if msg.role == "user" then [msg.content]
        else if msg.role == "system" && HasPrefix(msg.content, SUMMARY_PREFIX) then [TrimSpace(msg.content[|SUMMARY_PREFIX|..])]
        else []
  }

  function ToolOutputs(items: seq<Item>): seq<Option<ToolOutput>> {
    if items == [] then []
    else ToolOutputs(items[..|items| - 1]) + if items[|items| - 1].ToolResult? then [items[|items| - 1].result] else []
  }

  function ToolContents(msgs: seq<Message>): seq<Option<ToolOutput>> {
    if msgs == [] then []
    else
      var msg := msgs[|msgs| - 1];
      ToolContents(msgs[..|msgs| - 1]) + if msg.role == "tool" then [Some(ToolOutput(msg.toolCallId, msg.content, false))] else []
  }

  lemma OneMessageSays(codec: Codec, msg: Message)
    ensures var item := ToItem(codec, msg);
            && (msg.role == "user" ==> item == Some(UserMessage(msg.content, [])))
            && (msg.role == "system" && HasPrefix(msg.content, SUMMARY_PREFIX)
                ==> item == Some(UserMessage(TrimSpace(msg.content[|SUMMARY_PREFIX|..]), [])))
            && (msg.role == "tool" ==> item == Some(ToolResult(Some(ToolOutput(msg.toolCallId, msg.content, false)))))
            && (item.Some? && item.value.UserMessage? ==> msg.role == "user" || (msg.role == "system" && HasPrefix(msg.content, SUMMARY_PREFIX)))
            && (item.Some? && item.value.ToolResult? ==> msg.role == "tool")
  {
    hide TrimSpace, DecodeToolCall, DecodeThinkingBlock, IsBlank;
  }

  lemma ItemsAppend(items: seq<Item>, o: Option<Item>)
    ensures UserTexts(items + Listed(o)) == UserTexts(items) + if o.Some? && o.value.UserMessage? then [o.value.text] else []
    ensures ToolOutputs(items + Listed(o)) == ToolOutputs(items) + if o.Some? && o.value.ToolResult? then [o.value.result] else []
  {
    if o.Some? {
      assert (items + [o.value])[..|items|] == items;
    } else {
      assert items + [] == items;
    }
  }

  /** Reading the stored messages gives every user's message, every summary and every tool's result, in order, and no other. */
  lemma {:induction false} UsersAndToolsAreRead(codec: Codec, msgs: seq<Message>)
    ensures UserTexts(ItemsOf(codec, msgs)) == UserContents(msgs) && ToolOutputs(ItemsOf(codec, msgs)) == ToolContents(msgs)
  {
    hide ToItem, TrimSpace, HasPrefix, UserTexts, ToolOutputs;
    if msgs == [] {
      NothingReads();
    } else {
      var front, msg := msgs[..|msgs| - 1], msgs[|msgs| - 1];
      UsersAndToolsAreRead(codec, front);
      OneMessageSays(codec, msg);
      ItemsAppend(ItemsOf(codec, front), ToItem(codec, msg));
    }
  }

  lemma NothingReads()
    ensures UserTexts([]) == [] && ToolOutputs([]) == []
  {
  }
}
