// Conversation items rendered as messages of alternating roles, with the grouping of their
// blocks and the pairing of tool uses and results (internal/model/provider_anthropic.go).
module AnthropicMessages {
  import opened Basics
  import opened Text
  import opened Transcript

  datatype Role = User | Assistant

  datatype Block =
    | TextBlock(text: string)
    | ImageBlock(mediaType: string, data: string)
    | ThinkingBlock(thinking: string, signature: string)
    | ToolUse(id: string, name: string, input: string)
    | ToolResultBlock(toolUseId: string, content: string, isError: bool)

  datatype RoleMessage = RoleMessage(role: Role, content: seq<Block>)

  function PartBlock(part: ContentPart): seq<Block> {
    match part
    case TextPart(text) => if IsBlank(text) then [] else [TextBlock(text)]
    case ImagePart(mime, data) => if IsBlank(mime) || IsBlank(data) then [] else [ImageBlock(mime, data)]
    case OtherPart => []
  }

  function PartBlocks(parts: seq<ContentPart>): seq<Block> {
    if parts == [] then [] else PartBlocks(parts[..|parts| - 1]) + PartBlock(parts[|parts| - 1])
  }

  function UserBlocks(text: string, parts: seq<ContentPart>): seq<Block> {
    if parts == [] then if IsBlank(text) then [] else [TextBlock(text)] else PartBlocks(parts)
  }

  function RoleOf(item: Item): Role {
    if item.UserMessage? || item.ToolResult? then User else Assistant
  }

  /** The blocks one item stands for. */
  function BlocksOf(item: Item): seq<Block> {
    match item
    case UserMessage(text, parts) => UserBlocks(text, parts)
    case AssistantThinking(text, signature) =>
      if IsBlank(text) && IsBlank(signature) then []
      else [ThinkingBlock(if IsBlank(text) then "(signature only)" else text, signature)]
    case AssistantText(text) => if IsBlank(text) then [] else [TextBlock(text)]
    case ToolCall(id, name, args) => [ToolUse(id, name, args)]
    case ToolResult(result) =>
      if result.None? then [] else [ToolResultBlock(result.value.toolCallId, TrimSpace(result.value.content), result.value.isError)]
    case Summary(content) => if content == "" then [] else [TextBlock(content)]
    case OtherKind => []
  }

  function AppendBlock(out: seq<RoleMessage>, role: Role, block: Block): seq<RoleMessage> {
    if out != [] && out[|out| - 1].role == role then
      out[..|out| - 1] + [RoleMessage(role, out[|out| - 1].content + [block])]
    else out + [RoleMessage(role, [block])]
  }

  function AppendBlocks(out: seq<RoleMessage>, role: Role, blocks: seq<Block>): seq<RoleMessage> {
    if blocks == [] then out
    else AppendBlock(AppendBlocks(out, role, blocks[..|blocks| - 1]), role, blocks[|blocks| - 1])
  }

  function Render(items: seq<Item>): seq<RoleMessage> {
    if items == [] then []
    else AppendBlocks(Render(items[..|items| - 1]), RoleOf(items[|items| - 1]), BlocksOf(items[|items| - 1]))
  }

  method ToAnthropicUserBlocks(text: string, parts: seq<ContentPart>) returns (out: seq<Block>)
    ensures out == UserBlocks(text, parts)
  {
    hide IsBlank;
    if |parts| == 0 {
      if IsBlank(text) {
        return [];
      }
      return [TextBlock(text)];
    }
    out := [];
    for i := 0 to |parts|
      invariant out == PartBlocks(parts[..i])
    {
      assert parts[..i + 1][..i] == parts[..i];
      match parts[i] {
        case TextPart(t) =>
          if !IsBlank(t) {
            out := out + [TextBlock(t)];
          }
        case ImagePart(mime, data) =>
          if !IsBlank(mime) && !IsBlank(data) {
            out := out + [ImageBlock(mime, data)];
          }
        case OtherPart =>
      }
    }
    assert parts[..|parts|] == parts;
  }

  method ToAnthropicMessages(items: seq<Item>) returns (out: seq<RoleMessage>)
    ensures out == Render(items)
  {
    hide BlocksOf, UserBlocks;
    out := [];
    for i := 0 to |items|
      invariant out == Render(items[..i])
    {
      assert items[..i + 1][..i] == items[..i];
      var item := items[i];
      var blocks := BlocksOf(item);
      if item.UserMessage? {
        var user := ToAnthropicUserBlocks(item.text, item.parts);
        UserItemBlocks(item);
        assert blocks == user;
      }
      ghost var before := out;
      for j := 0 to |blocks|
        invariant out == AppendBlocks(before, RoleOf(item), blocks[..j])
      {
        assert blocks[..j + 1][..j] == blocks[..j];
        out := AppendBlock(out, RoleOf(item), blocks[j]);
      }
      assert blocks[..|blocks|] == blocks;
    }
    assert items[..|items|] == items;
  }

  lemma UserItemBlocks(item: Item)
    requires item.UserMessage?
    ensures BlocksOf(item) == UserBlocks(item.text, item.parts)
  {
    hide UserBlocks;
  }

  // -------- alternation and content --------

  /** Roles alternate and no message is empty. */
  ghost predicate Alternates(out: seq<RoleMessage>) {
    && (forall i :: 0 <= i < |out| ==> out[i].content != [])
    && (forall i :: 0 <= i < |out| - 1 ==> out[i].role != out[i + 1].role)
  }

  function Tag(role: Role, blocks: seq<Block>): (t: seq<(Role, Block)>)
    ensures |t| == |blocks| && forall i :: 0 <= i < |t| ==> t[i] == (role, blocks[i])
  {
    seq(|blocks|, i requires 0 <= i < |blocks| => (role, blocks[i]))
  }

  /** The blocks of the messages, each with its message's role. */
  function Flatten(out: seq<RoleMessage>): seq<(Role, Block)> {
    if out == [] then [] else Flatten(out[..|out| - 1]) + Tag(out[|out| - 1].role, out[|out| - 1].content)
  }

  /** The blocks of the items, each with its item's role. */
  function TaggedBlocks(items: seq<Item>): seq<(Role, Block)> {
    if items == [] then []
    else TaggedBlocks(items[..|items| - 1]) + Tag(RoleOf(items[|items| - 1]), BlocksOf(items[|items| - 1]))
  }

  lemma AppendBlockKeeps(out: seq<RoleMessage>, role: Role, block: Block)
    requires Alternates(out)
    ensures Alternates(AppendBlock(out, role, block))
    ensures Flatten(AppendBlock(out, role, block)) == Flatten(out) + [(role, block)]
  {
    var out' := AppendBlock(out, role, block);
    if |out'| == |out| {
      var last := out[|out| - 1].content;
      assert out'[..|out| - 1] == out[..|out| - 1];
      assert Tag(role, last + [block]) == Tag(role, last) + [(role, block)];
    } else {
      assert out'[..|out|] == out;
      assert Tag(role, [block]) == [(role, block)];
    }
  }

  lemma AppendBlocksKeeps(out: seq<RoleMessage>, role: Role, blocks: seq<Block>)
    requires Alternates(out)
    ensures Alternates(AppendBlocks(out, role, blocks))
    ensures Flatten(AppendBlocks(out, role, blocks)) == Flatten(out) + Tag(role, blocks)
  {
    hide AppendBlock, Flatten;
    if blocks != [] {
      var front := blocks[..|blocks| - 1];
      AppendBlocksKeeps(out, role, front);
      AppendBlockKeeps(AppendBlocks(out, role, front), role, blocks[|blocks| - 1]);
      assert Tag(role, blocks) == Tag(role, front) + [(role, blocks[|blocks| - 1])];
    } else {
      assert Tag(role, blocks) == [];
    }
  }

  /** Rendering alternates roles, makes no empty message and keeps every block, in order, under its item's role. */
  lemma {:induction false} RenderedFaithfully(items: seq<Item>)
    ensures Alternates(Render(items))
    ensures Flatten(Render(items)) == TaggedBlocks(items)
  {
    hide BlocksOf, AppendBlocks;
    if items != [] {
      var front, last := items[..|items| - 1], items[|items| - 1];
      RenderedFaithfully(front);
      AppendBlocksKeeps(Render(front), RoleOf(last), BlocksOf(last));
    }
  }

  /** Alternation without empty messages leaves only one way to group the blocks. */
  lemma {:induction false} GroupingIsUnique(a: seq<RoleMessage>, b: seq<RoleMessage>)
    requires Alternates(a) && Alternates(b) && Flatten(a) == Flatten(b)
    ensures a == b
    decreases |a|
  {
    if a == [] || b == [] {
      FlattenNonempty(a);
      FlattenNonempty(b);
    } else {
      var x, y := a[|a| - 1], b[|b| - 1];
      LastTags(a);
      LastTags(b);
      assert Flatten(a)[|Flatten(a)| - 1].0 == x.role && Flatten(b)[|Flatten(b)| - 1].0 == y.role;
      assert x.role == y.role;
      LastLength(a, b);
      var n := |x.content|;
      assert Tag(x.role, x.content) == Flatten(a)[|Flatten(a)| - n..];
      assert Tag(y.role, y.content) == Flatten(b)[|Flatten(b)| - n..];
      forall i | 0 <= i < n ensures x.content[i] == y.content[i] {
        assert Tag(x.role, x.content)[i] == Tag(y.role, y.content)[i];
      }
      assert x.content == y.content;
      assert Flatten(a[..|a| - 1]) == Flatten(a)[..|Flatten(a)| - n];
      GroupingIsUnique(a[..|a| - 1], b[..|b| - 1]);
      assert a == a[..|a| - 1] + [x] && b == b[..|b| - 1] + [y];
    }
  }

  lemma FlattenNonempty(out: seq<RoleMessage>)
    requires Alternates(out)
    ensures Flatten(out) == [] <==> out == []
  {
  }

  /** The last message is the maximal run of its role at the end of the blocks. */
  lemma LastTags(out: seq<RoleMessage>)
    requires Alternates(out) && out != []
    ensures var t, n := Flatten(out), |out[|out| - 1].content|;
            && 0 < n <= |t|
            && (forall i :: |t| - n <= i < |t| ==> t[i].0 == out[|out| - 1].role)
            && (n < |t| ==> t[|t| - n - 1].0 != out[|out| - 1].role)
  {
    if |out| > 1 {
      LastTags(out[..|out| - 1]);
      assert out[|out| - 2].role != out[|out| - 1].role;
    }
  }

  lemma LastLength(a: seq<RoleMessage>, b: seq<RoleMessage>)
    requires Alternates(a) && Alternates(b) && a != [] && b != [] && Flatten(a) == Flatten(b)
    requires a[|a| - 1].role == b[|b| - 1].role
    ensures |a[|a| - 1].content| == |b[|b| - 1].content|
  {
    LastTags(a);
    LastTags(b);
    RunLength(Flatten(a), a[|a| - 1].role, |a[|a| - 1].content|, |b[|b| - 1].content|);
    RunLength(Flatten(a), a[|a| - 1].role, |b[|b| - 1].content|, |a[|a| - 1].content|);
  }

  lemma RunLength(t: seq<(Role, Block)>, role: Role, n: nat, m: nat)
    requires n <= |t| && forall i :: |t| - n <= i < |t| ==> t[i].0 == role
    requires m <= |t| && (m < |t| ==> t[|t| - m - 1].0 != role)
    ensures n <= m
  {
  }

  // -------- tool exchanges --------

  function UseIds(content: seq<Block>): seq<string> {
    if content == [] then []
    else
      var last := content[|content| - 1];
      UseIds(content[..|content| - 1]) + if last.ToolUse? then [last.id] else []
  }

  function ResultIds(content: seq<Block>): seq<string> {
    if content == [] then []
    else
      var last := content[|content| - 1];
      ResultIds(content[..|content| - 1]) + if last.ToolResultBlock? then [last.toolUseId] else []
  }

  /** Each message's tool results answer exactly the tool uses of the message before; the last asks for these. */
  ghost predicate PairedUpTo(out: seq<RoleMessage>, asked: seq<string>) {
    && (out == [] ==> asked == [])
    && (out != [] ==> ResultIds(out[0].content) == [] && UseIds(out[|out| - 1].content) == asked)
    && (forall i :: 0 <= i < |out| - 1 ==> UseIds(out[i].content) == ResultIds(out[i + 1].content))
  }

  /**
   Each message's tool results answer exactly the tool uses of the message
   before it, in order; the first has nothing to answer and the last asks nothing.
   */
  ghost predicate Paired(out: seq<RoleMessage>) {
    PairedUpTo(out, [])
  }

  datatype Segment = Plain(item: Item) | Exchange(calls: seq<Item>, results: seq<Item>)

  /** A content item, or some calls followed by their results in the same order. */
  ghost predicate SegmentOk(s: Segment) {
    match s
    case Plain(item) => item.IsContent()
    case Exchange(calls, results) =>
      && calls != [] && |results| == |calls|
      && (forall i :: 0 <= i < |calls| ==>
            calls[i].ToolCall? && results[i].ToolResult? && results[i].result.Some?
            && results[i].result.value.toolCallId == calls[i].id)
  }

  function SegmentItems(s: Segment): seq<Item> {
    match s
    case Plain(item) => [item]
    case Exchange(calls, results) => calls + results
  }

  function AllItems(segments: seq<Segment>): seq<Item> {
    if segments == [] then [] else AllItems(segments[..|segments| - 1]) + SegmentItems(segments[|segments| - 1])
  }

  ghost predicate SegmentsOk(segments: seq<Segment>) {
    forall i :: 0 <= i < |segments| ==> SegmentOk(segments[i])
  }

  /** The shape of transcripts that the agent loop stores. */
  ghost predicate AgentShaped(items: seq<Item>) {
    exists segments :: SegmentsOk(segments) && AllItems(segments) == items
  }

  lemma IdsConcat(a: seq<Block>, b: seq<Block>)
    ensures UseIds(a + b) == UseIds(a) + UseIds(b)
    ensures ResultIds(a + b) == ResultIds(a) + ResultIds(b)
  {
    if b == [] {
      assert a + b == a;
    } else {
      IdsConcat(a, b[..|b| - 1]);
      assert (a + b)[..|a + b| - 1] == a + b[..|b| - 1];
    }
  }

  /** Appending blocks of one role extends the last message or adds one message. */
  function Extend(out: seq<RoleMessage>, role: Role, blocks: seq<Block>): seq<RoleMessage> {
    if blocks == [] then out
    else if out != [] && out[|out| - 1].role == role then
      out[..|out| - 1] + [RoleMessage(role, out[|out| - 1].content + blocks)]
    else out + [RoleMessage(role, blocks)]
  }

  lemma ExtendByOne(out: seq<RoleMessage>, role: Role, blocks: seq<Block>, last: Block)
    ensures AppendBlock(Extend(out, role, blocks), role, last) == Extend(out, role, blocks + [last])
  {
    var before := Extend(out, role, blocks);
    if blocks != [] {
      assert before[..|before| - 1] == if out != [] && out[|out| - 1].role == role then out[..|out| - 1] else out;
      if out != [] && out[|out| - 1].role == role {
        assert out[|out| - 1].content + (blocks + [last]) == (out[|out| - 1].content + blocks) + [last];
      }
    } else {
      assert blocks + [last] == [last];
    }
  }

  lemma {:induction false} AppendBlocksAtOnce(out: seq<RoleMessage>, role: Role, blocks: seq<Block>)
    ensures AppendBlocks(out, role, blocks) == Extend(out, role, blocks)
  {
    hide AppendBlock;
    if blocks != [] {
      var front, last := blocks[..|blocks| - 1], blocks[|blocks| - 1];
      AppendBlocksAtOnce(out, role, front);
      ExtendByOne(out, role, front, last);
      assert blocks == front + [last];
    }
  }

  function BlocksOfAll(items: seq<Item>): seq<Block> {
    if items == [] then [] else BlocksOfAll(items[..|items| - 1]) + BlocksOf(items[|items| - 1])
  }

  lemma RenderAppend(a: seq<Item>, item: Item)
    ensures Render(a + [item]) == AppendBlocks(Render(a), RoleOf(item), BlocksOf(item))
  {
    hide BlocksOf, AppendBlocks;
    assert (a + [item])[..|a|] == a;
  }

  lemma AppendBlocksConcat(out: seq<RoleMessage>, role: Role, a: seq<Block>, b: seq<Block>)
    ensures AppendBlocks(out, role, a + b) == AppendBlocks(AppendBlocks(out, role, a), role, b)
  {
    hide AppendBlock;
    if b == [] {
      assert a + b == a;
    } else {
      AppendBlocksConcat(out, role, a, b[..|b| - 1]);
      assert (a + b)[..|a + b| - 1] == a + b[..|b| - 1];
    }
  }

  /** Items of one role are rendered as the list of their blocks. */
  lemma RenderSameRole(a: seq<Item>, b: seq<Item>, role: Role)
    requires forall i :: 0 <= i < |b| ==> RoleOf(b[i]) == role
    ensures Render(a + b) == AppendBlocks(Render(a), role, BlocksOfAll(b))
  {
    hide BlocksOf, AppendBlock;
    if b == [] {
      assert a + b == a;
    } else {
      var front, last := b[..|b| - 1], b[|b| - 1];
      RenderSameRole(a, front, role);
      assert a + b == (a + front) + [last];
      RenderAppend(a + front, last);
      AppendBlocksConcat(Render(a), role, BlocksOfAll(front), BlocksOf(last));
    }
  }

  lemma NoIds()
    ensures UseIds([]) == [] && ResultIds([]) == []
  {
  }

  lemma SingleIds(block: Block)
    ensures UseIds([block]) == if block.ToolUse? then [block.id] else []
    ensures ResultIds([block]) == if block.ToolResultBlock? then [block.toolUseId] else []
  {
    assert [block][..0] == [];
  }

  lemma CallBlocks(calls: seq<Item>)
    requires forall i :: 0 <= i < |calls| ==> calls[i].ToolCall?
    ensures var blocks := BlocksOfAll(calls);
            && |blocks| == |calls| && ResultIds(blocks) == [] && |UseIds(blocks)| == |calls|
            && forall i :: 0 <= i < |calls| ==> UseIds(blocks)[i] == calls[i].id
  {
    hide UseIds, ResultIds;
    if calls == [] {
      NoIds();
    } else {
      var front, last := calls[..|calls| - 1], calls[|calls| - 1];
      var block := ToolUse(last.id, last.name, last.args);
      CallBlocks(front);
      SingleIds(block);
      assert BlocksOf(last) == [block];
      hide BlocksOf;
      IdsConcat(BlocksOfAll(front), [block]);
    }
  }

  lemma ResultBlocks(results: seq<Item>)
    requires forall i :: 0 <= i < |results| ==> results[i].ToolResult? && results[i].result.Some?
    ensures var blocks := BlocksOfAll(results);
            && |blocks| == |results| && UseIds(blocks) == [] && |ResultIds(blocks)| == |results|
            && forall i :: 0 <= i < |results| ==> ResultIds(blocks)[i] == results[i].result.value.toolCallId
  {
    hide TrimSpace, UseIds, ResultIds;
    if results == [] {
      NoIds();
    } else {
      var front, last := results[..|results| - 1], results[|results| - 1];
      var block := ToolResultBlock(last.result.value.toolCallId, TrimSpace(last.result.value.content), last.result.value.isError);
      ResultBlocks(front);
      SingleIds(block);
      assert BlocksOf(last) == [block];
      hide BlocksOf;
      IdsConcat(BlocksOfAll(front), [block]);
    }
  }

  lemma PartIds(parts: seq<ContentPart>)
    ensures UseIds(PartBlocks(parts)) == [] && ResultIds(PartBlocks(parts)) == []
  {
    hide IsBlank;
    if parts != [] {
      PartIds(parts[..|parts| - 1]);
      IdsConcat(PartBlocks(parts[..|parts| - 1]), PartBlock(parts[|parts| - 1]));
    }
  }

  lemma ContentIds(item: Item)
    requires item.IsContent()
    ensures UseIds(BlocksOf(item)) == [] && ResultIds(BlocksOf(item)) == []
  {
    hide IsBlank, TrimSpace;
    if item.UserMessage? {
      PartIds(item.parts);
    }
  }

  /** Blocks that answer nothing, put behind messages that ask nothing. */
  lemma ExtendAsks(out: seq<RoleMessage>, role: Role, blocks: seq<Block>)
    requires PairedUpTo(out, []) && ResultIds(blocks) == []
    ensures PairedUpTo(Extend(out, role, blocks), UseIds(blocks))
  {
    hide UseIds, ResultIds;
    if blocks != [] {
      if out != [] {
        IdsConcat(out[|out| - 1].content, blocks);
      }
      var out' := Extend(out, role, blocks);
      forall i | 0 <= i < |out'| - 1 ensures UseIds(out'[i].content) == ResultIds(out'[i + 1].content) {
        assert out'[i] == out[i];
        assert i + 1 < |out| - 1 ==> out'[i + 1] == out[i + 1];
      }
    } else {
      NoIds();
    }
  }

  /** Results put behind the assistant message that asks for them. */
  lemma ExtendAnswers(out: seq<RoleMessage>, asked: seq<string>, blocks: seq<Block>)
    requires PairedUpTo(out, asked) && out != [] && out[|out| - 1].role == Assistant
    requires blocks != [] && ResultIds(blocks) == asked && UseIds(blocks) == []
    ensures PairedUpTo(Extend(out, User, blocks), [])
  {
    hide UseIds, ResultIds;
    var out' := Extend(out, User, blocks);
    forall i | 0 <= i < |out'| - 1 ensures UseIds(out'[i].content) == ResultIds(out'[i + 1].content) {
      assert out'[i] == out[i];
      assert i + 1 < |out| ==> out'[i + 1] == out[i + 1];
    }
  }

  lemma PlainSegment(before: seq<Item>, item: Item)
    requires Paired(Render(before)) && item.IsContent()
    ensures Paired(Render(before + [item]))
  {
    hide BlocksOf, AppendBlocks, UseIds, ResultIds, Render, PairedUpTo, Extend;
    RenderAppend(before, item);
    ContentIds(item);
    AppendBlocksAtOnce(Render(before), RoleOf(item), BlocksOf(item));
    ExtendAsks(Render(before), RoleOf(item), BlocksOf(item));
  }

  lemma ExchangeSegment(before: seq<Item>, calls: seq<Item>, results: seq<Item>)
    requires Paired(Render(before)) && SegmentOk(Exchange(calls, results))
    ensures Paired(Render((before + calls) + results))
  {
    hide BlocksOf, AppendBlocks, UseIds, ResultIds, Render, PairedUpTo, BlocksOfAll;
    var uses, answers := BlocksOfAll(calls), BlocksOfAll(results);
    CallBlocks(calls);
    ResultBlocks(results);
    assert UseIds(uses) == ResultIds(answers);
    RenderSameRole(before, calls, Assistant);
    RenderSameRole(before + calls, results, User);
    AppendBlocksAtOnce(Render(before), Assistant, uses);
    AppendBlocksAtOnce(Render(before + calls), User, answers);
    ExtendAsks(Render(before), Assistant, uses);
    ExtendAnswers(Render(before + calls), UseIds(uses), answers);
  }

  lemma {:induction false} SegmentsRenderPaired(segments: seq<Segment>)
    requires SegmentsOk(segments)
    ensures Paired(Render(AllItems(segments)))
  {
    hide Paired, Render, SegmentOk;
    if segments == [] {
      NothingIsPaired();
    } else {
      var front, last := segments[..|segments| - 1], segments[|segments| - 1];
      SegmentsRenderPaired(front);
      SegmentStep(AllItems(front), last);
    }
  }

  lemma SegmentStep(before: seq<Item>, s: Segment)
    requires Paired(Render(before)) && SegmentOk(s)
    ensures Paired(Render(before + SegmentItems(s)))
  {
    hide Paired, Render;
    match s
    case Plain(item) => PlainSegment(before, item);
    case Exchange(calls, results) =>
      ExchangeSegment(before, calls, results);
      assert before + (calls + results) == (before + calls) + results;
  }

  lemma NothingIsPaired()
    ensures Render([]) == [] && Paired([]) && AllItems([]) == []
  {
  }

  /**
   For a transcript of the agent loop's shape every tool use is answered in the
   very next message, and that message answers no other.
   */
  lemma AgentTranscriptsRenderPaired(items: seq<Item>)
    requires AgentShaped(items)
    ensures Paired(Render(items))
  {
    var segments :| SegmentsOk(segments) && AllItems(segments) == items;
    SegmentsRenderPaired(segments);
  }

  lemma AllItemsConcat(a: seq<Segment>, b: seq<Segment>)
    ensures AllItems(a + b) == AllItems(a) + AllItems(b)
  {
    hide SegmentItems;
    if b == [] {
      assert a + b == a;
    } else {
      AllItemsConcat(a, b[..|b| - 1]);
      assert (a + b)[..|a + b| - 1] == a + b[..|b| - 1];
    }
  }

  lemma AgentShapedConcat(a: seq<Item>, b: seq<Item>)
    requires AgentShaped(a) && AgentShaped(b)
    ensures AgentShaped(a + b)
  {
    var s :| SegmentsOk(s) && AllItems(s) == a;
    var t :| SegmentsOk(t) && AllItems(t) == b;
    AllItemsConcat(s, t);
    assert SegmentsOk(s + t) && AllItems(s + t) == a + b;
  }

  /** Validity alone is not enough: a call made while another is open is answered too late. */
  lemma ValidTranscriptRenderedUnpaired(a: Item, b: Item, c: Item, ra: Item, rb: Item, rc: Item)
    requires a.ToolCall? && a.id == "A" && b.ToolCall? && b.id == "B" && c.ToolCall? && c.id == "C"
    requires ra == ToolResult(Some(ToolOutput("A", "", false)))
    requires rb == ToolResult(Some(ToolOutput("B", "", false)))
    requires rc == ToolResult(Some(ToolOutput("C", "", false)))
    ensures Valid([a, b, ra, c, rb, rc])
    ensures !Paired(Render([a, b, ra, c, rb, rc]))
  {
    assert Trimmed("A") && Trimmed("B") && Trimmed("C");
    hide TrimSpace, OpenFrom, Render, Paired;
    TrimSpaceTrims("A");
    TrimSpaceTrims("B");
    TrimSpaceTrims("C");
    InterleavedIsValid(a, b, c, ra, rb, rc);
    InterleavedRender(a, b, c, ra, rb, rc);
  }

  lemma InterleavedIsValid(a: Item, b: Item, c: Item, ra: Item, rb: Item, rc: Item)
    requires a.ToolCall? && a.id == "A" && b.ToolCall? && b.id == "B" && c.ToolCall? && c.id == "C"
    requires ra == ToolResult(Some(ToolOutput("A", "", false)))
    requires rb == ToolResult(Some(ToolOutput("B", "", false)))
    requires rc == ToolResult(Some(ToolOutput("C", "", false)))
    requires TrimSpace("A") == "A" && TrimSpace("B") == "B" && TrimSpace("C") == "C"
    ensures Valid([a, b, ra, c, rb, rc])
  {
    hide TrimSpace, OpenFrom;
    assert "A"[0] != "B"[0] && "A"[0] != "C"[0] && "B"[0] != "C"[0];
    assert ({} + {"A"}) + {"B"} - {"A"} == {"B"} && ({"B"} + {"C"}) - {"B"} == {"C"} && {"C"} - {"C"} == {};
    NothingOpen();
    OpenAppend({}, [], a);
    OpenAppend({}, [a], b);
    OpenAppend({}, [a, b], ra);
    OpenAppend({}, [a, b, ra], c);
    OpenAppend({}, [a, b, ra, c], rb);
    OpenAppend({}, [a, b, ra, c, rb], rc);
    assert [] + [a] == [a] && [a] + [b] == [a, b] && [a, b] + [ra] == [a, b, ra];
    assert [a, b, ra] + [c] == [a, b, ra, c] && [a, b, ra, c] + [rb] == [a, b, ra, c, rb];
    assert [a, b, ra, c, rb] + [rc] == [a, b, ra, c, rb, rc];
  }

  lemma NothingOpen()
    ensures OpenFrom({}, []) == Some({})
  {
  }

  lemma InterleavedRender(a: Item, b: Item, c: Item, ra: Item, rb: Item, rc: Item)
    requires a.ToolCall? && b.ToolCall? && c.ToolCall?
    requires ra.ToolResult? && ra.result.Some? && rb.ToolResult? && rb.result.Some? && rc.ToolResult? && rc.result.Some?
    ensures !Paired(Render([a, b, ra, c, rb, rc]))
  {
    var calls, more := [a, b], [rb, rc];
    var t2 := calls + [ra];
    var t3 := t2 + [c];
    var t4 := t3 + more;
    hide Render, AppendBlocks, BlocksOf, BlocksOfAll, UseIds, ResultIds, Paired;
    NothingIsPaired();
    RenderSameRole([], calls, Assistant);
    assert [] + calls == calls;
    RenderSameRole(calls, [ra], User);
    RenderSameRole(t2, [c], Assistant);
    RenderSameRole(t3, more, User);
    CallBlocks(calls);
    ResultBlocks([ra]);
    CallBlocks([c]);
    ResultBlocks(more);
    FourMessages(BlocksOfAll(calls), BlocksOfAll([ra]), BlocksOfAll([c]), BlocksOfAll(more));
    Mismatch(Render(t4), BlocksOfAll(calls), BlocksOfAll([ra]));
    assert t4 == [a, b, ra, c, rb, rc];
  }

  lemma Mismatch(out: seq<RoleMessage>, asked: seq<Block>, answered: seq<Block>)
    requires |out| == 4 && out[0].content == asked && out[1].content == answered
    requires |UseIds(asked)| != |ResultIds(answered)|
    ensures !Paired(out)
  {
    hide UseIds, ResultIds;
  }

  lemma FourMessages(u: seq<Block>, r: seq<Block>, v: seq<Block>, w: seq<Block>)
    requires u != [] && r != [] && v != [] && w != []
    ensures AppendBlocks(AppendBlocks(AppendBlocks(AppendBlocks([], Assistant, u), User, r), Assistant, v), User, w)
            == [RoleMessage(Assistant, u), RoleMessage(User, r), RoleMessage(Assistant, v), RoleMessage(User, w)]
  {
    hide AppendBlocks;
    var m1 := AppendNew([], Assistant, u);
    var m2 := AppendNew(m1, User, r);
    var m3 := AppendNew(m2, Assistant, v);
    var m4 := AppendNew(m3, User, w);
  }

  lemma AppendNew(out: seq<RoleMessage>, role: Role, blocks: seq<Block>) returns (next: seq<RoleMessage>)
    requires blocks != [] && (out != [] ==> out[|out| - 1].role != role)
    ensures next == out + [RoleMessage(role, blocks)] == AppendBlocks(out, role, blocks)
  {
    hide AppendBlocks;
    AppendBlocksAtOnce(out, role, blocks);
    next := out + [RoleMessage(role, blocks)];
  }
}
