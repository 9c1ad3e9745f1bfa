/** Rendered blocks read back as items (internal/model/provider_anthropic.go). */
module RenderedItems {
  import opened Basics
  import opened Text
  import opened Transcript
  import opened AnthropicMessages

  // -------- what a block says --------

  /** The item a block says, under its message's role. */
  function ItemOfBlock(role: Role, block: Block): Item {
    match block
    case TextBlock(text) => if role == User then UserMessage(text, []) else AssistantText(text)
    case ImageBlock(mediaType, data) => UserMessage("", [ImagePart(mediaType, data)])
    case ThinkingBlock(thinking, signature) => AssistantThinking(thinking, signature)
    case ToolUse(id, name, input) => ToolCall(id, name, input)
    case ToolResultBlock(toolUseId, content, isError) => ToolResult(Some(ToolOutput(toolUseId, content, isError)))
  }

  function ItemsOfBlocks(tagged: seq<(Role, Block)>): seq<Item> {
    if tagged == [] then []
    else ItemsOfBlocks(tagged[..|tagged| - 1]) + [ItemOfBlock(tagged[|tagged| - 1].0, tagged[|tagged| - 1].1)]
  }

  // -------- what an item says that is shown --------

  /** A part of a user's message, by itself; blank ones are not shown. */
  function PartShown(part: ContentPart): seq<Item> {
    match part
    case TextPart(text) => if IsBlank(text) then [] else [UserMessage(text, [])]
    case ImagePart(mimeType, data) => if IsBlank(mimeType) || IsBlank(data) then [] else [UserMessage("", [part])]
    case OtherPart => []
  }

  function PartsShown(parts: seq<ContentPart>): seq<Item> {
    if parts == [] then [] else PartsShown(parts[..|parts| - 1]) + PartShown(parts[|parts| - 1])
  }

  /** Calls as they are; texts unless blank; thoughts with a stand-in for a blank text; results without surrounding space. */
  function Shown(item: Item): seq<Item> {
    match item
    case UserMessage(text, parts) => if parts != [] then PartsShown(parts) else if IsBlank(text) then [] else [item]
    case AssistantText(text) => if IsBlank(text) then [] else [item]
    case AssistantThinking(text, signature) =>
      if !IsBlank(text) then [item] else if IsBlank(signature) then [] else [AssistantThinking("(signature only)", signature)]
    case ToolCall(_, _, _) => [item]
    case ToolResult(None) => []
    case ToolResult(Some(r)) => [ToolResult(Some(ToolOutput(r.toolCallId, TrimSpace(r.content), r.isError)))]
    case Summary(content) => if content == "" then [] else [AssistantText(content)]
    case OtherKind => []
  }

  function AllShown(items: seq<Item>): seq<Item> {
    if items == [] then [] else AllShown(items[..|items| - 1]) + Shown(items[|items| - 1])
  }

  // -------- the round trip --------

  lemma {:induction false} BlocksConcat(a: seq<(Role, Block)>, b: seq<(Role, Block)>)
    ensures ItemsOfBlocks(a + b) == ItemsOfBlocks(a) + ItemsOfBlocks(b)
  {
    hide ItemOfBlock;
    if b == [] {
      assert a + b == a;
    } else {
      BlocksConcat(a, b[..|b| - 1]);
      assert (a + b)[..|a + b| - 1] == a + b[..|b| - 1];
    }
  }

  lemma OneBlock(role: Role, block: Block)
    ensures ItemsOfBlocks(Tag(role, [block])) == [ItemOfBlock(role, block)]
    ensures ItemsOfBlocks(Tag(role, [])) == []
  {
    hide ItemOfBlock;
    assert Tag(role, [block])[..0] == [];
  }

  lemma {:induction false} PartsReadBack(parts: seq<ContentPart>)
    ensures ItemsOfBlocks(Tag(User, PartBlocks(parts))) == PartsShown(parts)
  {
    hide IsBlank, ItemsOfBlocks, Tag;
    if parts == [] {
      OneBlock(User, TextBlock(""));
    } else {
      var front, last := parts[..|parts| - 1], parts[|parts| - 1];
      PartsReadBack(front);
      TagConcat(User, PartBlocks(front), PartBlock(last));
      BlocksConcat(Tag(User, PartBlocks(front)), Tag(User, PartBlock(last)));
      OneBlock(User, if PartBlock(last) != [] then PartBlock(last)[0] else TextBlock(""));
    }
  }

  lemma TagConcat(role: Role, a: seq<Block>, b: seq<Block>)
    ensures Tag(role, a + b) == Tag(role, a) + Tag(role, b)
  {
  }

  /** The blocks of one item read back as what it shows. */
  lemma ItemReadsBack(item: Item)
    ensures ItemsOfBlocks(Tag(RoleOf(item), BlocksOf(item))) == Shown(item)
  {
    hide IsBlank, ItemsOfBlocks, Tag, TrimSpace, PartBlocks, PartsShown;
    if item.UserMessage? {
      PartsReadBack(item.parts);
    }
    OneBlock(RoleOf(item), if BlocksOf(item) != [] then BlocksOf(item)[0] else TextBlock(""));
    if |BlocksOf(item)| == 1 {
      assert BlocksOf(item) == [BlocksOf(item)[0]];
    }
  }

  lemma {:induction false} TaggedReadBack(items: seq<Item>)
    ensures ItemsOfBlocks(TaggedBlocks(items)) == AllShown(items)
  {
    hide ItemsOfBlocks, Tag, BlocksOf, Shown, RoleOf;
    if items == [] {
      OneBlock(User, TextBlock(""));
      EmptyTag();
    } else {
      var front, last := items[..|items| - 1], items[|items| - 1];
      TaggedReadBack(front);
      BlocksConcat(TaggedBlocks(front), Tag(RoleOf(last), BlocksOf(last)));
      ItemReadsBack(last);
    }
  }

  lemma EmptyTag()
    ensures Tag(User, []) == []
  {
  }

  /**
   Whatever the items are, the rendered messages read back as what the items show, in order: each call with
   its id, name and input, each result under its call's id, each text and thought on its speaker's side.
   */
  lemma RenderingReadsBack(items: seq<Item>)
    ensures ItemsOfBlocks(Flatten(Render(items))) == AllShown(items)
  {
    hide ItemsOfBlocks, Flatten, Render, TaggedBlocks, AllShown;
    RenderedFaithfully(items);
    TaggedReadBack(items);
  }
}
