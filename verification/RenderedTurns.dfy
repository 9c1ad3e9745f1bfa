/** The agent loop's transcripts as rendered (internal/v2/agent/agent.go). */
module RenderedTurns {
  import opened Basics
  import opened Text
  import opened Transcript
  import opened ModelAdapter
  import opened MessageStore
  import opened AgentLoop
  import opened AgentTurn
  import opened AnthropicMessages

  /** Items without content behind a call are some content and then some calls. */
  lemma {:induction false} SplitPoint(items: seq<Item>) returns (n: nat)
    requires !Splits(items) && forall i :: 0 <= i < |items| ==> items[i].IsContent() || items[i].ToolCall?
    ensures n <= |items|
    ensures forall i :: 0 <= i < n ==> items[i].IsContent()
    ensures forall i :: n <= i < |items| ==> items[i].ToolCall?
  {
    n := 0;
    while n < |items| && items[n].IsContent()
      invariant n <= |items| && forall i :: 0 <= i < n ==> items[i].IsContent()
    {
      n := n + 1;
    }
  }

  lemma PlainSegments(items: seq<Item>) returns (segments: seq<Segment>)
    requires forall i :: 0 <= i < |items| ==> items[i].IsContent()
    ensures SegmentsOk(segments) && AllItems(segments) == items
  {
    if items == [] {
      segments := [];
    } else {
      var front := PlainSegments(items[..|items| - 1]);
      segments := front + [Plain(items[|items| - 1])];
      assert segments[..|front|] == front;
    }
  }

  lemma CallsInConcat(a: seq<Item>, b: seq<Item>)
    ensures CallsIn(a + b) == CallsIn(a) + CallsIn(b)
  {
    if b == [] {
      assert a + b == a;
    } else {
      CallsInConcat(a, b[..|b| - 1]);
      assert (a + b)[..|a + b| - 1] == a + b[..|b| - 1];
    }
  }

  lemma CallsInContent(items: seq<Item>)
    requires forall i :: 0 <= i < |items| ==> items[i].IsContent()
    ensures CallsIn(items) == []
  {
  }

  lemma CallsInCalls(items: seq<Item>)
    requires forall i :: 0 <= i < |items| ==> items[i].ToolCall?
    ensures |CallsIn(items)| == |items| && forall i :: 0 <= i < |items| ==> CallsIn(items)[i].id == items[i].id
  {
  }

  /** Speech read back, cut where its calls begin. */
  lemma KeptSplits(codec: Codec, items: seq<Item>) returns (n: nat)
    requires Speech(items) && WellShaped(codec, items)
    ensures n <= |ReadBackAll(codec, items)|
    ensures forall i :: 0 <= i < n ==> ReadBackAll(codec, items)[i].IsContent()
    ensures var calls := ReadBackAll(codec, items)[n..];
            && |calls| == |CallsIn(items)|
            && forall i :: 0 <= i < |calls| ==> calls[i].ToolCall? && calls[i].id == CallsIn(items)[i].id
  {
    hide ReadBackAll, IsBlank, KeysDistinct, Splits, CallsIn, Speech;
    var kept := ReadBackAll(codec, items);
    ReadBackKinds(codec, items);
    ReadBackCalls(codec, items);
    forall i | 0 <= i < |kept| ensures kept[i].IsContent() || kept[i].ToolCall? {
      assert kept[i] in kept;
    }
    n := SplitPoint(kept);
    assert kept == kept[..n] + kept[n..];
    CallsInConcat(kept[..n], kept[n..]);
    CallsInContent(kept[..n]);
    CallsInCalls(kept[n..]);
  }

  /** A well-shaped step has the shape of an exchange behind some content. */
  lemma StepIsAgentShaped(codec: Codec, items: seq<Item>, outputs: nat -> string)
    requires Speech(items) && WellShaped(codec, items)
    ensures AgentShaped(ExchangeItems(codec, items, outputs))
  {
    hide ReadBackAll, CallsIn, Speech, WellShaped, AgentShaped;
    var kept := ReadBackAll(codec, items);
    var n := KeptSplits(codec, items);
    var results := ResultItems(CallsIn(items), outputs);
    ContentThenExchange(kept[..n], kept[n..], results);
    assert kept + results == kept[..n] + (kept[n..] + results);
  }

  lemma ContentThenExchange(content: seq<Item>, calls: seq<Item>, results: seq<Item>)
    requires |results| == |calls|
    requires forall i :: 0 <= i < |content| ==> content[i].IsContent()
    requires forall i :: 0 <= i < |calls| ==>
               calls[i].ToolCall? && results[i].ToolResult? && results[i].result.Some?
               && results[i].result.value.toolCallId == calls[i].id
    ensures AgentShaped(content + (calls + results))
  {
    var plain := PlainSegments(content);
    if calls == [] {
      assert content + (calls + results) == content;
    } else {
      var last := Exchange(calls, results);
      assert SegmentOk(last);
      hide SegmentOk, AllItems;
      SegmentsAppend(plain, last);
    }
  }

  lemma SegmentsAppend(segments: seq<Segment>, s: Segment)
    requires SegmentsOk(segments) && SegmentOk(s)
    ensures SegmentsOk(segments + [s]) && AllItems(segments + [s]) == AllItems(segments) + SegmentItems(s)
  {
    hide SegmentOk, SegmentItems;
    assert (segments + [s])[..|segments|] == segments;
  }

  /** What an iteration that goes on leaves: the earlier transcript, the turn's opening, and one exchange. */
  lemma IterationAppendsExchange(turn: Turn, rows: seq<Message>, first: bool, world: World)
    requires Usable(turn) && WorldOk(world) && Rising(OfSession(rows, turn.sessionId))
    requires Iterate(turn, rows, first, world).Going?
    ensures Spoken(world.events).Some?
    ensures var opening := ItemsOf(turn.codec, if first then turn.input else []);
            Stored(turn, Iterate(turn, rows, first, world).rows)
            == (Stored(turn, rows) + opening) + ExchangeItems(turn.codec, Spoken(world.events).value.items, world.outputs)
  {
    hide OfSession, List, ItemsOf, AppendTo, Stored, MessagesOf, ResultsOf, ReadBackAll, ResultItems, CallsIn,
         Speech, Usable, Rising, Spoken, WorldOk;
    GoingMeansSpoken(turn, rows, first, world);
    var heard := Spoken(world.events).value;
    var opening := if first then turn.input else [];
    var spoken := AppendTo(turn, rows, opening + MessagesOf(turn.codec, heard.items, turn.turnId));
    CallsAreTheCallItems(world.events);
    SpeechStored(turn, rows, first, heard.items);
    StoredAfterAppend(turn, spoken, ResultsOf(heard.calls, world.outputs, turn.turnId));
    ResultsReadBack(turn.codec, heard.calls, world.outputs, turn.turnId);
  }

  /**
   If the earlier conversation and the turn's input have the agent's shape, and
   every iteration's speech is well shaped, then at the head of every iteration
   the stored conversation is rendered so that each message with tool uses is
   followed by the message that answers exactly these.
   */
  lemma {:induction false} EveryHeadRendersPaired(turn: Turn, rows: seq<Message>, worlds: nat -> World, k: nat)
    requires Usable(turn) && forall j: nat :: WorldOk(worlds(j))
    requires Rising(OfSession(rows, turn.sessionId)) && Valid(Stored(turn, rows))
    requires AgentShaped(Stored(turn, rows)) && AgentShaped(ItemsOf(turn.codec, turn.input))
    requires Head(turn, rows, worlds, k).Going? && ShapedBefore(turn, rows, worlds, k)
    ensures AgentShaped(Stored(turn, Head(turn, rows, worlds, k).rows))
    ensures Paired(Render(Stored(turn, Head(turn, rows, worlds, k).rows)))
  {
    hide Iterate, WellShaped, Usable, Stored, Spoken, WorldOk, AgentShaped, Paired, Render, ItemsOf, ExchangeItems;
    if k > 0 {
      var before, world := Head(turn, rows, worlds, k - 1).rows, worlds(k - 1);
      EveryHeadRendersPaired(turn, rows, worlds, k - 1);
      EveryHeadIsValid(turn, rows, worlds, k - 1);
      IterationAppendsExchange(turn, before, k == 1, world);
      SpeechOfWorld(world);
      StepIsAgentShaped(turn.codec, Spoken(world.events).value.items, world.outputs);
      var opening := ItemsOf(turn.codec, if k == 1 then turn.input else []);
      NoItemsAreShaped(turn.codec);
      AgentShapedConcat(Stored(turn, before), opening);
      AgentShapedConcat(Stored(turn, before) + opening, ExchangeItems(turn.codec, Spoken(world.events).value.items, world.outputs));
    }
    AgentTranscriptsRenderPaired(Stored(turn, Head(turn, rows, worlds, k).rows));
  }

  lemma SpeechOfWorld(world: World)
    requires WorldOk(world) && Spoken(world.events).Some?
    ensures Speech(Spoken(world.events).value.items)
  {
    hide Spoken, Speech;
    SpokenIsSpeech(world.events);
  }

  lemma NoItemsAreShaped(codec: Codec)
    ensures AgentShaped(ItemsOf(codec, []))
  {
    assert SegmentsOk([]) && AllItems([]) == ItemsOf(codec, []);
  }

  // -------- from the streams alone --------

  /** The stream keeps quiet behind its calls, whose names are not blank and whose ids differ after trimming. */
  ghost predicate Quiet(world: World) {
    && QuietAfterCalls(world.events) && GeneratedIdsOk(world.events)
    && (Spoken(world.events).Some? ==>
          var calls := Spoken(world.events).value.calls;
          (forall i :: 0 <= i < |calls| ==> !IsBlank(calls[i].name)) && KeysDistinct(calls))
  }

  lemma {:induction false} QuietIsShaped(turn: Turn, rows: seq<Message>, worlds: nat -> World, k: nat)
    requires forall j: nat :: Quiet(worlds(j))
    ensures ShapedBefore(turn, rows, worlds, k)
  {
    hide Iterate, WellShaped, Spoken, KeysDistinct, IsBlank;
    forall j | 0 <= j < k && Head(turn, rows, worlds, j + 1).Going?
      ensures Spoken(worlds(j).events).Some? && WellShaped(turn.codec, Spoken(worlds(j).events).value.items)
    {
      GoingMeansSpoken(turn, Head(turn, rows, worlds, j).rows, j == 0, worlds(j));
      assert Quiet(worlds(j));
      QuietStreamsAreWellShaped(turn.codec, worlds(j).events);
    }
  }

  /**
   Whatever quiet streams bring, and whatever the tools answer, the stored conversation is at the
   head of every iteration a valid transcript that is rendered with every tool use answered
   in the next message.
   */
  lemma QuietTurnsStayValid(turn: Turn, rows: seq<Message>, worlds: nat -> World, k: nat)
    requires Usable(turn) && forall j: nat :: Quiet(worlds(j))
    requires Rising(OfSession(rows, turn.sessionId)) && Valid(Stored(turn, rows))
    requires AgentShaped(Stored(turn, rows)) && AgentShaped(ItemsOf(turn.codec, turn.input))
    requires Head(turn, rows, worlds, k).Going?
    ensures var stored := Stored(turn, Head(turn, rows, worlds, k).rows);
            Valid(stored) && AgentShaped(stored) && Paired(Render(stored))
  {
    hide Iterate, WellShaped, Usable, Stored, Spoken, AgentShaped, Paired, Render, ItemsOf, KeysDistinct, IsBlank, OfSession, Rising;
    forall j: nat ensures WorldOk(worlds(j)) {
      assert Quiet(worlds(j));
    }
    QuietIsShaped(turn, rows, worlds, k);
    EveryHeadIsValid(turn, rows, worlds, k);
    EveryHeadRendersPaired(turn, rows, worlds, k);
  }
}
